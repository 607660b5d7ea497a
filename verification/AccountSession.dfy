/** The session object: one method for each stretch of code between awaits, held to Session and KeyedSend. */
module AccountSessionModule {
  import opened Base
  import S = Session
  import K = KeyedSend
  import R = ReceiptStore
  import SP = SessionProperties

  class AccountSession {
    var state: S.State
    var socket: Option<S.Generation>
    var connectPromise: Option<S.Generation>
    var generation: S.Generation
    var qr: Option<Time>
    var qrExpired: bool
    var qrExpiryTimer: Option<S.Generation>
    var reconnectTimer: bool
    var reconnectAttempt: nat
    var autoReconnect: bool
    const sendReceiptStore: R.SendReceiptStore
    var sendInFlight: map<R.Key, K.OpId>
    // The promises of the sends so far, and the history kept for their specification.
    var operations: map<K.OpId, K.Op>
    ghost var calls: map<K.CallId, K.Call>
    ghost var obtained: seq<K.Yield>
    ghost var forgotten: set<R.Key>

    ghost function Fields(): S.Session
      reads this
    {
      S.Session(state, socket, connectPromise, generation, qr, qrExpired, qrExpiryTimer, reconnectTimer,
                reconnectAttempt, autoReconnect)
    }

    ghost function Sends(): K.Bridge
      reads this, sendReceiptStore
    {
      K.Bridge(S.Connected(Fields()), R.Store(sendReceiptStore.entries, sendReceiptStore.file), sendReceiptStore.maxEntries,
               sendInFlight, operations, calls, obtained, forgotten)
    }

    /** Without autoReconnect there is no socket, timer or promise, and the store keeps its bound. */
    ghost predicate Valid()
      reads this, sendReceiptStore
    {
      SP.Calm(Fields()) && sendReceiptStore.Valid()
    }

    constructor (onDisk: seq<R.Entry>, maxEntries: nat)
      ensures Valid() && Fields() == S.FRESH && fresh(sendReceiptStore)
      ensures Sends() == K.Fresh(onDisk, sendReceiptStore.maxEntries).(store := R.Store([], onDisk))
    {
      state, socket, connectPromise, generation := S.New, None, None, 0;
      qr, qrExpired, qrExpiryTimer := None, false, None;
      reconnectTimer, reconnectAttempt, autoReconnect := false, 0, false;
      sendReceiptStore := new R.SendReceiptStore(onDisk, maxEntries);
      sendInFlight, operations, calls, obtained, forgotten := map[], map[], map[], [], {};
    }

    // ---------------------------------------------------------------- timers and the QR code

    method CancelReconnect()
      modifies this`reconnectTimer
      ensures Fields() == S.CancelReconnect(old(Fields()))
    {
      reconnectTimer := false;
    }

    method ScheduleReconnect()
      modifies this`reconnectTimer, this`reconnectAttempt
      ensures Fields() == S.ScheduleReconnect(old(Fields()))
      ensures reconnectTimer ==> old(reconnectTimer) || (autoReconnect && reconnectAttempt == old(reconnectAttempt) + 1)
      ensures old(reconnectTimer) ==> Fields() == old(Fields())
    {
      if reconnectTimer || !autoReconnect || state.LoggedOut? { return; }
      reconnectAttempt := reconnectAttempt + 1;
      reconnectTimer := true;
    }

    /** status() and getQr() begin with this. */
    method ExpireQrIfNeeded(now: Time)
      modifies this`qr, this`qrExpired, this`qrExpiryTimer, this`state
      ensures Fields() == S.ExpireQrIfNeeded(old(Fields()), now)
    {
      if qr.None? || qr.value > now { return; }
      qrExpiryTimer := None;
      qr := None;
      qrExpired := true;
      if state.QrPending? { state := S.Offline; }
    }

    method QrTimerElapsed(g: S.Generation, now: Time)
      modifies this`qr, this`qrExpired, this`state
      ensures Fields() == S.QrTimerElapsed(old(Fields()), g, now)
    {
      if g != generation || qr.None? || qr.value > now { return; }
      qr := None;
      qrExpired := true;
      if state.QrPending? { state := S.Offline; }
    }

    // ---------------------------------------------------------------- connect

    /** connect up to its first await; the result says whether a new call was started. */
    method Connect(isReconnect: bool, now: Time) returns (started: bool)
      modifies this
      ensures Fields() == S.Connect(old(Fields()), isReconnect, now)
      ensures started == S.Starts(old(Fields()))
      ensures started ==> connectPromise == Some(generation) && generation == old(generation) + 1
      ensures !started ==> generation == old(generation) && socket == old(socket)
      ensures started && !isReconnect ==> autoReconnect && !reconnectTimer && reconnectAttempt == 0
      ensures old(Valid()) && (isReconnect ==> old(autoReconnect)) ==> Valid()
    {
      if state.Online? && socket.Some? {
        ExpireQrIfNeeded(now);
        return false;
      }
      if connectPromise.Some? { return false; }
      if !isReconnect {
        autoReconnect := true;
        reconnectAttempt := 0;
        CancelReconnect();
      }
      generation := generation + 1;
      state := S.Connecting;
      qr := None;
      qrExpired := false;
      qrExpiryTimer := None;
      connectPromise := Some(generation);
      return true;
    }

    method SocketReady(g: S.Generation, now: Time) returns (wired: bool)
      modifies this
      ensures Fields() == S.SocketReady(old(Fields()), g, now)
      ensures wired <==> g == old(generation)
      ensures !wired ==> socket == old(socket)
      ensures old(Valid()) && (wired ==> old(autoReconnect)) ==> Valid()
    {
      wired := g == generation;
      if wired { socket := Some(g); }
      ExpireQrIfNeeded(now);
    }

    method ConnectFailed(g: S.Generation)
      modifies this`state, this`socket
      ensures Fields() == S.ConnectFailed(old(Fields()), g)
      ensures old(Valid()) ==> Valid()
      ensures g == old(generation) ==> socket.None?
    {
      if g == generation {
        state := S.InError;
        socket := None;
      }
    }

    method ErrorReported()
      modifies this`reconnectTimer, this`reconnectAttempt
      ensures Fields() == S.ErrorReported(old(Fields()))
    {
      if autoReconnect { ScheduleReconnect(); }
    }

    method ConnectSettled(g: S.Generation)
      modifies this`connectPromise
      ensures Fields() == S.ConnectSettled(old(Fields()), g)
    {
      if connectPromise == Some(g) { connectPromise := None; }
    }

    method ReconnectTimerFires(now: Time) returns (started: bool)
      modifies this
      ensures Fields() == S.TimerFired(old(Fields()), now)
      ensures started ==> old(autoReconnect) && generation == old(generation) + 1
      ensures !old(autoReconnect) ==> socket == old(socket) && connectPromise == old(connectPromise) && !reconnectTimer
      ensures old(Valid()) ==> Valid()
    {
      reconnectTimer := false;
      if !autoReconnect || state.LoggedOut? { return false; }
      started := Connect(true, now);
    }

    // ---------------------------------------------------------------- connection updates

    method ShowQr(g: S.Generation, expiresAt: Time) returns (shown: bool)
      modifies this`qr, this`qrExpired, this`state, this`qrExpiryTimer
      ensures shown <==> g == generation
      ensures Fields() == if g == generation then S.ShowQr(old(Fields()), g, expiresAt) else old(Fields())
    {
      if g != generation { return false; }
      qr := Some(expiresAt);
      qrExpired := false;
      state := S.QrPending;
      qrExpiryTimer := Some(g);
      return true;
    }

    method ApplyConnection(c: Option<S.Connection>)
      modifies this
      ensures Fields() == S.ApplyConnection(old(Fields()), c)
      ensures old(Valid()) ==> Valid()
      ensures c.Some? && c.value.IsClosed? ==> socket.None? && connectPromise.None? && generation == old(generation) + 1
      ensures c == Some(S.IsClosed(true)) ==> SP.Idle(Fields()) && !autoReconnect
      ensures c == Some(S.IsClosed(false)) && old(autoReconnect) ==> reconnectTimer
    {
      if c.None? { return; }
      match c.value {
        case IsConnecting =>
          if qr.None? { state := S.Connecting; }
        case IsOpen =>
          state := S.Online;
          qr := None;
          qrExpiryTimer := None;
          reconnectAttempt := 0;
          CancelReconnect();
        case IsClosed(loggedOut) =>
          generation := generation + 1;
          qr := None;
          qrExpiryTimer := None;
          socket := None;
          connectPromise := None;
          if loggedOut {
            state := S.LoggedOut;
            autoReconnect := false;
            CancelReconnect();
          } else {
            state := S.Offline;
            if autoReconnect { ScheduleReconnect(); }
          }
      }
    }

    // ---------------------------------------------------------------- stop and logout

    method Stop()
      modifies this
      ensures Fields() == S.Stop(old(Fields()))
      ensures SP.Idle(Fields()) && !autoReconnect && generation == old(generation) + 1
      ensures old(Valid()) ==> Valid()
    {
      autoReconnect := false;
      CancelReconnect();
      reconnectAttempt := 0;
      generation := generation + 1;
      socket := None;
      connectPromise := None;
      qr := None;
      state := S.Offline;
      qrExpiryTimer := None;
    }

    /** logout up to its first await, if it has a socket to wait for. */
    method Logout() returns (waits: bool)
      modifies this
      ensures Fields() == S.Logout(old(Fields()))
      ensures waits <==> old(socket).Some?
      ensures waits ==> state == old(state)
      ensures !waits ==> state.LoggedOut?
      ensures SP.Idle(Fields()) && !autoReconnect && generation == old(generation) + 1
      ensures old(Valid()) ==> Valid()
    {
      autoReconnect := false;
      CancelReconnect();
      reconnectAttempt := 0;
      generation := generation + 1;
      waits := socket.Some?;
      socket := None;
      connectPromise := None;
      qr := None;
      qrExpiryTimer := None;
      if !waits { state := S.LoggedOut; }
    }

    method LogoutDone()
      modifies this`state
      ensures Fields() == old(Fields()).(state := S.LoggedOut)
    {
      state := S.LoggedOut;
    }

    // ---------------------------------------------------------------- send

    /** send up to its first await: a remembered id, an operation to wait for, or a new one. */
    method Send(ghost call: K.CallId, op: K.OpId, key: Option<R.Key>) returns (answer: K.Answer)
      requires call !in calls && op !in operations
      modifies this
      ensures Sends() == K.Apply(old(Sends()), K.SendStep(call, op, key))
      ensures Fields() == old(Fields())
      ensures call in calls && calls[call] == K.Call(key, answer)
    {
      if key.Some? {
        var existing := sendReceiptStore.Get(key.value);
        if existing.Some? {
          answer := K.Known(existing.value);
          calls := calls[call := K.Call(key, answer)];
          return;
        }
        if key.value in sendInFlight {
          answer := K.Join(sendInFlight[key.value]);
          calls := calls[call := K.Call(key, answer)];
          return;
        }
      }
      var phase := K.Sending;
      if !(state.Online? && socket.Some?) { phase := K.Broken; }
      operations := operations[op := K.Op(key, phase)];
      if key.Some? { sendInFlight := sendInFlight[key.value := op]; }
      answer := K.Join(op);
      calls := calls[call := K.Call(key, answer)];
    }

    /** sendMessage settles: an id is remembered under its key before anything else is awaited. */
    method SendSettles(op: K.OpId, result: Option<WaId>)
      requires op in operations && operations[op].phase.Sending? && sendReceiptStore.Valid()
      modifies this, sendReceiptStore
      ensures Sends() == K.Apply(old(Sends()), K.ResolveStep(op, result))
      ensures Fields() == old(Fields()) && sendReceiptStore.Valid()
      ensures op in operations && operations[op].key == old(operations[op].key)
      ensures result.Some? && operations[op].key.Some? ==>
                R.Lookup(sendReceiptStore.entries, operations[op].key.value) == result
      ensures result.None? || operations[op].key.None? ==> sendReceiptStore.entries == old(sendReceiptStore.entries)
      ensures sendReceiptStore.file == old(sendReceiptStore.file)
    {
      var key := operations[op].key;
      if result.None? {
        operations := operations[op := K.Op(key, K.Broken)];
        return;
      }
      obtained := obtained + [K.Yield(key, result.value)];
      if key.None? {
        operations := operations[op := K.Op(key, K.Emitting(result.value))];
        return;
      }
      ghost var before := sendReceiptStore.entries;
      sendReceiptStore.Put(key.value, result.value);
      forgotten := forgotten + K.Dropped(before, sendReceiptStore.entries);
      operations := operations[op := K.Op(key, K.Flushing(result.value))];
    }

    method FlushSettles(op: K.OpId, ok: bool)
      requires op in operations && operations[op].phase.Flushing?
      modifies this, sendReceiptStore
      ensures Sends() == K.Apply(old(Sends()), K.FlushStep(op, ok))
      ensures Fields() == old(Fields()) && sendReceiptStore.entries == old(sendReceiptStore.entries)
      ensures sendReceiptStore.file == if ok then sendReceiptStore.entries else old(sendReceiptStore.file)
    {
      var o := operations[op];
      if ok {
        sendReceiptStore.Flush();
        operations := operations[op := K.Op(o.key, K.Emitting(o.phase.id))];
      } else {
        operations := operations[op := K.Op(o.key, K.Broken)];
      }
    }

    method EmitSettles(op: K.OpId, ok: bool)
      requires op in operations && operations[op].phase.Emitting?
      modifies this
      ensures Sends() == K.Apply(old(Sends()), K.EmitStep(op, ok))
      ensures Fields() == old(Fields())
    {
      var o := operations[op];
      operations := operations[op := K.Op(o.key, if ok then K.Done(o.phase.id) else K.Broken)];
    }

    /** The finally block of the call that started the operation. */
    method ForgetOperation(op: K.OpId)
      requires op in operations && (operations[op].phase.Done? || operations[op].phase.Broken?)
      modifies this`sendInFlight
      ensures Sends() == K.Apply(old(Sends()), K.ForgetStep(op))
      ensures Fields() == old(Fields()) && operations == old(operations)
      ensures forall k :: k in old(sendInFlight) && old(sendInFlight)[k] != op ==>
                k in sendInFlight && sendInFlight[k] == old(sendInFlight)[k]
      ensures operations[op].key.Some? && operations[op].key.value in sendInFlight ==>
                sendInFlight[operations[op].key.value] != op
    {
      var key := operations[op].key;
      if key.Some? && key.value in sendInFlight && sendInFlight[key.value] == op {
        sendInFlight := sendInFlight - {key.value};
      }
    }

    /** initialize() reads the receipt file into the living store on every connect. */
    method Initialize()
      requires 100 <= sendReceiptStore.maxEntries
      modifies this, sendReceiptStore
      ensures Sends() == K.Apply(old(Sends()), K.ReloadStep)
      ensures Fields() == old(Fields())
    {
      ghost var before := sendReceiptStore.entries;
      sendReceiptStore.Start();
      forgotten := forgotten + K.Dropped(before, sendReceiptStore.entries);
    }
  }
}
