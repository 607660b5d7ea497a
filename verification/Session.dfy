/**
 The connection side of one account session: the synchronous segments between awaits, as functions of the
 fields, and the world in which suspended calls, timers, queued callbacks and user requests interleave.
 */
module Session {
  import opened Base

  datatype State = New | QrPending | Connecting | Online | Offline | InError | LoggedOut

  /** A socket and a connect promise are named by the generation of the connect call that made them. */
  type Generation = nat

  /** `qr` holds the expiry time of the shown code; the timers hold the generation they were set for. */
  datatype Session = Session(state: State, socket: Option<Generation>, promise: Option<Generation>, generation: Generation,
                             qr: Option<Time>, qrExpired: bool, qrTimer: Option<Generation>, reconnectTimer: bool,
                             reconnectAttempt: nat, autoReconnect: bool)

  const FRESH := Session(New, None, None, 0, None, false, None, false, 0, false)

  datatype Connection = IsConnecting | IsOpen | IsClosed(loggedOut: bool)

  datatype Update = Update(qr: bool, connection: Option<Connection>)

  // ---------------------------------------------------------------- segments

  function CancelReconnect(s: Session): Session {
    s.(reconnectTimer := false)
  }

  function ScheduleReconnect(s: Session): Session {
    if s.reconnectTimer || !s.autoReconnect || s.state.LoggedOut? then s
    else s.(reconnectTimer := true, reconnectAttempt := s.reconnectAttempt + 1)
  }

  function ExpireQrIfNeeded(s: Session, now: Time): Session {
    if s.qr.None? || now < s.qr.value then s
    else s.(qr := None, qrTimer := None, qrExpired := true, state := if s.state.QrPending? then Offline else s.state)
  }

  predicate Connected(s: Session) {
    s.state.Online? && s.socket.Some?
  }

  /** A call of connect that neither finds a live socket nor joins a call under way. */
  predicate Starts(s: Session) {
    !Connected(s) && s.promise.None?
  }

  /** connect up to its first await. */
  function Connect(s: Session, isReconnect: bool, now: Time): Session {
    if Connected(s) then ExpireQrIfNeeded(s, now)
    else if s.promise.Some? then s
    else
      var s1 := if isReconnect then s else CancelReconnect(s).(autoReconnect := true, reconnectAttempt := 0);
      s1.(generation := s.generation + 1, state := Connecting, qr := None, qrExpired := false, qrTimer := None,
          promise := Some(s.generation + 1))
  }

  /** The socket factory has answered: a superseded call drops its socket. */
  function SocketReady(s: Session, g: Generation, now: Time): Session {
    ExpireQrIfNeeded(if g == s.generation then s.(socket := Some(g)) else s, now)
  }

  function ConnectFailed(s: Session, g: Generation): Session {
    if g == s.generation then s.(state := InError, socket := None) else s
  }

  function ErrorReported(s: Session): Session {
    if s.autoReconnect then ScheduleReconnect(s) else s
  }

  function ConnectSettled(s: Session, g: Generation): Session {
    if s.promise == Some(g) then s.(promise := None) else s
  }

  function TimerFired(s: Session, now: Time): Session {
    var s1 := s.(reconnectTimer := false);
    if !s.autoReconnect || s.state.LoggedOut? then s1 else Connect(s1, true, now)
  }

  /** The QR image is ready. */
  function ShowQr(s: Session, g: Generation, expiresAt: Time): Session {
    s.(qr := Some(expiresAt), qrExpired := false, state := QrPending, qrTimer := Some(g))
  }

  /** The rest of an update, after its QR part. */
  function ApplyConnection(s: Session, c: Option<Connection>): Session {
    if c.None? then s
    else match c.value
      case IsConnecting => if s.qr.None? then s.(state := Connecting) else s
      case IsOpen => CancelReconnect(s).(state := Online, qr := None, qrTimer := None, reconnectAttempt := 0)
      case IsClosed(loggedOut) =>
        var closed := s.(generation := s.generation + 1, qr := None, qrTimer := None, socket := None, promise := None);
        if loggedOut then CancelReconnect(closed).(state := LoggedOut, autoReconnect := false)
        else ErrorReported(closed.(state := Offline))
  }

  function QrTimerElapsed(s: Session, g: Generation, now: Time): Session {
    if g != s.generation || s.qr.None? || now < s.qr.value then s
    else s.(qr := None, qrExpired := true, state := if s.state.QrPending? then Offline else s.state)
  }

  /** What stop and logout both do before anything else. */
  function Retired(s: Session): Session {
    s.(autoReconnect := false, reconnectTimer := false, reconnectAttempt := 0, generation := s.generation + 1,
       socket := None, promise := None, qr := None, qrTimer := None)
  }

  function Stop(s: Session): Session {
    Retired(s).(state := Offline)
  }

  /** Without a socket logout does not wait. */
  function Logout(s: Session): Session {
    if s.socket.None? then Retired(s).(state := LoggedOut) else Retired(s)
  }

  // ---------------------------------------------------------------- the world

  /** Where a started connect call is suspended. */
  datatype Phase = Opening | Rejected | Reporting | Settling

  datatype Callback = OnUpdate(g: Generation, u: Update) | OnQrTimer(g: Generation)

  /** Where the callback being worked on is suspended. */
  datatype Frame = DrawingQr(g: Generation, u: Update) | QrReported(g: Generation, u: Update) | Reported

  /**
   `wired` are the generations whose socket has had its handlers attached; callbacks are worked off one
   at a time in the order they arrived; `logouts` counts logout calls that wait for their socket.
   */
  datatype World = World(s: Session, calls: map<Generation, Phase>, wired: set<Generation>, queue: seq<Callback>,
                         running: Option<Frame>, logouts: nat)

  const START := World(FRESH, map[], {}, [], None, 0)

  datatype Step =
    | UserConnects(now: Time) | ReconnectTimer(now: Time)
    | SocketArrives(g: Generation, now: Time) | SocketFails(g: Generation)
    | CatchRuns(g: Generation) | ErrorEventDone(g: Generation) | FinallyRuns(g: Generation)
    | Emits(g: Generation, u: Update) | QrTimer | Dequeue(now: Time)
    | QrDrawn(expiresAt: Time) | QrFails | EventDone
    | Looks(now: Time) | UserStops | UserLogsOut | LogoutDone

  predicate InPhase(w: World, g: Generation, p: Phase) {
    g in w.calls && w.calls[g] == p
  }

  predicate Enabled(w: World, step: Step) {
    match step
    case ReconnectTimer(_) => w.s.reconnectTimer
    case SocketArrives(g, _) => InPhase(w, g, Opening)
    case SocketFails(g) => InPhase(w, g, Opening)
    case CatchRuns(g) => InPhase(w, g, Rejected)
    case ErrorEventDone(g) => InPhase(w, g, Reporting)
    case FinallyRuns(g) => InPhase(w, g, Settling)
    case Emits(g, _) => g in w.wired
    case QrTimer => w.s.qrTimer.Some?
    case Dequeue(_) => w.running.None? && w.queue != []
    case QrDrawn(_) => w.running.Some? && w.running.value.DrawingQr?
    case QrFails => w.running.Some? && w.running.value.DrawingQr?
    case EventDone => w.running.Some? && !w.running.value.DrawingQr?
    case LogoutDone => w.logouts > 0
    case _ => true
  }

  function Started(w: World, s: Session): World {
    if s.generation == w.s.generation then w.(s := s) else w.(s := s, calls := w.calls[s.generation := Opening])
  }

  /** The head of the queue runs up to its first await. */
  function Dequeued(w: World, now: Time): World
    requires w.queue != []
  {
    var w1 := w.(queue := w.queue[1..]);
    match w.queue[0]
    case OnQrTimer(g) => w1.(s := QrTimerElapsed(w.s, g, now), running := Some(Reported))
    case OnUpdate(g, u) =>
      if g != w.s.generation then w1
      else if u.qr then w1.(running := Some(DrawingQr(g, u)))
      else w1.(s := ApplyConnection(w.s, u.connection), running := Some(Reported))
  }

  function Apply(w: World, step: Step): World {
    if !Enabled(w, step) then w
    else
      match step
      case UserConnects(now) => Started(w, Connect(w.s, false, now))
      case ReconnectTimer(now) => Started(w, TimerFired(w.s, now))
      case SocketArrives(g, now) =>
        w.(s := SocketReady(w.s, g, now), calls := w.calls[g := Settling],
           wired := if g == w.s.generation then w.wired + {g} else w.wired)
      case SocketFails(g) => w.(calls := w.calls[g := Rejected])
      case CatchRuns(g) =>
        w.(s := ConnectFailed(w.s, g), calls := w.calls[g := if g == w.s.generation then Reporting else Settling])
      case ErrorEventDone(g) => w.(s := ErrorReported(w.s), calls := w.calls[g := Settling])
      case FinallyRuns(g) => w.(s := ConnectSettled(w.s, g), calls := w.calls - {g})
      case Emits(g, u) => w.(queue := w.queue + [OnUpdate(g, u)])
      case QrTimer => w.(s := w.s.(qrTimer := None), queue := w.queue + [OnQrTimer(w.s.qrTimer.value)])
      case Dequeue(now) => Dequeued(w, now)
      case QrDrawn(expiresAt) =>
        var f := w.running.value;
        if f.g != w.s.generation then w.(running := None)
        else w.(s := ShowQr(w.s, f.g, expiresAt), running := Some(QrReported(f.g, f.u)))
      case QrFails => w.(running := None)
      case EventDone =>
        var f := w.running.value;
        if f.Reported? then w.(running := None)
        else w.(s := ApplyConnection(w.s, f.u.connection), running := Some(Reported))
      case Looks(now) => w.(s := ExpireQrIfNeeded(w.s, now))
      case UserStops => w.(s := Stop(w.s))
      case UserLogsOut => w.(s := Logout(w.s), logouts := if w.s.socket.Some? then w.logouts + 1 else w.logouts)
      case LogoutDone => w.(s := w.s.(state := LoggedOut), logouts := w.logouts - 1)
  }

  function Run(w: World, steps: seq<Step>): World
    decreases |steps|
  {
    if steps == [] then w else Run(Apply(w, steps[0]), steps[1..])
  }
}
