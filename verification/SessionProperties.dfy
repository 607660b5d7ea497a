/** What every interleaving of an account session keeps. */
module SessionProperties {
  import opened Base
  import opened Session

  // ---------------------------------------------------------------- no connection without autoReconnect

  predicate Idle(s: Session) {
    s.socket.None? && !s.reconnectTimer && s.promise.None?
  }

  predicate Calm(s: Session) {
    !s.autoReconnect ==> Idle(s)
  }

  /** Suspended connect calls of the present generation belong to a session that wants to be connected. */
  predicate Inv(w: World) {
    && Calm(w.s)
    && (forall g :: g in w.calls ==> g <= w.s.generation && (g == w.s.generation ==> w.s.autoReconnect))
    && (w.s.promise.Some? ==> w.s.promise.value == w.s.generation && w.s.generation in w.calls)
  }

  /** The segments of a connect call, each named by the generation it started with. */
  predicate OfCall(step: Step) {
    step.SocketArrives? || step.SocketFails? || step.CatchRuns? || step.ErrorEventDone? || step.FinallyRuns?
  }

  lemma CallStepKeepsInv(w: World, step: Step)
    requires Inv(w) && OfCall(step)
    ensures Inv(Apply(w, step))
  {
  }

  /** The segments of queued callbacks. */
  predicate OfQueue(step: Step) {
    step.Emits? || step.Dequeue? || step.QrTimer? || step.QrDrawn? || step.QrFails? || step.EventDone?
  }

  /** Applying a connection change keeps what the invariant says about the fields. */
  lemma ConnectionKeepsInv(w: World, c: Option<Connection>)
    requires Inv(w)
    ensures Inv(w.(s := ApplyConnection(w.s, c)))
  {
  }

  /** The invariant does not look at the queue. */
  lemma QueueIsFree(w: World, after: World)
    requires Inv(w) && after.s == w.s && after.calls == w.calls
    ensures Inv(after)
  {
  }

  lemma QueueStepKeepsInv(w: World, step: Step)
    requires Inv(w) && OfQueue(step)
    ensures Inv(Apply(w, step))
  {
    var after := Apply(w, step);
    if step.Dequeue? && Enabled(w, step) && w.queue[0].OnUpdate? && w.queue[0].g == w.s.generation && !w.queue[0].u.qr {
      ConnectionKeepsInv(w, w.queue[0].u.connection);
      QueueIsFree(w.(s := ApplyConnection(w.s, w.queue[0].u.connection)), after);
    } else if step.EventDone? && Enabled(w, step) && w.running.value.QrReported? {
      ConnectionKeepsInv(w, w.running.value.u.connection);
      QueueIsFree(w.(s := ApplyConnection(w.s, w.running.value.u.connection)), after);
    }
  }

  lemma UserStepKeepsInv(w: World, step: Step)
    requires Inv(w) && !OfCall(step) && !OfQueue(step)
    ensures Inv(Apply(w, step))
  {
  }

  lemma StepKeepsInv(w: World, step: Step)
    requires Inv(w)
    ensures Inv(Apply(w, step))
  {
    if OfCall(step) { CallStepKeepsInv(w, step); }
    else if OfQueue(step) { QueueStepKeepsInv(w, step); }
    else { UserStepKeepsInv(w, step); }
  }

  lemma {:induction false} RunKeepsInv(w: World, steps: seq<Step>)
    requires Inv(w)
    ensures Inv(Run(w, steps))
    decreases |steps|
  {
    if steps != [] {
      StepKeepsInv(w, steps[0]);
      RunKeepsInv(Apply(w, steps[0]), steps[1..]);
    }
  }

  /** After stop, logout or a remote logout nothing reconnects the session until someone calls connect. */
  lemma {:induction false} StaysDisconnected(w: World, steps: seq<Step>)
    requires Inv(w) && !w.s.autoReconnect
    requires forall step :: step in steps ==> !step.UserConnects?
    ensures !Run(w, steps).s.autoReconnect && Idle(Run(w, steps).s)
    decreases |steps|
  {
    if steps != [] {
      assert steps[0] in steps;
      StepKeepsInv(w, steps[0]);
      StaysDisconnected(Apply(w, steps[0]), steps[1..]);
    }
  }

  lemma StoppedStaysDown(w: World, request: Step, steps: seq<Step>)
    requires Inv(w) && (request.UserStops? || request.UserLogsOut?)
    requires forall step :: step in steps ==> !step.UserConnects?
    ensures Idle(Run(Apply(w, request), steps).s)
  {
    StepKeepsInv(w, request);
    StaysDisconnected(Apply(w, request), steps);
  }

  predicate SingleKind(u: Update) {
    !(u.qr && u.connection.Some?)
  }

  // ---------------------------------------------------------------- the live socket

  predicate FromWired(w: World, g: Generation, u: Update) {
    g in w.wired && SingleKind(u)
  }

  predicate UpdatesAreWired(w: World) {
    && (forall i :: 0 <= i < |w.queue| && w.queue[i].OnUpdate? ==> FromWired(w, w.queue[i].g, w.queue[i].u))
    && (w.running.Some? && !w.running.value.Reported? ==>
          FromWired(w, w.running.value.g, w.running.value.u) && w.running.value.u.qr)
  }

  /** The socket of the present generation, once it has handlers, is the current one. */
  predicate WiredIsCurrent(w: World) {
    && (forall g :: g in w.wired ==> g <= w.s.generation)
    && (w.s.generation in w.wired ==> w.s.socket == Some(w.s.generation)
                                      && !InPhase(w, w.s.generation, Opening) && !InPhase(w, w.s.generation, Rejected))
    && (forall g :: g in w.calls ==> g <= w.s.generation)
  }

  /** An online session with a socket has the socket of its own generation, so send never uses an older one. */
  predicate SocketIsLive(s: Session) {
    Connected(s) ==> s.socket == Some(s.generation)
  }

  predicate LiveInv(w: World) {
    UpdatesAreWired(w) && WiredIsCurrent(w) && SocketIsLive(w.s)
  }

  predicate Plain(step: Step) {
    step.Emits? ==> SingleKind(step.u)
  }

  lemma CallStepKeepsLive(w: World, step: Step)
    requires LiveInv(w) && OfCall(step)
    ensures LiveInv(Apply(w, step))
  {
  }

  lemma QueueStepKeepsLive(w: World, step: Step)
    requires LiveInv(w) && Plain(step) && OfQueue(step)
    ensures LiveInv(Apply(w, step))
  {
  }

  lemma StepKeepsLive(w: World, step: Step)
    requires LiveInv(w) && Plain(step)
    ensures LiveInv(Apply(w, step))
  {
    if OfCall(step) {
      CallStepKeepsLive(w, step);
    } else if OfQueue(step) {
      QueueStepKeepsLive(w, step);
    }
  }

  lemma {:induction false} RunKeepsLive(w: World, steps: seq<Step>)
    requires LiveInv(w) && forall step :: step in steps ==> Plain(step)
    ensures LiveInv(Run(w, steps))
    decreases |steps|
  {
    if steps != [] {
      assert steps[0] in steps;
      StepKeepsLive(w, steps[0]);
      RunKeepsLive(Apply(w, steps[0]), steps[1..]);
    }
  }

  /** From a new session on: no interleaving of single-kind updates lets send use a socket of an older generation. */
  lemma SendUsesTheLiveSocket(steps: seq<Step>)
    requires forall step :: step in steps ==> Plain(step)
    ensures SocketIsLive(Run(START, steps).s)
  {
    RunKeepsLive(START, steps);
  }

  // ---------------------------------------------------------------- superseded generations

  /** The next segment of a queued callback belongs to a generation that is no longer the present one. */
  predicate Superseded(w: World, step: Step) {
    && Enabled(w, step)
    && match step
       case Dequeue(_) => w.queue[0].g != w.s.generation
       case QrDrawn(_) => w.running.value.g != w.s.generation
       case QrFails => w.running.value.g != w.s.generation
       case EventDone => w.running.value.QrReported? && w.running.value.g != w.s.generation
       case _ => false
  }

  predicate Silent(w: World, step: Step) {
    Apply(w, step).s == w.s
  }

  /** In every run whose updates carry a code or a connection change, but not both, superseded callbacks are silent. */
  lemma SupersededIsSilent(steps: seq<Step>, step: Step)
    requires (forall x :: x in steps ==> Plain(x)) && Superseded(Run(START, steps), step)
    ensures Silent(Run(START, steps), step)
  {
    RunKeepsLive(START, steps);
  }

  /** All updates of the run are this one. */
  predicate Carries(steps: seq<Step>, u: Update) {
    forall x :: x in steps && x.Emits? ==> x.u == u
  }

  /** From a new session on, no segment of a superseded callback for this update does anything. */
  ghost predicate NeverSpeaksLate(u: Update) {
    forall steps, step :: Carries(steps, u) && Superseded(Run(START, steps), step) ==> Silent(Run(START, steps), step)
  }

  /** While its code is being reported, the session is stopped. */
  function StopWhileReporting(u: Update): seq<Step> {
    [UserConnects(0), SocketArrives(1, 0), FinallyRuns(1), Emits(1, u), Dequeue(0), QrDrawn(60), UserStops]
  }

  lemma RunFirst(w: World, step: Step, rest: seq<Step>)
    ensures Run(w, [step] + rest) == Run(Apply(w, step), rest)
  {
    assert ([step] + rest)[1..] == rest;
  }

  /** A first connection with its socket and handlers in place. */
  const WIRED := World(FRESH.(state := Connecting, socket := Some(1), generation := 1, autoReconnect := true),
                       map[], {1}, [], None, 0)
  const CONNECT := [UserConnects(0), SocketArrives(1, 0), FinallyRuns(1)]

  lemma ConnectWires(rest: seq<Step>)
    ensures Run(START, CONNECT + rest) == Run(WIRED, rest)
  {
    var w1 := Apply(START, CONNECT[0]);
    var w2 := Apply(w1, CONNECT[1]);
    assert Apply(w2, CONNECT[2]) == WIRED;
    assert CONNECT + rest == [CONNECT[0]] + ([CONNECT[1]] + ([CONNECT[2]] + rest));
    RunFirst(START, CONNECT[0], [CONNECT[1]] + ([CONNECT[2]] + rest));
    RunFirst(w1, CONNECT[1], [CONNECT[2]] + rest);
    RunFirst(w2, CONNECT[2], rest);
  }

  function WhileReporting(u: Update): World {
    WIRED.(s := ShowQr(WIRED.s, 1, 60), running := Some(QrReported(1, u)))
  }

  lemma ReportsCode(u: Update, rest: seq<Step>)
    requires u.qr
    ensures Run(WIRED, [Emits(1, u), Dequeue(0), QrDrawn(60)] + rest) == Run(WhileReporting(u), rest)
  {
    var steps := [Emits(1, u), Dequeue(0), QrDrawn(60)];
    var w1 := Apply(WIRED, steps[0]);
    var w2 := Apply(w1, steps[1]);
    assert w2 == WIRED.(running := Some(DrawingQr(1, u)));
    assert Apply(w2, steps[2]) == WhileReporting(u);
    assert steps + rest == [steps[0]] + ([steps[1]] + ([steps[2]] + rest));
    RunFirst(WIRED, steps[0], [steps[1]] + ([steps[2]] + rest));
    RunFirst(w1, steps[1], [steps[2]] + rest);
    RunFirst(w2, steps[2], rest);
  }

  /** A combined update whose code was still being reported acts on the stopped session. */
  lemma CombinedSpeaksLate(u: Update)
    requires !SingleKind(u)
    ensures Superseded(Run(START, StopWhileReporting(u)), EventDone)
    ensures !Silent(Run(START, StopWhileReporting(u)), EventDone)
  {
    var report := [Emits(1, u), Dequeue(0), QrDrawn(60)];
    assert StopWhileReporting(u) == CONNECT + (report + [UserStops]);
    ConnectWires(report + [UserStops]);
    ReportsCode(u, [UserStops]);
    assert [UserStops] == [UserStops] + [];
    RunFirst(WhileReporting(u), UserStops, []);
  }

  /**
   Callbacks of a superseded generation are silent in every run exactly when the update does not carry both a
   code and a connection change: the segment after the report does not look at the generation again.
   */
  lemma SilentIffSingleKind(u: Update)
    ensures NeverSpeaksLate(u) <==> SingleKind(u)
  {
    if SingleKind(u) {
      forall steps, step | Carries(steps, u) && Superseded(Run(START, steps), step) ensures Silent(Run(START, steps), step)
      {
        SupersededIsSilent(steps, step);
      }
    } else {
      CombinedSpeaksLate(u);
      assert Carries(StopWhileReporting(u), u);
    }
  }

  // ---------------------------------------------------------------- superseded connect calls

  /** A segment of a connect call that a later call, a close, a stop or a logout has superseded. */
  predicate SupersededCall(w: World, step: Step) {
    OfCall(step) && Enabled(w, step) && step.g != w.s.generation
  }

  /** The error report is done and the session wants to be connected, or a code has expired when the socket comes. */
  predicate CallActs(w: World, step: Step) {
    || (step.ErrorEventDone? && w.s.autoReconnect && !w.s.reconnectTimer && !w.s.state.LoggedOut?)
    || (step.SocketArrives? && w.s.qr.Some? && w.s.qr.value <= step.now)
  }

  /**
   A superseded connect call leaves the session alone exactly when it neither notices an expired code nor, after
   reporting its error, finds a session without a timer that wants one: that segment does not look at the generation.
   */
  lemma SupersededCallIsSilentIff(w: World, step: Step)
    requires Inv(w) && SupersededCall(w, step)
    ensures Silent(w, step) <==> !CallActs(w, step)
  {
  }

  const LATE_ERROR := [UserConnects(0), SocketFails(1), CatchRuns(1), UserStops, UserConnects(0), ErrorEventDone(1)]
  const THEN := [SocketArrives(3, 0), FinallyRuns(3), ReconnectTimer(0)]

  const FAILED := World(FRESH.(state := InError, promise := Some(1), generation := 1, autoReconnect := true),
                        map[1 := Reporting], {}, [], None, 0)
  const RESTARTED := World(FRESH.(state := Connecting, promise := Some(3), generation := 3, autoReconnect := true),
                           map[1 := Reporting, 3 := Opening], {}, [], None, 0)

  lemma ConnectFails(rest: seq<Step>)
    ensures Run(START, [UserConnects(0), SocketFails(1), CatchRuns(1)] + rest) == Run(FAILED, rest)
  {
    var w1 := Apply(START, UserConnects(0));
    var w2 := Apply(w1, SocketFails(1));
    assert Apply(w2, CatchRuns(1)) == FAILED;
    var steps := [UserConnects(0), SocketFails(1), CatchRuns(1)];
    assert steps + rest == [UserConnects(0)] + ([SocketFails(1)] + ([CatchRuns(1)] + rest));
    RunFirst(START, UserConnects(0), [SocketFails(1)] + ([CatchRuns(1)] + rest));
    RunFirst(w1, SocketFails(1), [CatchRuns(1)] + rest);
    RunFirst(w2, CatchRuns(1), rest);
  }

  lemma StopsAndConnects(rest: seq<Step>)
    ensures Run(FAILED, [UserStops, UserConnects(0)] + rest) == Run(RESTARTED, rest)
  {
    var w1 := Apply(FAILED, UserStops);
    assert Apply(w1, UserConnects(0)) == RESTARTED;
    assert [UserStops, UserConnects(0)] + rest == [UserStops] + ([UserConnects(0)] + rest);
    RunFirst(FAILED, UserStops, [UserConnects(0)] + rest);
    RunFirst(w1, UserConnects(0), rest);
  }

  lemma {:induction false} RunConcat(w: World, a: seq<Step>, b: seq<Step>)
    ensures Run(w, a + b) == Run(Run(w, a), b)
    decreases |a|
  {
    if a == [] {
      assert a + b == b;
    } else {
      assert (a + b)[1..] == a[1..] + b;
      RunConcat(Apply(w, a[0]), a[1..], b);
    }
  }

  lemma TimerSupersedes(w: World)
    requires w.s == RESTARTED.s.(reconnectTimer := true, reconnectAttempt := w.s.reconnectAttempt) && InPhase(w, 3, Opening)
    ensures var after := Run(w, THEN).s; after.generation == 4 && after.socket == Some(3)
  {
    var w1 := Apply(w, THEN[0]);
    var w2 := Apply(w1, THEN[1]);
    var w3 := Apply(w2, THEN[2]);
    assert w2.s.socket == Some(3) && w2.s.promise.None? && w3.s.generation == 4;
    assert THEN == [THEN[0]] + ([THEN[1]] + ([THEN[2]] + []));
    RunFirst(w, THEN[0], [THEN[1]] + ([THEN[2]] + []));
    RunFirst(w1, THEN[1], [THEN[2]] + []);
    RunFirst(w2, THEN[2], []);
  }

  lemma LateErrorIsReached()
    ensures Run(START, LATE_ERROR) == Apply(RESTARTED, ErrorEventDone(1))
  {
    var late := [ErrorEventDone(1)];
    assert LATE_ERROR == [UserConnects(0), SocketFails(1), CatchRuns(1)] + ([UserStops, UserConnects(0)] + late);
    ConnectFails([UserStops, UserConnects(0)] + late);
    StopsAndConnects(late);
    assert late == late + [];
    RunFirst(RESTARTED, ErrorEventDone(1), []);
  }

  /**
   From a new session: the first call fails, the session is stopped and connected again, and the late error report
   of the first call sets a timer, which, fired while the new socket waits for its code to be scanned, supersedes it.
   */
  lemma LateErrorSupersedes()
    ensures SupersededCall(RESTARTED, ErrorEventDone(1)) && Run(START, LATE_ERROR) == Apply(RESTARTED, ErrorEventDone(1))
    ensures Run(START, LATE_ERROR).s.reconnectTimer
    ensures var after := Run(START, LATE_ERROR + THEN).s; after.generation == 4 && after.socket == Some(3)
  {
    LateErrorIsReached();
    RunConcat(START, LATE_ERROR, THEN);
    TimerSupersedes(Apply(RESTARTED, ErrorEventDone(1)));
  }

  // ---------------------------------------------------------------- logout waits for its socket

  /** Nothing the window of a waiting logout excludes: a new connect, another stop or logout, the end of the wait. */
  predicate InWindow(step: Step) {
    Plain(step) && !step.UserConnects? && !step.UserStops? && !step.UserLogsOut? && !step.LogoutDone?
  }

  /** What holds throughout the window. */
  predicate Suspended(w: World) {
    && Inv(w) && LiveInv(w) && w.s.state.Online? && !w.s.autoReconnect && w.s.qr.None?
    && w.s.generation !in w.wired && w.s.generation !in w.calls
  }

  lemma StepStaysSuspended(w: World, step: Step)
    requires Suspended(w) && InWindow(step)
    ensures Suspended(Apply(w, step))
  {
    StepKeepsInv(w, step);
    StepKeepsLive(w, step);
    SuspendedStep(w, step);
  }

  lemma SuspendedStep(w: World, step: Step)
    requires Suspended(w) && InWindow(step)
    ensures Apply(w, step).s == w.s.(qrTimer := Apply(w, step).s.qrTimer)
    ensures w.s.generation !in Apply(w, step).wired && w.s.generation !in Apply(w, step).calls
  {
  }

  /**
   While logout waits for its socket an online session stays online in name, for the whole of the wait, without
   a socket to send through and without anything that could bring one.
   */
  lemma {:induction false} StaysSuspended(w: World, steps: seq<Step>)
    requires Suspended(w) && forall step :: step in steps ==> InWindow(step)
    ensures Suspended(Run(w, steps))
    decreases |steps|
  {
    if steps != [] {
      assert steps[0] in steps;
      StepStaysSuspended(w, steps[0]);
      StaysSuspended(Apply(w, steps[0]), steps[1..]);
    }
  }

  lemma LogoutWindow(w: World, steps: seq<Step>)
    requires Inv(w) && LiveInv(w) && Connected(w.s)
    requires forall step :: step in steps ==> InWindow(step)
    ensures var after := Run(Apply(w, UserLogsOut), steps).s;
            after.state.Online? && Idle(after) && !Connected(after) && !after.autoReconnect
  {
    StepKeepsInv(w, UserLogsOut);
    StepKeepsLive(w, UserLogsOut);
    StaysSuspended(Apply(w, UserLogsOut), steps);
  }

  // ---------------------------------------------------------------- where a waiting logout lands

  /** The session says logged out and has a current socket. */
  predicate Torn(w: World) {
    w.s.state.LoggedOut? && w.s.socket.Some?
  }

  /** A connect is on its way, or can still come from the reconnect timer. */
  predicate Stirring(w: World) {
    || w.s.socket.Some?
    || InPhase(w, w.s.generation, Opening) || InPhase(w, w.s.generation, Rejected)
    || (w.s.autoReconnect && !w.s.state.LoggedOut? && (w.s.reconnectTimer || exists g :: g in w.calls && w.calls[g].Reporting?))
  }

  predicate Quiet(step: Step) {
    Plain(step) && !step.UserConnects?
  }

  lemma StepStaysStill(w: World, step: Step)
    requires Inv(w) && LiveInv(w) && !Stirring(w) && Quiet(step)
    ensures !Stirring(Apply(w, step))
  {
    if OfCall(step) { CallStaysStill(w, step); }
    else if OfQueue(step) { QueueStaysStill(w, step); }
  }

  lemma CallStaysStill(w: World, step: Step)
    requires Inv(w) && !Stirring(w) && OfCall(step)
    ensures !Stirring(Apply(w, step))
  {
  }

  /** Without a current socket every queued callback is superseded. */
  lemma QueueStaysStill(w: World, step: Step)
    requires Inv(w) && LiveInv(w) && !Stirring(w) && Quiet(step) && OfQueue(step)
    ensures !Stirring(Apply(w, step))
  {
    assert w.s.generation !in w.wired;
    var after := Apply(w, step);
    assert after.calls == w.calls && after.s.socket.None? && after.s.generation == w.s.generation;
    assert after.s.autoReconnect == w.s.autoReconnect && after.s.reconnectTimer == w.s.reconnectTimer;
    assert w.s.state.LoggedOut? ==> after.s.state.LoggedOut?;
  }

  lemma {:induction false} RunStaysStill(w: World, steps: seq<Step>)
    requires Inv(w) && LiveInv(w) && !Stirring(w) && forall step :: step in steps ==> Quiet(step)
    ensures !Torn(Run(w, steps))
    decreases |steps|
  {
    if steps != [] {
      assert steps[0] in steps;
      StepKeepsInv(w, steps[0]);
      StepKeepsLive(w, steps[0]);
      StepStaysStill(w, steps[0]);
      RunStaysStill(Apply(w, steps[0]), steps[1..]);
    }
  }

  /** A socket that is there, or arrives for the present call, is current when the logout lands. */
  lemma SocketThenLogout(w: World)
    requires w.logouts > 0 && (w.s.socket.Some? || InPhase(w, w.s.generation, Opening))
    ensures Torn(Run(w, [SocketArrives(w.s.generation, 0), LogoutDone])) || Torn(Run(w, [LogoutDone]))
  {
    var arrive := SocketArrives(w.s.generation, 0);
    if w.s.socket.Some? {
      RunFirst(w, LogoutDone, []);
      assert [LogoutDone] + [] == [LogoutDone];
    } else {
      assert [arrive] + ([LogoutDone] + []) == [arrive, LogoutDone];
      RunFirst(w, arrive, [LogoutDone] + []);
      RunFirst(Apply(w, arrive), LogoutDone, []);
    }
  }

  ghost predicate CanTear(w: World) {
    exists steps :: (forall step :: step in steps ==> Quiet(step)) && Torn(Run(w, steps))
  }

  lemma TearsAt(w: World, steps: seq<Step>)
    requires (forall step :: step in steps ==> Quiet(step)) && Torn(Run(w, steps))
    ensures CanTear(w)
  {
  }

  lemma TearsLater(w: World, step: Step)
    requires Quiet(step) && CanTear(Apply(w, step))
    ensures CanTear(w)
  {
    var rest :| (forall x :: x in rest ==> Quiet(x)) && Torn(Run(Apply(w, step), rest));
    RunFirst(w, step, rest);
    TearsAt(w, [step] + rest);
  }

  lemma NearSocketTears(w: World)
    requires w.logouts > 0 && (w.s.socket.Some? || InPhase(w, w.s.generation, Opening))
    ensures CanTear(w)
  {
    SocketThenLogout(w);
    if Torn(Run(w, [LogoutDone])) { TearsAt(w, [LogoutDone]); }
    else { TearsAt(w, [SocketArrives(w.s.generation, 0), LogoutDone]); }
  }

  /** A pending timer, once the call before it has settled, starts a connect. */
  lemma TimerTears(w: World)
    requires Inv(w) && w.logouts > 0 && w.s.autoReconnect && !w.s.state.LoggedOut? && w.s.reconnectTimer
    requires w.s.socket.None? && !InPhase(w, w.s.generation, Opening) && !InPhase(w, w.s.generation, Rejected)
    ensures CanTear(w)
    decreases if w.s.promise.None? then 0 else if InPhase(w, w.s.generation, Reporting) then 2 else 1
  {
    var g := w.s.generation;
    if w.s.promise.None? {
      NearSocketTears(Apply(w, ReconnectTimer(0)));
      TearsLater(w, ReconnectTimer(0));
    } else if InPhase(w, g, Reporting) {
      StepKeepsInv(w, ErrorEventDone(g));
      TimerTears(Apply(w, ErrorEventDone(g)));
      TearsLater(w, ErrorEventDone(g));
    } else {
      assert InPhase(w, g, Settling);
      StepKeepsInv(w, FinallyRuns(g));
      TimerTears(Apply(w, FinallyRuns(g)));
      TearsLater(w, FinallyRuns(g));
    }
  }

  lemma ReportingTears(w: World, g: Generation)
    requires Inv(w) && w.logouts > 0 && w.s.autoReconnect && !w.s.state.LoggedOut? && InPhase(w, g, Reporting)
    requires w.s.socket.None? && !InPhase(w, w.s.generation, Opening) && !InPhase(w, w.s.generation, Rejected)
    ensures CanTear(w)
  {
    StepKeepsInv(w, ErrorEventDone(g));
    TimerTears(Apply(w, ErrorEventDone(g)));
    TearsLater(w, ErrorEventDone(g));
  }

  lemma RejectedTears(w: World)
    requires Inv(w) && w.logouts > 0 && InPhase(w, w.s.generation, Rejected) && w.s.socket.None?
    ensures CanTear(w)
  {
    var g := w.s.generation;
    StepKeepsInv(w, CatchRuns(g));
    ReportingTears(Apply(w, CatchRuns(g)), g);
    TearsLater(w, CatchRuns(g));
  }

  /**
   A waiting logout can land on a session with a current socket, without anyone calling connect again, exactly
   when the session has a socket or a connect is still stirring: from all other worlds it lands clean.
   */
  lemma LogoutTearsIff(w: World)
    requires Inv(w) && LiveInv(w) && w.logouts > 0
    ensures CanTear(w) <==> Stirring(w)
  {
    if Stirring(w) {
      if w.s.socket.Some? || InPhase(w, w.s.generation, Opening) { NearSocketTears(w); }
      else if InPhase(w, w.s.generation, Rejected) { RejectedTears(w); }
      else if w.s.reconnectTimer { TimerTears(w); }
      else {
        var g :| g in w.calls && w.calls[g].Reporting?;
        ReportingTears(w, g);
      }
    } else if CanTear(w) {
      var steps :| (forall step :: step in steps ==> Quiet(step)) && Torn(Run(w, steps));
      RunStaysStill(w, steps);
    }
  }

  const GO_ONLINE := [Emits(1, Update(false, Some(IsOpen))), Dequeue(0), EventDone]
  const ONLINE := WIRED.(s := WIRED.s.(state := Online))
  const RACE := [UserLogsOut, UserConnects(0), SocketArrives(3, 0), LogoutDone]

  lemma GoesOnline(rest: seq<Step>)
    ensures Run(START, CONNECT + (GO_ONLINE + rest)) == Run(ONLINE, rest)
  {
    ConnectWires(GO_ONLINE + rest);
    var w1 := Apply(WIRED, GO_ONLINE[0]);
    var w2 := Apply(w1, GO_ONLINE[1]);
    assert Apply(w2, GO_ONLINE[2]) == ONLINE;
    assert GO_ONLINE + rest == [GO_ONLINE[0]] + ([GO_ONLINE[1]] + ([GO_ONLINE[2]] + rest));
    RunFirst(WIRED, GO_ONLINE[0], [GO_ONLINE[1]] + ([GO_ONLINE[2]] + rest));
    RunFirst(w1, GO_ONLINE[1], [GO_ONLINE[2]] + rest);
    RunFirst(w2, GO_ONLINE[2], rest);
  }

  const LOGGING_OUT := ONLINE.(s := Retired(ONLINE.s), logouts := 1)
  const RECONNECTING := LOGGING_OUT.(s := Connect(LOGGING_OUT.s, false, 0), calls := map[3 := Opening])

  lemma LogsOutAndReconnects()
    ensures Apply(ONLINE, UserLogsOut) == LOGGING_OUT && Apply(LOGGING_OUT, UserConnects(0)) == RECONNECTING
  {
  }

  lemma ReconnectLandsTorn()
    ensures Torn(Run(RECONNECTING, [SocketArrives(3, 0), LogoutDone]))
  {
    var w := Apply(RECONNECTING, SocketArrives(3, 0));
    assert w.s.socket == Some(3) && w.logouts == 1;
    assert [SocketArrives(3, 0), LogoutDone] == [SocketArrives(3, 0)] + ([LogoutDone] + []);
    RunFirst(RECONNECTING, SocketArrives(3, 0), [LogoutDone] + []);
    RunFirst(w, LogoutDone, []);
  }

  /** From a new session: connect, go online, log out, and connect again before the logout is done. */
  lemma ConnectDuringLogout()
    ensures Torn(Run(START, CONNECT + (GO_ONLINE + RACE)))
  {
    GoesOnline(RACE);
    LogsOutAndReconnects();
    ReconnectLandsTorn();
    var last := [SocketArrives(3, 0), LogoutDone];
    assert RACE == [UserLogsOut] + ([UserConnects(0)] + last);
    RunFirst(ONLINE, UserLogsOut, [UserConnects(0)] + last);
    RunFirst(LOGGING_OUT, UserConnects(0), last);
  }
}
