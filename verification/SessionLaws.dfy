/** What a session makes of what happens to its connection, and that one that wants to be connected never gives up. */
module SessionLaws {
  import opened Base
  import opened Session
  import opened SessionProperties

  // ---------------------------------------------------------------- never giving up

  /** A session that wants to be connected has a socket, a call under way or a timer, unless it is logged out. */
  predicate Hopeful(s: Session) {
    s.autoReconnect ==> s.socket.Some? || s.promise.Some? || s.reconnectTimer || s.state == LoggedOut
  }

  /** The call of the present generation holds the promise, and leaves a socket or a timer behind when it settles. */
  predicate HopeInv(w: World) {
    && Inv(w) && LiveInv(w) && Hopeful(w.s)
    && (w.s.generation in w.calls ==> w.s.promise == Some(w.s.generation))
    && (InPhase(w, w.s.generation, Settling) ==> w.s.socket.Some? || w.s.reconnectTimer || w.s.state == LoggedOut)
  }

  /** No timer fires between the catch block and the finally block of the present call, which run at once. */
  predicate InTurn(w: World, step: Step) {
    Plain(step) && (step.ReconnectTimer? ==> !InPhase(w, w.s.generation, Settling))
  }

  predicate AllInTurn(w: World, steps: seq<Step>)
    decreases |steps|
  {
    steps == [] || (InTurn(w, steps[0]) && AllInTurn(Apply(w, steps[0]), steps[1..]))
  }

  lemma CallStepKeepsHope(w: World, step: Step)
    requires HopeInv(w) && OfCall(step)
    ensures HopeInv(Apply(w, step))
  {
    StepKeepsInv(w, step);
    StepKeepsLive(w, step);
  }

  lemma QueueStepKeepsHope(w: World, step: Step)
    requires HopeInv(w) && InTurn(w, step) && OfQueue(step)
    ensures HopeInv(Apply(w, step))
  {
    StepKeepsInv(w, step);
    StepKeepsLive(w, step);
  }

  lemma UserStepKeepsHope(w: World, step: Step)
    requires HopeInv(w) && InTurn(w, step) && !OfCall(step) && !OfQueue(step)
    ensures HopeInv(Apply(w, step))
  {
    StepKeepsInv(w, step);
    StepKeepsLive(w, step);
  }

  lemma {:induction false} RunKeepsHope(w: World, steps: seq<Step>)
    requires HopeInv(w) && AllInTurn(w, steps)
    ensures HopeInv(Run(w, steps))
    decreases |steps|
  {
    if steps != [] {
      if OfCall(steps[0]) { CallStepKeepsHope(w, steps[0]); }
      else if OfQueue(steps[0]) { QueueStepKeepsHope(w, steps[0]); }
      else { UserStepKeepsHope(w, steps[0]); }
      RunKeepsHope(Apply(w, steps[0]), steps[1..]);
    }
  }

  /**
   From a new session on, whatever fails, closes or is superseded: as long as nobody stops the session or logs it out
   it is connected, connecting, or going to try again.
   */
  lemma NeverGivesUp(steps: seq<Step>)
    requires AllInTurn(START, steps)
    ensures Hopeful(Run(START, steps).s)
  {
    RunKeepsHope(START, steps);
  }

  /** Going to try again means it does: a timer that fires on an idle session opens the next connection. */
  lemma TimerTriesAgain(w: World, now: Time)
    requires w.s.reconnectTimer && w.s.autoReconnect && w.s.state != LoggedOut && !Connected(w.s) && w.s.promise.None?
    ensures var after := Apply(w, ReconnectTimer(now));
            && after.s.generation == w.s.generation + 1 && after.s.promise == Some(after.s.generation)
            && InPhase(after, after.s.generation, Opening) && after.s.state == Connecting && !after.s.reconnectTimer
            && after.s.autoReconnect && after.s.reconnectAttempt == w.s.reconnectAttempt
  {
  }

  // ---------------------------------------------------------------- counting attempts

  /** The step makes the session start over: a fresh connect by the user, an open connection, a stop or a logout. */
  predicate StartsOver(w: World, step: Step) {
    || (step.UserConnects? && Starts(w.s)) || step.UserStops? || step.UserLogsOut?
    || (step.Dequeue? && Enabled(w, step) && w.queue[0].OnUpdate? && w.queue[0].g == w.s.generation && !w.queue[0].u.qr
        && w.queue[0].u.connection == Some(IsOpen))
  }

  /** The attempt count goes up by one with each timer that is set, and is zero after each new start. */
  lemma AttemptsAreCounted(w: World, step: Step)
    requires LiveInv(w) && Plain(step)
    ensures var (s, t) := (w.s, Apply(w, step).s);
            t.reconnectAttempt == if StartsOver(w, step) then 0
                                  else if !s.reconnectTimer && t.reconnectTimer then s.reconnectAttempt + 1
                                  else s.reconnectAttempt
  {
  }

  // ---------------------------------------------------------------- what each event shows

  /** The head of the queue is a connection change of the present generation, and no other callback is running. */
  predicate Changes(w: World, c: Connection) {
    && w.running.None? && w.queue != [] && w.queue[0].OnUpdate? && w.queue[0].g == w.s.generation
    && w.queue[0].u == Update(false, Some(c))
  }

  /** An open connection is online with its own socket; the code, the timer and the attempts are gone. */
  lemma OpenIsOnline(w: World, now: Time)
    requires LiveInv(w) && Changes(w, IsOpen)
    ensures var s := Apply(w, Dequeue(now)).s;
            && Connected(s) && s.state == Online && s.socket == Some(s.generation) && s.generation == w.s.generation
            && s.qr == None && s.qrTimer == None && !s.reconnectTimer && s.reconnectAttempt == 0
            && s.autoReconnect == w.s.autoReconnect
  {
  }

  /** A closed one is offline and will be tried again, or, when the phone logged it out, is logged out for good. */
  lemma CloseIsOffline(w: World, loggedOut: bool, now: Time)
    requires Inv(w) && Changes(w, IsClosed(loggedOut))
    ensures var s := Apply(w, Dequeue(now)).s;
            && s.socket == None && s.promise == None && s.qr == None && s.qrTimer == None
            && s.generation == w.s.generation + 1
            && s.state == (if loggedOut then LoggedOut else Offline)
            && s.autoReconnect == (!loggedOut && w.s.autoReconnect) && s.reconnectTimer == s.autoReconnect
  {
  }

  /** A connection in progress is shown unless a code is. */
  lemma ProgressIsShown(w: World, now: Time)
    requires Changes(w, IsConnecting)
    ensures Apply(w, Dequeue(now)).s == if w.s.qr == None then w.s.(state := Connecting) else w.s
  {
  }

  /** A code drawn for the present generation is shown until it expires; one for an older generation never is. */
  lemma CodeIsShown(w: World, expiresAt: Time)
    requires w.running.Some? && w.running.value.DrawingQr?
    ensures var (s, g) := (Apply(w, QrDrawn(expiresAt)).s, w.running.value.g);
            if g == w.s.generation
            then s == w.s.(state := QrPending, qr := Some(expiresAt), qrExpired := false, qrTimer := Some(g)) else s == w.s
  {
  }

  /** Looking at the session takes an expired code away, and the pending state with it, and changes nothing else. */
  lemma ExpiredCodeIsGone(w: World, now: Time)
    ensures var s := Apply(w, Looks(now)).s;
            if w.s.qr.Some? && w.s.qr.value <= now
            then s == w.s.(qr := None, qrTimer := None, qrExpired := true,
                           state := if w.s.state == QrPending then Offline else w.s.state)
            else s == w.s
  {
  }

  /** So does its timer, for the generation it was set for. */
  lemma CodeTimerExpires(w: World, g: Generation, now: Time)
    requires w.running.None? && w.queue != [] && w.queue[0] == OnQrTimer(g)
    ensures var s := Apply(w, Dequeue(now)).s;
            if g == w.s.generation && w.s.qr.Some? && w.s.qr.value <= now
            then s == w.s.(qr := None, qrExpired := true, state := if w.s.state == QrPending then Offline else w.s.state)
            else s == w.s
  {
  }

  /** A failed call shows its error if it is still the present one, and then sets the timer. */
  lemma FailureIsShown(w: World)
    requires Inv(w) && InPhase(w, w.s.generation, Rejected)
    ensures var mid := Apply(w, CatchRuns(w.s.generation)); var after := Apply(mid, ErrorEventDone(w.s.generation));
            && mid.s == w.s.(state := InError, socket := None) && InPhase(mid, w.s.generation, Reporting)
            && after.s.state == InError && after.s.reconnectTimer && InPhase(after, w.s.generation, Settling)
            && after.s.reconnectAttempt == (if w.s.reconnectTimer then w.s.reconnectAttempt else w.s.reconnectAttempt + 1)
  {
  }

  /** A connect by the user starts the next generation from scratch, unless one is there or under way. */
  lemma ConnectStarts(w: World, now: Time)
    requires !Connected(w.s) && w.s.promise.None?
    ensures var s := Apply(w, UserConnects(now)).s;
            s == w.s.(state := Connecting, generation := w.s.generation + 1, promise := Some(w.s.generation + 1), qr := None,
                      qrExpired := false, qrTimer := None, reconnectTimer := false, reconnectAttempt := 0,
                      autoReconnect := true)
  {
  }

  /** A stopped session is offline, and one logged out says so at once or when its socket has answered. */
  lemma StopIsOffline(w: World)
    ensures Apply(w, UserStops).s.state == Offline
    ensures Apply(w, UserLogsOut).s.state == if w.s.socket == None then LoggedOut else w.s.state
    ensures w.logouts > 0 ==> Apply(w, LogoutDone).s == w.s.(state := LoggedOut)
  {
  }
}
