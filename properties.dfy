/**
 * What the match logic guarantees over any run of its inputs: floor
 * contacts, double touches, timer expiries and snapshots, in any order.
 */
module MatchProperties {
  import opened Match

  /** One thing that can happen to a started match. */
  datatype Input =
    | ContactBegan(contact: Contact, ballPos: Point)   // a BeginContact notification, floor or not
    | Touch(ctrlIndex: int)                            // doubleTouch(ctrlIndex)
    | ServeTimeout(handle: Handle)                     // a serve timeout expiring, SERVE_TIMEOUT_MS after arming
    | LingerElapsed(playerNum: Player)                 // a linger callback expiring, LINGER_MS after the point
    | Snapshot                                         // getState()

  /**
   * The state after one input and the number of events it handed out.
   * A timer that is not pending does not fire, so its input changes nothing.
   */
  function Step(g: Geometry, s: State, i: Input): (State, nat)
  {
    match i
    case ContactBegan(c, pos) => (BeginContact(s, g, c, pos).0, 0)
    case Touch(c) => (DoubleTouch(s, c), 0)
    case ServeTimeout(h) =>
      if h in s.serveTimers then (FireServeTimeout(s, h), 0) else (s, 0)
    case LingerElapsed(p) =>
      if p in s.lingers && (forall h :: h in s.serveTimers ==> h < s.nextHandle)
      then (FireLinger(s, p), 0) else (s, 0)
    case Snapshot =>
      var (t, event) := GetState(s);
      (t, if event.Some? then |event.value| else 0)
  }

  /** The state after a run of inputs and the events the snapshots handed out. */
  function Run(g: Geometry, s: State, inputs: seq<Input>): (State, nat)
    decreases |inputs|
  {
    if inputs == [] then (s, 0)
    else
      var (t, d) := Step(g, s, inputs[0]);
      var (u, e) := Run(g, t, inputs[1..]);
      (u, d + e)
  }

  function Points(s: State): int
  {
    s.score[0] + s.score[1]
  }

  /** The facts StepKeepsInv states, for one pair of states and a count of delivered events. */
  predicate StepFacts(s: State, t: State, delivered: nat)
  {
    Inv(t) && ScoresGrow(s.score, t.score) && Points(t) - Points(s) == delivered + t.queued - s.queued
  }

  lemma ContactKeepsInv(g: Geometry, s: State, c: Contact, pos: Point)
    requires Inv(s)
    ensures StepFacts(s, BeginContact(s, g, c, pos).0, 0)
  {
    if IsFloorContact(g, c) && s.mode == InPlay && Scorer(g, pos).Some? {
      var p := Scorer(g, pos).value;
      var t := PointScored(s, p);
      assert t.score[Opponent(p)] == s.score[Opponent(p)];
      assert Points(t) == Points(s) + 1;
      assert t.lingers == multiset{p};
    }
  }

  lemma LingerKeepsInv(s: State, p: Player)
    requires Inv(s) && p in s.lingers
    ensures StepFacts(s, FireLinger(s, p), 0)
  {
    assert s.mode == Lingering;
    assert s.lingers - multiset{p} == multiset{} by {
      assert |s.lingers - multiset{p}| == |s.lingers| - 1 == 0;
    }
    var t := FireLinger(s, p);
    assert t.serveTimers == {s.nextHandle} && t.serveSlot == Some(s.nextHandle);
  }

  /**
   * One input keeps the timer discipline, lowers no score, and every point
   * it scores is either still queued or handed out.
   */
  lemma StepKeepsInv(g: Geometry, s: State, i: Input)
    requires Inv(s)
    ensures Inv(Step(g, s, i).0)
    ensures ScoresGrow(s.score, Step(g, s, i).0.score)
    ensures Points(Step(g, s, i).0) - Points(s) == Step(g, s, i).1 + Step(g, s, i).0.queued - s.queued
  {
    match i
    case ContactBegan(c, pos) => ContactKeepsInv(g, s, c, pos);
    case Touch(c) =>
    case ServeTimeout(h) =>
    case LingerElapsed(p) =>
      if p in s.lingers {
        LingerKeepsInv(s, p);
      }
    case Snapshot =>
  }

  /**
   * Any run from a started match keeps the timer discipline, never lowers
   * a score, and accounts for every point: each one is either still queued
   * or was handed out by exactly one snapshot.
   */
  lemma {:induction false} RunKeepsInv(g: Geometry, s: State, inputs: seq<Input>)
    requires Inv(s)
    ensures Inv(Run(g, s, inputs).0)
    ensures ScoresGrow(s.score, Run(g, s, inputs).0.score)
    ensures Points(Run(g, s, inputs).0) - Points(s) == Run(g, s, inputs).1 + Run(g, s, inputs).0.queued - s.queued
    decreases |inputs|
  {
    if inputs != [] {
      StepKeepsInv(g, s, inputs[0]);
      RunKeepsInv(g, Step(g, s, inputs[0]).0, inputs[1..]);
    }
  }

  /** Every match the constructor builds, whatever then happens, keeps the discipline and the accounting. */
  lemma NewMatchRun(g: Geometry, draw: real, inputs: seq<Input>)
    ensures Inv(Run(g, NewMatch(draw), inputs).0)
    ensures Run(g, NewMatch(draw), inputs).0.score[0] >= 0 && Run(g, NewMatch(draw), inputs).0.score[1] >= 0
    ensures Points(Run(g, NewMatch(draw), inputs).0) == Run(g, NewMatch(draw), inputs).1 + Run(g, NewMatch(draw), inputs).0.queued
  {
    RunKeepsInv(g, NewMatch(draw), inputs);
  }

  /** A second getState with nothing in between attaches no event. */
  lemma SecondSnapshotIsEmpty(s: State)
    ensures GetState(GetState(s).0).1 == None
    ensures GetState(GetState(s).0).0 == GetState(s).0
  {
  }

  /**
   * Because the queue holds the live score array, two points queued before
   * one snapshot are delivered as two identical events showing the later
   * score, not the score after each point. (The server, p, serves and the
   * second point goes to q.)
   */
  lemma EventsShowScoreAtDelivery(s: State, p: Player, q: Player)
    requires Inv(s) && s.mode == InPlay && s.queued == 0
    ensures
      var t := PointScored(DoubleTouch(FireLinger(PointScored(s, p), p), p), q);
      && t.queued == 2
      && GetState(t).1 == Some([t.score, t.score])
  {
    var t := PointScored(DoubleTouch(FireLinger(PointScored(s, p), p), p), q);
    assert GetState(t).1.value == [t.score, t.score];
  }

  /** In IN_PLAY, scoring then letting the linger time out hands the serve to the scorer. */
  lemma ScorerServesNext(s: State, p: Player)
    requires Inv(s) && s.mode == InPlay
    ensures PointScored(s, p).lingers == multiset{p}
    ensures FireLinger(PointScored(s, p), p).mode == Serving
    ensures FireLinger(PointScored(s, p), p).who == p
    ensures Inv(FireLinger(PointScored(s, p), p))
  {
  }

  /**
   * doubleTouch starts play exactly when the match is serving and the
   * touch comes from the server; afterwards no serve timeout is pending, so
   * none can start play a second time.
   */
  lemma DoubleTouchStartsPlay(g: Geometry, s: State, c: int)
    requires Inv(s)
    ensures (s.mode != InPlay && DoubleTouch(s, c).mode == InPlay) <==> (s.mode == Serving && s.who == c)
    ensures s.mode == Serving && s.who == c ==>
      forall h :: Step(g, DoubleTouch(s, c), ServeTimeout(h)).0 == DoubleTouch(s, c)
  {
  }

  /** No input re-arms a serve handle that was issued and is no longer pending. */
  lemma StepKeepsCleared(g: Geometry, s: State, h0: Handle, i: Input)
    requires h0 < s.nextHandle && h0 !in s.serveTimers
    ensures h0 < Step(g, s, i).0.nextHandle && h0 !in Step(g, s, i).0.serveTimers
  {
  }

  /**
   * A serve timeout that was cleared or has fired stays dead: over any later
   * run of inputs its handle is never pending again, so it never fires.
   */
  lemma {:induction false} ClearedStaysDead(g: Geometry, s: State, h0: Handle, inputs: seq<Input>)
    requires h0 < s.nextHandle && h0 !in s.serveTimers
    ensures h0 !in Run(g, s, inputs).0.serveTimers
    decreases |inputs|
  {
    if inputs != [] {
      StepKeepsCleared(g, s, h0, inputs[0]);
      ClearedStaysDead(g, Step(g, s, inputs[0]).0, h0, inputs[1..]);
    }
  }

  /**
   * The serve timeout a touch from the server clears never fires, whatever
   * the match does afterwards.
   */
  lemma TouchedTimerNeverFires(g: Geometry, s: State, c: int, inputs: seq<Input>)
    requires Inv(s) && s.mode == Serving && s.who == c
    ensures s.serveSlot.value !in Run(g, DoubleTouch(s, c), inputs).0.serveTimers
  {
    ClearedStaysDead(g, DoubleTouch(s, c), s.serveSlot.value, inputs);
  }

  /** With no touch from the server, the serve timeout starts play. */
  lemma ServeTimeoutStartsPlay(s: State)
    requires Inv(s) && s.mode == Serving
    ensures FireServeTimeout(s, s.serveSlot.value).mode == InPlay
    ensures Inv(FireServeTimeout(s, s.serveSlot.value))
  {
  }

  /**
   * enterServeMode does not clear an earlier serve timeout: called again
   * while serving, two timeouts are pending, and the older one, when it
   * fires, starts play and nulls the slot that holds the newer one.
   */
  lemma EarlierServeTimeoutSurvives(s: State, who: Player)
    requires Inv(s) && s.mode == Serving
    ensures |EnterServeMode(s, who).serveTimers| == 2
    ensures
      var t := EnterServeMode(s, who);
      var old_h := s.serveSlot.value;
      && old_h in t.serveTimers
      && FireServeTimeout(t, old_h).mode == InPlay
      && FireServeTimeout(t, old_h).serveSlot == None
      && FireServeTimeout(t, old_h).serveTimers == {s.nextHandle}
      && !Inv(FireServeTimeout(t, old_h))
  {
    var h := s.serveSlot.value;
    assert h < s.nextHandle;
    assert EnterServeMode(s, who).serveTimers == {h, s.nextHandle};
  }

  /** A floor contact outside IN_PLAY changes nothing. */
  lemma ContactOutsidePlayIgnored(g: Geometry, s: State, c: Contact, pos: Point)
    requires s.mode != InPlay
    ensures BeginContact(s, g, c, pos).0 == s
  {
  }

  // The public methods below lie outside the inputs of a run; called
  // directly, they break the timer discipline or lose events.

  /** enterPlayMode called while serving leaves the serve timeout pending in IN_PLAY. */
  lemma EnterPlayModeWhileServingBreaksInv(s: State)
    requires Inv(s) && s.mode == Serving
    ensures EnterPlayMode(s).serveTimers == s.serveTimers != {}
    ensures !Inv(EnterPlayMode(s))
  {
  }

  /** enterServeMode called while lingering leaves the linger callback pending in SERVING. */
  lemma EnterServeModeWhileLingeringBreaksInv(s: State, who: Player)
    requires Inv(s) && s.mode == Lingering
    ensures |EnterServeMode(s, who).lingers| == 1
    ensures !Inv(EnterServeMode(s, who))
  {
  }

  /** startNewGame called while lingering leaves the linger callback pending in SERVING. */
  lemma RestartWhileLingeringBreaksInv(s: State, draw: real)
    requires Inv(s) && s.mode == Lingering
    ensures |StartNewGame(s, draw).lingers| == 1
    ensures !Inv(StartNewGame(s, draw))
  {
  }

  /**
   * startNewGame discards the snapshot reset returns: queued events are
   * neither delivered nor kept, so the points they record are no longer
   * accounted for by delivered plus queued events.
   */
  lemma RestartDropsQueuedEvents(s: State, draw: real)
    requires Inv(s) && s.queued > 0
    ensures StartNewGame(s, draw).queued == 0
    ensures Points(StartNewGame(s, draw)) == Points(s)
  {
  }
}
