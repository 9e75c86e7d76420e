/**
 * GameLogic as the object it is: fields updated in place by its methods.
 * Each method is proved to move Model() exactly as the matching function
 * of module Match says. So what MatchProperties proves of runs holds of a
 * constructed object driven by BeginContact, DoubleTouch, FireServeTimeout,
 * FireLinger and GetState. StartNewGame, EnterServeMode and EnterPlayMode
 * are public too, and a direct call to them can break Inv and drop queued
 * events (see MatchProperties).
 */
module Game {
  import opened Match

  /**
   * The object pointScored queues, `{ score: this.score }`: it holds the
   * live score array, not a copy, and carries no reason.
   */
  datatype ScoreEvent = ScoreEvent(score: array<int>)

  /** A pose as paddle.getState() and ball.getState() report it; read from the physics world. */
  datatype Pose = Pose(x: real, y: real, angle: real)

  /** What getState returns; `event` is absent (None) when nothing was queued. */
  datatype Snapshot = Snapshot(paddles: seq<Pose>, ball: Pose, event: Option<seq<ScoreEvent>>)

  /**
   * The events a drain hands out, read as the tallies Match.GetState
   * delivers: both absent, or both present with equal length and, entry by
   * entry, the event's array holding the tally.
   */
  ghost predicate HandsOut(delivered: Option<seq<Tally>>, event: Option<seq<ScoreEvent>>)
    reads if event.Some? then set e | e in event.value :: e.score else {}
  {
    && (event.None? <==> delivered.None?)
    && (event.Some? ==>
          && |delivered.value| == |event.value|
          && forall i :: 0 <= i < |event.value| ==> delivered.value[i] == event.value[i].score[..])
  }

  class GameLogic {
    const score: array<int>
    var state: Mode
    var queuedEvents: seq<ScoreEvent>
    // GameState.SERVING.who and GameState.SERVING.timeout
    var who: Player
    var serveTimeout: Option<Handle>
    // pending callbacks: serve timeouts by handle, linger callbacks by the player they pass on
    var serveTimers: set<Handle>
    var lingers: multiset<Player>
    var nextHandle: Handle
    const geometry: Geometry

    /** The score array has two entries, every queued event refers to it, and serve handles are fresh. */
    ghost predicate Valid()
      reads this
    {
      && score.Length == 2
      && (forall e :: e in queuedEvents ==> e.score == score)
      && (forall h :: h in serveTimers ==> h < nextHandle)
    }

    /** The match as a value. */
    ghost function Model(): State
      reads this, score
      requires Valid()
    {
      State(score[..], state, who, serveTimeout, serveTimers, lingers, |queuedEvents|, nextHandle)
    }

    /** The constructor: score [0,0], empty queue, state null, then startNewGame. */
    constructor (geometry: Geometry, draw: real)
      ensures Valid() && fresh(score)
      ensures Model() == NewMatch(draw)
      ensures queuedEvents == [] && this.geometry == geometry
    {
      this.geometry := geometry;
      score := new int[2](_ => 0);
      queuedEvents := [];
      state := Unset;
      who := PLAYER_1;
      serveTimeout := None;
      serveTimers := {};
      lingers := multiset{};
      nextHandle := 1;
      new;
      assert score[..] == [0, 0];
      assert Model() == Unstarted();
      StartNewGame(draw);
    }

    /** pointScored(playerNum, reason). The console warning outside IN_PLAY is not modelled. */
    method PointScored(playerNum: Player)
      requires Valid()
      modifies this, score
      ensures Valid()
      ensures Model() == Match.PointScored(old(Model()), playerNum)
      ensures queuedEvents == if old(state) == InPlay then old(queuedEvents) + [ScoreEvent(score)] else old(queuedEvents)
    {
      if state != InPlay {
        return;
      }
      score[playerNum] := score[playerNum] + 1;
      queuedEvents := queuedEvents + [ScoreEvent(score)];
      state := Lingering;
      lingers := lingers + multiset{playerNum};
    }

    /** The event part of getState: hand out the queue, if any, and empty it. */
    method DrainEvents() returns (event: Option<seq<ScoreEvent>>)
      requires Valid()
      modifies this
      ensures Valid()
      ensures event == if |old(queuedEvents)| > 0 then Some(old(queuedEvents)) else None
      ensures HandsOut(Match.GetState(old(Model())).1, event)
      ensures event.Some? ==> forall e :: e in event.value ==> e.score == score
      ensures queuedEvents == []
      ensures Model() == Match.GetState(old(Model())).0
    {
      event := None;
      if |queuedEvents| > 0 {
        event := Some(queuedEvents);
        queuedEvents := [];
      }
    }

    /** getState: the poses read from the physics world, and the drained events. */
    method GetState(paddlePoses: seq<Pose>, ballPose: Pose) returns (output: Snapshot)
      requires Valid()
      modifies this
      ensures Valid()
      ensures output.paddles == paddlePoses && output.ball == ballPose
      ensures output.event == if |old(queuedEvents)| > 0 then Some(old(queuedEvents)) else None
      ensures HandsOut(Match.GetState(old(Model())).1, output.event)
      ensures queuedEvents == []
      ensures Model() == Match.GetState(old(Model())).0
    {
      var event := DrainEvents();
      output := Snapshot(paddlePoses, ballPose, event);
    }

    /** over(): there is no win condition. */
    function Over(): (over: bool)
      ensures !over
    {
      false
    }

    /** doubleTouch(ctrlIndex). clearTimeout cancels the pending timeout; the slot keeps its handle. */
    method DoubleTouch(ctrlIndex: int)
      requires Valid()
      modifies this
      ensures Valid()
      ensures Model() == Match.DoubleTouch(old(Model()), ctrlIndex)
      ensures queuedEvents == old(queuedEvents)
    {
      if state == Serving && who == ctrlIndex {
        if serveTimeout.Some? {
          serveTimers := serveTimers - {serveTimeout.value};
        }
        EnterPlayMode();
      }
    }

    /**
     * reset(): placing the paddles and the ball is not modelled; the
     * getState() it returns drains the queue, and its events are returned.
     */
    method Reset() returns (event: Option<seq<ScoreEvent>>)
      requires Valid()
      modifies this
      ensures Valid()
      ensures event == if |old(queuedEvents)| > 0 then Some(old(queuedEvents)) else None
      ensures HandsOut(Match.GetState(old(Model())).1, event)
      ensures queuedEvents == []
      ensures Model() == Match.GetState(old(Model())).0
    {
      event := DrainEvents();
    }

    /**
     * startNewGame: reset, then serve with a random server. The snapshot
     * reset returns is discarded, so events queued before are lost.
     */
    method StartNewGame(draw: real)
      requires Valid()
      modifies this
      ensures Valid()
      ensures Model() == Match.StartNewGame(old(Model()), draw)
      ensures queuedEvents == []
    {
      var _ := Reset();
      EnterServeMode(None, draw);
    }

    /**
     * enterServeMode(playerNum): `draw` is the Math.random() result used when
     * playerNum is null. Earlier serve timeouts stay pending.
     */
    method EnterServeMode(playerNum: Option<Player>, draw: real)
      requires Valid()
      modifies this
      ensures Valid()
      ensures Model() == Match.EnterServeMode(old(Model()), ServingPlayer(playerNum, draw))
      ensures queuedEvents == old(queuedEvents)
    {
      state := Serving;
      if playerNum.None? {
        who := if draw > 0.5 then PLAYER_1 else PLAYER_2;
      } else {
        who := playerNum.value;
      }
      serveTimeout := Some(nextHandle);
      serveTimers := serveTimers + {nextHandle};
      nextHandle := nextHandle + 1;
    }

    /** enterPlayMode. The serve kick, ball velocity (0, -5), is not modelled. */
    method EnterPlayMode()
      requires Valid()
      modifies this
      ensures Valid()
      ensures Model() == Match.EnterPlayMode(old(Model()))
      ensures queuedEvents == old(queuedEvents)
    {
      state := InPlay;
    }

    /** The serve timeout with handle h expires: enterPlayMode, then the slot is nulled. */
    method FireServeTimeout(h: Handle)
      requires Valid() && h in serveTimers
      modifies this
      ensures Valid()
      ensures Model() == Match.FireServeTimeout(old(Model()), h)
      ensures queuedEvents == old(queuedEvents)
    {
      serveTimers := serveTimers - {h};
      EnterPlayMode();
      serveTimeout := None;
    }

    /** A linger callback for playerNum expires: enterServeMode(playerNum). */
    method FireLinger(playerNum: Player)
      requires Valid() && playerNum in lingers
      modifies this
      ensures Valid()
      ensures Model() == Match.FireLinger(old(Model()), playerNum)
      ensures queuedEvents == old(queuedEvents)
    {
      lingers := lingers - multiset{playerNum};
      // a given server makes no random draw, so the draw passed is never read
      EnterServeMode(Some(playerNum), 0.0);
    }

    /**
     * The BeginContact listener, with the ball position copied at the
     * moment of contact. A floor contact in IN_PLAY with the ball in
     * neither zone is reported as Ambiguous and scores nothing.
     */
    method BeginContact(contact: Contact, ballPos: Point) returns (outcome: ContactOutcome)
      requires Valid()
      modifies this, score
      ensures Valid()
      ensures (Model(), outcome) == Match.BeginContact(old(Model()), geometry, contact, ballPos)
      ensures outcome.Scored? ==> queuedEvents == old(queuedEvents) + [ScoreEvent(score)]
      ensures !outcome.Scored? ==> queuedEvents == old(queuedEvents)
    {
      var isFloor := contact.bodyA == geometry.floor || contact.bodyB == geometry.floor;
      if !isFloor {
        return NotFloor;
      }
      var pos := Scaled(ballPos, geometry.scale);
      var playerNum: Option<Player> := None;
      if geometry.playerOne(pos) {
        playerNum := Some(PLAYER_2);
      } else if geometry.playerTwo(pos) {
        playerNum := Some(PLAYER_1);
      }
      if state != InPlay {
        return NotInPlay;
      }
      if playerNum.None? {
        return Ambiguous;
      }
      PointScored(playerNum.value);
      outcome := Scored(playerNum.value);
    }
  }

  /**
   * A new match whose serve times out, then a floor contact with the ball
   * in playerOne's zone: PLAYER_2 scores, the first snapshot hands out one
   * event showing [0, 1], the second hands out none, and once the linger
   * ends PLAYER_2 serves.
   */
  method FloorContactScenario(g: Geometry, draw: real, ballPos: Point, paddlePoses: seq<Pose>, ballPose: Pose)
    returns (outcome: ContactOutcome, tally: seq<int>, delivered: seq<seq<int>>, second: Snapshot, server: Player)
    requires g.playerOne(Scaled(ballPos, g.scale))
    ensures outcome == Scored(PLAYER_2)
    ensures tally == [0, 1]
    ensures delivered == [[0, 1]]
    ensures second.event == None
    ensures server == PLAYER_2
  {
    var game := new GameLogic(g, draw);
    game.FireServeTimeout(game.serveTimeout.value);
    ghost var before := game.Model();
    assert before.mode == InPlay && before.score == [0, 0];
    assert Scorer(g, ballPos) == Some(PLAYER_2);
    outcome := game.BeginContact(Contact(g.floor + 1, g.floor), ballPos);
    assert game.Model() == PointScored(before, PLAYER_2);
    tally := game.score[..];
    assert tally == [0, 1];
    var first := game.GetState(paddlePoses, ballPose);
    delivered := [first.event.value[0].score[..]];
    second := game.GetState(paddlePoses, ballPose);
    game.FireLinger(PLAYER_2);
    server := game.who;
  }
}
