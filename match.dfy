/**
 * The match state of game_logic.js as a value, and one transition function
 * per operation of the match logic. The class in game_logic.dfy keeps the
 * same data in mutable fields and is proved to follow these functions.
 *
 * Timers are explicit pending items: a serve timeout is a handle in
 * `serveTimers` until it fires or is cleared; a linger callback is the
 * player number it will pass to enterServeMode, kept in `lingers` until it
 * fires (the source never cancels it).
 */
module Match {

  datatype Option<+T> = None | Some(value: T)

  /** GameLogic.PLAYER_1 and GameLogic.PLAYER_2: indexes into the score tally. */
  type Player = p: int | 0 <= p < 2
  const PLAYER_1: Player := 0
  const PLAYER_2: Player := 1

  /** Delays given to setTimeout, in milliseconds. */
  const SERVE_TIMEOUT_MS: nat := 5000
  const LINGER_MS: nat := 2000

  /** Identifier that setTimeout hands back for a serve timeout. */
  type Handle = nat

  /** The two-entry score array; entry p is player p's points. */
  type Tally = s: seq<int> | |s| == 2 witness [0, 0]

  function Opponent(p: Player): (q: Player)
    ensures q != p
  {
    1 - p
  }

  /**
   * `this.state`: Unset is the null it holds before startNewGame runs;
   * the other three are GameState.SERVING, IN_PLAY and LINGERING.
   */
  datatype Mode = Unset | Serving | InPlay | Lingering

  datatype State = State(
    score: Tally,
    mode: Mode,
    // GameState.SERVING.who: the player allowed to serve
    who: Player,
    // GameState.SERVING.timeout: handle of the last serve timeout armed
    serveSlot: Option<Handle>,
    // serve timeouts armed and neither fired nor cleared
    serveTimers: set<Handle>,
    // linger callbacks armed and not yet fired, by the player they pass on
    lingers: multiset<Player>,
    // number of entries in queuedEvents
    queued: nat,
    // the handle the next setTimeout for a serve returns
    nextHandle: Handle)

  /** The fields as lines 8-10 leave them, before startNewGame. */
  function Unstarted(): (r: State)
    ensures r.score == [0, 0] && r.queued == 0 && r.mode == Unset
    ensures r.serveTimers == {} && r.lingers == multiset{}
  {
    State([0, 0], Unset, PLAYER_1, None, {}, multiset{}, 0, 1)
  }

  /** True when no entry of `s` is larger than the matching entry of `t`. */
  predicate ScoresGrow(s: Tally, t: Tally)
  {
    s[0] <= t[0] && s[1] <= t[1]
  }

  /**
   * The timer discipline of a started match: the mode owns exactly the
   * pending timers it should, serve handles are never reused, and no score
   * is negative.
   */
  predicate Inv(s: State)
  {
    && s.score[0] >= 0 && s.score[1] >= 0
    && (forall h :: h in s.serveTimers ==> h < s.nextHandle)
    && match s.mode
       case Unset => false
       case Serving =>
         s.serveSlot.Some? && s.serveTimers == {s.serveSlot.value} && s.lingers == multiset{}
       case InPlay => s.serveTimers == {} && s.lingers == multiset{}
       case Lingering => s.serveTimers == {} && |s.lingers| == 1
  }

  // ---------------------------------------------------------------- modes

  /**
   * The player enterServeMode(playerNum) puts in the serving slot: the given
   * one, or for null PLAYER_1 when Math.random() returned more than .5 and
   * PLAYER_2 otherwise. `draw` stands for that Math.random() result.
   */
  function ServingPlayer(playerNum: Option<Player>, draw: real): (r: Player)
    ensures playerNum.Some? ==> r == playerNum.value
    ensures playerNum.None? ==> (r == PLAYER_1 <==> draw > 0.5)
  {
    match playerNum
    case Some(p) => p
    case None => if draw > 0.5 then PLAYER_1 else PLAYER_2
  }

  /**
   * enterServeMode once the server is known: mode SERVING, `who` set, and a
   * fresh serve timeout (SERVE_TIMEOUT_MS) armed and stored in the slot. Timeouts armed by
   * earlier calls are not cleared.
   */
  function EnterServeMode(s: State, who: Player): (r: State)
    requires forall h :: h in s.serveTimers ==> h < s.nextHandle
    ensures r.mode == Serving && r.who == who
    ensures r.serveSlot == Some(s.nextHandle) && s.nextHandle !in s.serveTimers
    ensures r.serveTimers == s.serveTimers + {s.nextHandle}
    ensures forall h :: h in r.serveTimers ==> h < r.nextHandle
    ensures r.score == s.score && r.queued == s.queued && r.lingers == s.lingers
  {
    s.(mode := Serving, who := who, serveSlot := Some(s.nextHandle),
       serveTimers := s.serveTimers + {s.nextHandle}, nextHandle := s.nextHandle + 1)
  }

  /**
   * enterPlayMode: mode IN_PLAY. The serve kick it gives the ball, a fixed
   * velocity (0, -5), belongs to the physics world and is not part of State.
   */
  function EnterPlayMode(s: State): (r: State)
    ensures r.mode == InPlay
    ensures r.score == s.score && r.queued == s.queued && r.who == s.who
    ensures r.serveSlot == s.serveSlot && r.serveTimers == s.serveTimers && r.lingers == s.lingers
  {
    s.(mode := InPlay)
  }

  /** The serve-timeout callback for `h`: enterPlayMode, then the slot is nulled. */
  function FireServeTimeout(s: State, h: Handle): (r: State)
    requires h in s.serveTimers
    ensures r.mode == InPlay && r.serveSlot == None
    ensures r.serveTimers == s.serveTimers - {h} && |r.serveTimers| < |s.serveTimers|
    ensures r.score == s.score && r.queued == s.queued && r.lingers == s.lingers
    ensures r.who == s.who && r.nextHandle == s.nextHandle
  {
    EnterPlayMode(s).(serveTimers := s.serveTimers - {h}, serveSlot := None)
  }

  /**
   * doubleTouch(ctrlIndex): only in SERVING and only for the player in the
   * slot does it clear the timeout whose handle the slot holds and start
   * play; the slot keeps that handle. Anything else is a no-op.
   */
  function DoubleTouch(s: State, ctrlIndex: int): (r: State)
    ensures s.mode == Serving && s.who == ctrlIndex ==>
      && r.mode == InPlay && r.serveSlot == s.serveSlot
      && r.serveTimers == (if s.serveSlot.Some? then s.serveTimers - {s.serveSlot.value} else s.serveTimers)
      && r.score == s.score && r.queued == s.queued && r.lingers == s.lingers
      && r.who == s.who && r.nextHandle == s.nextHandle
    ensures !(s.mode == Serving && s.who == ctrlIndex) ==> r == s
  {
    if s.mode == Serving && s.who == ctrlIndex then
      var timers := match s.serveSlot
        case Some(h) => s.serveTimers - {h}
        case None => s.serveTimers;
      EnterPlayMode(s.(serveTimers := timers))
    else
      s
  }

  // -------------------------------------------------------------- scoring

  /**
   * pointScored(playerNum): outside IN_PLAY nothing changes; in IN_PLAY the
   * player's entry goes up by one, one event is queued, the mode becomes
   * LINGERING and a linger callback (LINGER_MS) for playerNum is armed.
   */
  function PointScored(s: State, playerNum: Player): (r: State)
    ensures s.mode != InPlay ==> r == s
    ensures s.mode == InPlay ==>
      && r.score[playerNum] == s.score[playerNum] + 1
      && r.score[Opponent(playerNum)] == s.score[Opponent(playerNum)]
      && r.queued == s.queued + 1
      && r.mode == Lingering
      && r.lingers == s.lingers + multiset{playerNum}
      && r.who == s.who && r.serveSlot == s.serveSlot && r.serveTimers == s.serveTimers
      && r.nextHandle == s.nextHandle
    ensures ScoresGrow(s.score, r.score)
  {
    if s.mode != InPlay then s
    else
      s.(score := s.score[playerNum := s.score[playerNum] + 1],
         queued := s.queued + 1,
         mode := Lingering,
         lingers := s.lingers + multiset{playerNum})
  }

  /** A linger callback firing: it is no longer pending, and playerNum serves. */
  function FireLinger(s: State, playerNum: Player): (r: State)
    requires playerNum in s.lingers
    requires forall h :: h in s.serveTimers ==> h < s.nextHandle
    ensures r.mode == Serving && r.who == playerNum
    ensures r.serveSlot == Some(s.nextHandle) && r.serveTimers == s.serveTimers + {s.nextHandle}
    ensures r.lingers == s.lingers - multiset{playerNum} && |r.lingers| == |s.lingers| - 1
    ensures r.score == s.score && r.queued == s.queued
  {
    EnterServeMode(s.(lingers := s.lingers - multiset{playerNum}), playerNum)
  }

  // ---------------------------------------------------------------- state

  /**
   * getState's effect on the match: the events it attaches, as a reader of
   * the snapshot sees them, and the state with the queue emptied. Each
   * queued event is the live score array itself, so every delivered event
   * shows the score at the moment of delivery. The handed-out event stays
   * the same array, so it shows later points too; this function records
   * the values at drain time.
   */
  function GetState(s: State): (r: (State, Option<seq<Tally>>))
    ensures r.0.queued == 0
    ensures r.1.None? <==> s.queued == 0
    ensures r.1.Some? ==> |r.1.value| == s.queued && forall i :: 0 <= i < |r.1.value| ==> r.1.value[i] == s.score
    ensures r.0.score == s.score && r.0.mode == s.mode && r.0.who == s.who
    ensures r.0.serveSlot == s.serveSlot && r.0.serveTimers == s.serveTimers && r.0.lingers == s.lingers
    ensures r.0.nextHandle == s.nextHandle
  {
    var event: Option<seq<Tally>> := if s.queued > 0 then Some(seq(s.queued, _ => s.score)) else None;
    (s.(queued := 0), event)
  }

  /**
   * startNewGame: reset() places the bodies (not modelled) and returns
   * getState(), which drains the queue; then enterServeMode(null). The
   * score is not touched.
   */
  function StartNewGame(s: State, draw: real): (r: State)
    requires forall h :: h in s.serveTimers ==> h < s.nextHandle
    ensures r.mode == Serving && r.who == ServingPlayer(None, draw)
    ensures r.score == s.score && r.queued == 0 && r.lingers == s.lingers
    ensures r.serveTimers == s.serveTimers + {s.nextHandle} && r.serveSlot == Some(s.nextHandle)
  {
    EnterServeMode(GetState(s).0, ServingPlayer(None, draw))
  }

  /** What the constructor produces: fresh fields, then startNewGame. */
  function NewMatch(draw: real): (r: State)
    ensures r.score == [0, 0] && r.queued == 0
    ensures r.mode == Serving && (r.who == PLAYER_1 <==> draw > 0.5)
    ensures r.serveSlot.Some? && r.serveTimers == {r.serveSlot.value} && r.lingers == multiset{}
    ensures Inv(r)
  {
    StartNewGame(Unstarted(), draw)
  }

  // ------------------------------------------------------------- contacts

  /** A body of the physics world, by identity. */
  type BodyId = nat

  datatype Point = Point(x: real, y: real)

  /** The two bodies of a begin-contact notification. */
  datatype Contact = Contact(bodyA: BodyId, bodyB: BodyId)

  /**
   * What contact classification needs: the arena's floor body, the
   * game definition's scale, and the `contains` tests of its two player
   * zones (given, not modelled).
   */
  datatype Geometry = Geometry(
    floor: BodyId,
    scale: real,
    playerOne: Point -> bool,
    playerTwo: Point -> bool)

  function Scaled(p: Point, k: real): Point
  {
    Point(p.x * k, p.y * k)
  }

  predicate IsFloorContact(g: Geometry, c: Contact)
  {
    c.bodyA == g.floor || c.bodyB == g.floor
  }

  /**
   * The scorer for a ball resting at `ballPos` (physics units): landing in
   * playerOne's zone scores for PLAYER_2, else landing in playerTwo's zone
   * scores for PLAYER_1, and in neither zone there is no scorer.
   */
  function Scorer(g: Geometry, ballPos: Point): (r: Option<Player>)
    ensures r == Some(PLAYER_2) <==> g.playerOne(Scaled(ballPos, g.scale))
    ensures r == Some(PLAYER_1) <==> !g.playerOne(Scaled(ballPos, g.scale)) && g.playerTwo(Scaled(ballPos, g.scale))
    ensures r == None <==> !g.playerOne(Scaled(ballPos, g.scale)) && !g.playerTwo(Scaled(ballPos, g.scale))
  {
    var pos := Scaled(ballPos, g.scale);
    if g.playerOne(pos) then Some(PLAYER_2)
    else if g.playerTwo(pos) then Some(PLAYER_1)
    else None
  }

  /** How BeginContact dealt with a contact. */
  datatype ContactOutcome =
    | NotFloor          // neither body is the floor
    | NotInPlay         // floor contact outside IN_PLAY: ignored
    | Scored(scorer: Player)
    | Ambiguous         // floor contact in IN_PLAY with the ball in neither zone

  /**
   * The BeginContact listener. Where the source would call
   * pointScored(null, ...), the model reports Ambiguous and leaves the
   * state as it was.
   */
  function BeginContact(s: State, g: Geometry, c: Contact, ballPos: Point): (r: (State, ContactOutcome))
    ensures !IsFloorContact(g, c) ==> r == (s, NotFloor)
    ensures IsFloorContact(g, c) && s.mode != InPlay ==> r == (s, NotInPlay)
    ensures IsFloorContact(g, c) && s.mode == InPlay ==>
      match Scorer(g, ballPos)
      case Some(p) => r == (PointScored(s, p), Scored(p))
      case None => r == (s, Ambiguous)
    ensures ScoresGrow(s.score, r.0.score)
  {
    if !IsFloorContact(g, c) then (s, NotFloor)
    else
      var playerNum := Scorer(g, ballPos);
      if s.mode != InPlay then (s, NotInPlay)
      else match playerNum
        case Some(p) => (PointScored(s, p), Scored(p))
        case None => (s, Ambiguous)
  }
}
