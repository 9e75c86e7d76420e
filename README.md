# Match logic of padpaddle, in Dafny

padpaddle is a two-player ball game on top of the Box2D physics engine.
Its `GameLogic` object owns the match: the two-entry score array, the mode
(`SERVING`, `IN_PLAY`, `LINGERING`) and the queue of score events waiting for
the next snapshot. It also reads and writes the serving slot
`GameState.SERVING.who/timeout`, which lives on a descriptor shared by the
whole process.
Floor contacts reported by the physics world become points. Two timers drive
the automatic transitions: a 5000 ms serve timeout and a 2000 ms linger after
each point.

The project has three files:

- `match.dfy`, module `Match`. The match state as a value (`State`), with one
  transition function per operation of `GameLogic`. It also defines `Inv`,
  the timer discipline of a started match. In each mode, exactly the timers
  that mode should own are pending:
  - SERVING owns one serve timeout, whose handle is in the slot;
  - IN_PLAY owns no timer;
  - LINGERING owns one linger callback.
- `properties.dfy`, module `MatchProperties`. Runs of inputs: floor contacts,
  double touches, timer expiries and snapshots. Its lemmas say what holds
  over any run:
  - the timer discipline is kept;
  - no score goes down;
  - every point is either still queued or was handed out by exactly one
    snapshot (given how the model treats a floor contact outside both
    zones; see "Left out").

  Other lemmas cover drain idempotence, who serves next, and the
  double-touch condition.
- `game_logic.dfy`, module `Game`. The class `GameLogic`, with the source's
  fields updated in place:
  - `score` is an `array<int>`;
  - every queued `ScoreEvent` holds a reference to that same array;
  - `who`/`serveTimeout` are the serving slot;
  - the pending timers are fields too.

  Every method ensures `Model() == Match.F(old(Model()))` for its function
  `F`. The events `DrainEvents`, `GetState` and `Reset` hand out are tied to
  the events `Match.GetState` delivers. So the run lemmas hold of a
  constructed object driven by `BeginContact`, `DoubleTouch`,
  `FireServeTimeout`, `FireLinger` and `GetState`. The public methods
  `StartNewGame`, `EnterServeMode` and `EnterPlayMode` lie outside those runs
  (see "Left out"). `PointScored`, `Reset` and `DrainEvents` are public and
  outside the runs too, but harmless: a direct `PointScored` acts like a
  scoring contact and keeps `Inv`, and `Reset`/`DrainEvents` act like a
  snapshot. `FloorContactScenario` is a client that drives a new
  match through a point.

Timers are explicit pending items, not wall-clock callbacks. `setTimeout`
for a serve returns a fresh `Handle`, which stays in `serveTimers` until the
callback fires (`FireServeTimeout(h)`) or `clearTimeout` removes it. A linger
callback is the player number it will pass to `enterServeMode`. It stays in
the multiset `lingers` until it fires (`FireLinger(p)`), since nothing cancels
it. `Math.random()` becomes a parameter `draw`: a null server becomes
PLAYER_1 (0) when `draw > .5` and PLAYER_2 (1) otherwise. The zones'
`contains` tests are functions supplied with the `Geometry`.

What the code does with timers and events, and the model with it:

- `enterServeMode` does not cancel earlier serve timeouts, and `enterPlayMode`
  cancels nothing. `MatchProperties.EarlierServeTimeoutSurvives` shows what a
  second `enterServeMode` while serving leads to. Through contacts, touches and
  timers alone that never happens, and `Inv` holds over every run.
- `doubleTouch` calls `clearTimeout` on the slot's handle but leaves the handle
  in the slot. The serve-timeout callback sets the slot to null whatever it
  holds.
- A queued event is `{ score: this.score }`: the live array, with no reason.
  So a snapshot shows the score at delivery time
  (`MatchProperties.EventsShowScoreAtDelivery`). The handed-out event stays
  the same array, so it shows later points too; `Match.GetState` records the
  values at drain time.
- `reset()` returns `getState()`, and `startNewGame` discards that result.
  So a restart drains the queue and the queued events are never delivered
  (`MatchProperties.RestartDropsQueuedEvents`). It does not reset the score;
  only the constructor sets `[0, 0]`.

## Model

| member | source | states |
|---|---|---|
| `Match.Unstarted` | public/javascripts/game_logic.js:8-10 | before startNewGame: score [0,0], empty queue, state null, no timer pending |
| `Match.NewMatch` | public/javascripts/game_logic.js:7-22 | a constructed match has score [0,0], an empty queue, mode SERVING with who PLAYER_1 exactly when the draw exceeds .5, one serve timeout pending in the slot, and satisfies Inv |
| `Match.ServingPlayer` | public/javascripts/game_logic.js:120-125 | a given player serves; for null, PLAYER_1 serves iff Math.random() > .5, else PLAYER_2 |
| `Match.EnterServeMode` | public/javascripts/game_logic.js:118-132 | mode SERVING with the given server; the slot holds a handle not pending before; earlier serve timeouts stay pending; score, queue and lingers unchanged |
| `Match.EnterPlayMode` | public/javascripts/game_logic.js:133-137 | mode IN_PLAY; nothing else of the match changes (no timer is cancelled) |
| `Match.FireServeTimeout` | public/javascripts/game_logic.js:128-131 | a pending serve timeout firing leaves mode IN_PLAY, the slot nulled, that timer no longer pending, score and queue unchanged |
| `Match.DoubleTouch` | public/javascripts/game_logic.js:104-111 | in SERVING with who == ctrlIndex: IN_PLAY, the slot's timeout cancelled, the slot keeps its handle; otherwise the state is exactly unchanged |
| `Match.PointScored` | public/javascripts/game_logic.js:54-69 | outside IN_PLAY nothing changes; in IN_PLAY score[p] rises by exactly 1, the other score stays, one event is queued, mode LINGERING, one linger callback for p is added |
| `Match.FireLinger` | public/javascripts/game_logic.js:67-69 | a pending linger callback for p firing removes it and makes the match SERVING with p as server, with a fresh serve timeout armed in the slot |
| `Match.GetState` | public/javascripts/game_logic.js:90-94 | the queue becomes empty; the event is absent iff nothing was queued; otherwise it has one entry per queued event, each showing the live score |
| `Match.StartNewGame` | public/javascripts/game_logic.js:114-117 | SERVING with a randomly chosen server, the queue drained by reset's getState, score unchanged, a fresh serve timeout armed |
| `Match.Scorer` | public/javascripts/game_logic.js:29-38 | with the ball position scaled: in playerOne's zone PLAYER_2 scores; else in playerTwo's zone PLAYER_1 scores; in neither there is no scorer (each an iff) |
| `Match.BeginContact` | public/javascripts/game_logic.js:26-44 | non-floor contacts are ignored; floor contacts outside IN_PLAY change nothing; in IN_PLAY the match becomes PointScored for the zone's scorer, or stays put and reports Ambiguous; no score decreases |
| `MatchProperties.StepKeepsInv` | public/javascripts/game_logic.js:26-137 | any single input keeps Inv, lowers no score, and the increase in points equals events handed out plus the increase of the queue |
| `MatchProperties.RunKeepsInv` | public/javascripts/game_logic.js:26-137 | over any run of inputs: Inv kept, scores non-decreasing, every point either still queued or delivered once |
| `MatchProperties.NewMatchRun` | public/javascripts/game_logic.js:7-22 | from a new match, after any run: Inv, both scores non-negative, points scored == events delivered + events queued |
| `MatchProperties.SecondSnapshotIsEmpty` | public/javascripts/game_logic.js:90-94 | a second getState with nothing in between attaches no event and changes nothing |
| `MatchProperties.EventsShowScoreAtDelivery` | public/javascripts/game_logic.js:61-63 | two points queued before one snapshot are delivered as two identical events showing the later score |
| `MatchProperties.ScorerServesNext` | public/javascripts/game_logic.js:65-69 | from IN_PLAY, a point for p leaves exactly one linger callback, for p, and when it fires p serves and Inv holds |
| `MatchProperties.DoubleTouchStartsPlay` | public/javascripts/game_logic.js:104-111 | doubleTouch moves a non-playing match into IN_PLAY iff it is SERVING and ctrlIndex is the server; after that no serve timeout can change the match |
| `MatchProperties.ClearedStaysDead` | public/javascripts/game_logic.js:106-110 | a serve handle issued and no longer pending is never pending again over any later run, so that timeout never fires |
| `MatchProperties.TouchedTimerNeverFires` | public/javascripts/game_logic.js:104-111 | the serve timeout a touch from the server clears is never pending again, whatever run of inputs follows |
| `MatchProperties.ServeTimeoutStartsPlay` | public/javascripts/game_logic.js:128-131 | with no touch, the pending serve timeout starts play and Inv holds afterwards |
| `MatchProperties.EarlierServeTimeoutSurvives` | public/javascripts/game_logic.js:128-131 | enterServeMode while serving leaves two serve timeouts pending; the older one firing starts play and nulls the slot while the newer stays pending, breaking Inv |
| `MatchProperties.ContactOutsidePlayIgnored` | public/javascripts/game_logic.js:40-42 | a contact outside IN_PLAY never changes the match, so never the score |
| `MatchProperties.EnterPlayModeWhileServingBreaksInv` | public/javascripts/game_logic.js:133-137 | enterPlayMode called directly while serving leaves the serve timeout pending in IN_PLAY, breaking Inv |
| `MatchProperties.EnterServeModeWhileLingeringBreaksInv` | public/javascripts/game_logic.js:118-132 | enterServeMode called directly while lingering leaves the linger callback pending in SERVING, breaking Inv |
| `MatchProperties.RestartWhileLingeringBreaksInv` | public/javascripts/game_logic.js:114-117 | startNewGame called while lingering leaves the linger callback pending in SERVING, breaking Inv |
| `MatchProperties.RestartDropsQueuedEvents` | public/javascripts/game_logic.js:114-117 | a restart with events queued empties the queue without delivering them, while the points stay |
| `Game.GameLogic.constructor` | public/javascripts/game_logic.js:7-22 | the new object's model is Match.NewMatch(draw), with a fresh score array and an empty queue |
| `Game.GameLogic.PointScored` | public/javascripts/game_logic.js:54-76 | follows Match.PointScored; in IN_PLAY the queue gains exactly one event referring to the score array itself |
| `Game.GameLogic.DrainEvents` | public/javascripts/game_logic.js:90-93 | hands out the whole queue in order when it is non-empty, none otherwise; every handed-out event refers to the live score and reads as the entry Match.GetState delivers; the queue becomes empty |
| `Game.GameLogic.GetState` | public/javascripts/game_logic.js:79-95 | the snapshot carries the given poses and, if the queue was non-empty, exactly the old queue as event, entry for entry what Match.GetState delivers; the queue becomes empty |
| `Game.GameLogic.Over` | public/javascripts/game_logic.js:96-98 | the match is never over |
| `Game.GameLogic.DoubleTouch` | public/javascripts/game_logic.js:104-111 | follows Match.DoubleTouch; the queue is untouched |
| `Game.GameLogic.Reset` | public/javascripts/game_logic.js:151-162 | the getState reset returns drains the queue and hands out its old contents |
| `Game.GameLogic.StartNewGame` | public/javascripts/game_logic.js:114-117 | follows Match.StartNewGame: queue empty, SERVING with a random server |
| `Game.GameLogic.EnterServeMode` | public/javascripts/game_logic.js:118-132 | follows Match.EnterServeMode with the server chosen by Match.ServingPlayer |
| `Game.GameLogic.EnterPlayMode` | public/javascripts/game_logic.js:133-137 | follows Match.EnterPlayMode |
| `Game.GameLogic.FireServeTimeout` | public/javascripts/game_logic.js:128-131 | follows Match.FireServeTimeout |
| `Game.GameLogic.FireLinger` | public/javascripts/game_logic.js:67-69 | follows Match.FireLinger: the scorer serves |
| `Game.GameLogic.BeginContact` | public/javascripts/game_logic.js:26-44 | follows Match.BeginContact, model and outcome together; the queue grows by one event exactly when a point is scored |
| `Game.FloorContactScenario` | public/javascripts/game_logic.js:26-69 | new match, serve timeout, ball on playerOne's floor: PLAYER_2 scores, score [0,1], the first snapshot delivers one event showing [0,1], the second none, PLAYER_2 serves next |

## Left out

- The Box2D world: its construction, `world.Step`, `DrawDebugData` and registering the contact listener. A contact is an input, with the ball position copied at contact time.
- `step(t)`: it calls the paddles' and the ball's frame updates and the physics step, then returns `getState()`. These are all foreign calls apart from `getState`, which is modelled.
- `setTouchPoints`: it only forwards to the paddle helper.
- Ball, Paddle, Arena and GameState internals. Poses are given to `GetState` as parameters. The floor body and the zones' `contains` tests are given in `Geometry`.
- The placement arithmetic of `reset` and the serve velocity (0, -5) set by `enterPlayMode`. Both are floating-point physics writes; only `reset`'s draining of the queue is modelled.
- Floating point: positions and the scale factor are `real`.
- Wall-clock time. The 5000 ms and 2000 ms delays are recorded as constants. Any pending timer may fire next, so the relative order of deadlines is not modelled.
- `Math.random`: it becomes the `draw` parameter.
- The `reason` argument of `pointScored` (unused by the source) and its console warning.
- `GameState.SERVING` is one descriptor shared by all `GameLogic` objects in a process. The model keeps `who` and the slot in each object, so it assumes one match per process.
- `Match.BeginContact`: when play is on and the ball lies in neither zone, the model reports `Ambiguous` and leaves the match unchanged. The source calls `pointScored(null, …)` there (line 41). It does not throw: `score[null]++` adds a `"null"` property and leaves both entries as they were (line 59), so it queues an event with no new point (lines 61-63), enters LINGERING (line 65), and arms a linger whose `enterServeMode(null)` picks a random server (lines 67-69, 120-121). The model does none of this, so the accounting `points == delivered + queued` (`MatchProperties.RunKeepsInv`, `MatchProperties.NewMatchRun`) holds only with this branch.
- `Game.GameLogic.BeginContact`: same error branch as `Match.BeginContact`: it stays IN_PLAY, queues no event and arms no linger, where the source does all three.
- Runs that call `StartNewGame`, `EnterServeMode` or `EnterPlayMode` directly. In game_logic.js, startNewGame is called only by the constructor (line 22), enterServeMode only by startNewGame (line 116) and the linger callback (line 68), and enterPlayMode only by doubleTouch (line 109) and the serve-timeout callback (line 129); callers outside the file may call all three directly. The run lemmas (`MatchProperties.RunKeepsInv`, `MatchProperties.NewMatchRun`) do not cover such calls. A direct call can break `Inv` (the `...BreaksInv` lemmas), and a restart loses queued events (`MatchProperties.RestartDropsQueuedEvents`). The other public methods outside `Input`, `PointScored`, `Reset` and `DrainEvents`, need no such caveat: a direct `PointScored` acts like a scoring contact and keeps `Inv`, and `Reset`/`DrainEvents` act like a snapshot.
