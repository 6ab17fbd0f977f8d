# Character movement state machine of Sewer Cleanup, in Dafny

This project models the character movement state machine of the Sewer
Cleanup game as it stands in this iteration. The machine has six movement
states. Only two of them, Stand and Run, have handlers. Each state's row in
the table holds four handlers:

- `enter` sets the horizontal velocity of the character;
- `exit` does nothing;
- `input` maps an abstract event to a next state or "no change";
- `tick` asks for no transition; Run's `tick` moves the character along at
  its current velocity and Stand's moves nothing.

The handlers share a 64-bit side channel, `opts`, which the caller passes by
reference. Bit `0b01` means RIGHT and bit `0b10` means LEFT. On RUN_STOP,
Stand's `input` handler rewrites `opts` before it asks for Run: it leaves
exactly one direction bit, the one opposite the released key. Run's `enter`
then reads the rewritten bits, so the character runs away from the released
key. The header's comment gives the reason: with both keys held the
character stands, and releasing one should make it run towards the other.

Modules:

- `Fsm` (fsm.dfy) holds the declarations of `src/fsm.h`: the `Event` and
  `State` enumerations with their C values, the `-1` "no change" code, the
  `Transition` type that `-1` and the state values encode, and the generic
  four-slot `Row`.
- `Types` (types.dfy) holds `SC_Character` as the class `Character`. Its
  fields are the coordinates of position, velocity and acceleration as exact
  reals, plus the state and the facing flags.
- `CharacterFsm` (character_fsm.dfy) holds the handlers of
  `src/fsm-character.c`. A handler that writes the character through its
  pointer is a method with a field frame (`modifies c`velX`), so Dafny checks
  that it changes nothing else. `opts` is a value, not a pointer. A handler
  that may rewrite it (`InputStand`, and the exit handlers, which leave it as
  it was) takes `opts` and returns `opts'`, the value the next handler in
  the same call sees. The enter handlers only read it. `InputRun` and the
  tick handlers do not take it, since they never touch it. Each handler also has a pure meaning (`StandInput`, `RunVelocity`,
  `EnterVelocity`, `InputOf`, `TickDisplacement`). The table built by
  `initCharacterFSM` is `InitCharacterFsm`: six slots, with `None` for a
  slot that `calloc` left as null pointers. Dispatch (`Enter`, `Exit`,
  `Input`, `Tick`) requires `HasRow(s)`, which holds only for Stand and Run.
- `Driver` (driver.dfy) is a harness and is not in the source. The source
  files contain no caller. The header says only that returning a state value
  changes state and that `opts` is passed by reference so that `input` can
  rewrite it. `Step` is this model's reading of the four-slot row: call
  `input`; on a new state call `exit`, swap the state, then call `enter`,
  all with the same `opts`. That order is an assumption of the harness, not
  something the header documents. `StepOutcome` and `RunEvents` are the pure
  meaning of `Step`. The lemmas about them state the composite properties,
  including the direction reversal described in the header's comment.

Where the code and its header disagree, the model follows the evident
intent:

- `fsm-character.c` names the states `SC_CHARACTER_MOVE_STAND` and
  `SC_CHARACTER_MOVE_RUN`, but `fsm.h` declares `SC_CHARACTER_STAND` and
  `SC_CHARACTER_RUN`. The model has one `State` type.
- The table row declares `tick` with four parameters, ending in `opts`, but
  both tick handlers take three. The model's ticks take no `opts`.
- The header's comment says Stand's handler returns `SC_EVENT_RUN_START`
  after reversing the direction. The code returns the Run state, and so
  does the model.

The model covers the six-state enumeration and the two populated rows that
the code defines. The other four states have no handlers in these files.

## Model

| member | source | states |
|---|---|---|
| `Fsm.StateId` | src/fsm.h:40-49 | each state's enumerator value is in 0..5, below the state total, and is never the no-change code -1 |
| `Fsm.StateOfId` | src/fsm.h:42-49 | exactly the integers 0..5 name a state, and the state named has that value |
| `Fsm.StateIdRoundTrip` | src/fsm.h:42-49 | reading a state's value back gives the same state |
| `Fsm.StateIdInjective` | src/fsm.h:42-49 | distinct states have distinct values |
| `Fsm.AllStates` | src/fsm.h:40-49 | the states listed in order: `SC_CHARACTER_MOVE_STATE_TOTAL` (6) of them, the i-th with value i |
| `Fsm.StateTotalCountsStates` | src/fsm.h:40-49 | every state is in that list of six, and no state is listed twice, so the total equals the number of states |
| `Fsm.EventId` | src/fsm.h:6-12 | each event's value is in 0..4 |
| `Fsm.EventOfId` | src/fsm.h:6-12 | the event set is closed: exactly 0..4 name an event, and the event named has that value |
| `Fsm.EventIdRoundTrip` | src/fsm.h:6-12 | reading an event's value back gives the same event |
| `Fsm.TransitionCode` | src/fsm.h:14-20 | a handler's `int` result is -1 exactly for "no change"; otherwise it is the requested state's value; it always lies in -1..5 |
| `Fsm.TransitionOfCode` | src/fsm.h:14-20 | the caller reads exactly -1..5 as a transition, and that transition encodes back to the same integer |
| `Fsm.TransitionRoundTrip` | src/fsm.h:14-20 | encoding then decoding a transition gives it back |
| `CharacterFsm.EnterStand` | src/fsm-character.c:15-19 | sets velocity x to 0 and, by its frame, changes nothing else about the character |
| `CharacterFsm.ExitStand` | src/fsm-character.c:21-23 | leaves `opts` as it was (and, having no frame, the character too) |
| `CharacterFsm.StandInput` | src/fsm-character.c:25-39 | RUN_START and RUN_STOP ask for Run and every other event for no change; `opts` is kept except on RUN_STOP, where it becomes exactly one direction bit: LEFT iff the RIGHT bit was set (also when both were), else RIGHT |
| `CharacterFsm.InputStand` | src/fsm-character.c:25-39 | the in-place rewrite of `opts` (clear every bit, then set the new one) yields what `StandInput` states |
| `CharacterFsm.TickStand` | src/fsm-character.c:41-44 | a tick in Stand never asks for a transition |
| `CharacterFsm.RunVelocity` | src/fsm-character.c:46-52 | the velocity entering Run sets has magnitude `PLAYER_MAX_VEL_X` (0.25) and is positive exactly when the RIGHT bit is set, so it is -0.25 when `opts` is 0 |
| `CharacterFsm.EnterRun` | src/fsm-character.c:46-52 | sets velocity x to `RunVelocity(opts)`, i.e. +0.25 or -0.25, and changes nothing else |
| `CharacterFsm.ExitRun` | src/fsm-character.c:54-56 | leaves `opts` as it was |
| `CharacterFsm.InputRun` | src/fsm-character.c:58-66 | in Run, exactly RUN_START and RUN_STOP ask for a transition, and that transition is to Stand |
| `CharacterFsm.TickRun` | src/fsm-character.c:68-73 | adds `delta * vel.x` to position x, changes nothing else (velocity included) and asks for no transition |
| `CharacterFsm.InitCharacterFsm` | src/fsm-character.c:75-90 | the table has 6 rows; a state's row is filled exactly for Stand and Run, with each state's own four handlers |
| `CharacterFsm.RowOf` | src/fsm-character.c:79-89 | looking up Stand or Run gives that state's own row |
| `CharacterFsm.HasRowExactly` | src/fsm-character.c:75-90 | dispatch is defined exactly for Stand and Run |
| `CharacterFsm.EnterVelocity` | src/fsm-character.c:15-52 | dispatching `enter` through the table sets velocity 0 for Stand and `RunVelocity(opts)` for Run |
| `CharacterFsm.Enter` | src/fsm.h:34 | calling a state's `enter` slot sets velocity x as `EnterVelocity` states and nothing else |
| `CharacterFsm.Exit` | src/fsm.h:35 | calling a state's `exit` slot leaves `opts` unchanged |
| `CharacterFsm.InputOf` | src/fsm-character.c:25-66 | a state's `input` slot decides as Stand's or Run's handler; every state it asks for has a row; only Stand's handler rewrites `opts` |
| `CharacterFsm.Input` | src/fsm.h:36 | calling a state's `input` slot returns the decision and `opts` that `InputOf` states |
| `CharacterFsm.TickDisplacement` | src/fsm-character.c:41-73 | dispatching `tick` moves Stand by 0 and Run by `delta * vel.x` |
| `CharacterFsm.Tick` | src/fsm.h:37 | calling a state's `tick` slot moves position x by `TickDisplacement` and never asks for a transition |
| `Driver.StepOutcome` | src/fsm.h:18-31 | one event from a state with a row ends in a state with a row |
| `Driver.Step` | src/fsm.h:18-31 | input, then exit, state swap and enter with the `opts` the input handler left, gives `StepOutcome`; on no change the state and velocity stay as they were |
| `Driver.StepThenTick` | src/fsm-character.c:15-73 | an event followed by a tick keeps the character standing at 0 or running at +-0.25, so after every tick the speed is at most `PLAYER_MAX_VEL_X` |
| `Driver.StepTick` | src/fsm-character.c:41-73 | a tick never changes the state; only position x moves, by `TickDisplacement` |
| `Driver.RunEvents` | src/fsm.h:18-31 | any sequence of events keeps the character in a state with a row |
| `Driver.ConsistentBoundsSpeed` | src/fsm-character.c:9 | standing still or running at full speed bounds the horizontal speed by `PLAYER_MAX_VEL_X` |
| `Driver.StepKeepsConsistent` | src/fsm-character.c:15-66 | one event keeps the character either standing at velocity 0 or running at +-0.25 |
| `Driver.RunEventsKeepsConsistent` | src/fsm-character.c:15-66 | any sequence of events keeps that invariant, so the speed never exceeds 0.25 |
| `Driver.ReleaseInStandRunsOtherWay` | src/fsm-character.c:29-35 | RUN_STOP in Stand never leaves the character standing: it runs at 0.25 away from the released key (left if RIGHT was set, else right) |
| `Driver.RunStartInStandRuns` | src/fsm-character.c:27-28 | in Stand, RUN_START ends in Run with the velocity `RunVelocity(opts)` the unchanged `opts` gives: +0.25 if the RIGHT bit is set, else -0.25 |
| `Driver.ReleaseLeftRunsRight` | src/fsm.h:26-31 | the header's case: in Stand, RUN_STOP carrying LEFT ends in Run at velocity +0.25 |
| `Driver.ReleaseLeftWhileStanding` | src/fsm.h:26-31 | the same case on a `Character`, through the handlers themselves |
| `Driver.PressBothThenReleaseOne` | src/fsm-character.c:27-35 | press RIGHT, press LEFT, release RIGHT: from standing the character ends up running left at full speed |
| `Driver.OtherEventsChangeNothing` | src/fsm-character.c:38 | JUMP, JUMP_STOP and FALL change neither state nor velocity, in Stand or Run |
| `Driver.DirectionEventInRunStops` | src/fsm-character.c:58-64 | in Run, RUN_START or RUN_STOP ends in Stand at velocity 0 |

## Left out

- `src/sewer-cleanup.c`: SDL window, renderer, event polling and frame presentation are I/O with no bearing on the state machine.
- The `SDL_Log` call in `CharacterEnterRun` is a logging side effect.
- Allocating and freeing the table (`SDL_calloc`, `destroyCharacterFSM`) and the global `FSMsCharacter`: the table is the immutable function `InitCharacterFsm`.
- Single-precision floats: positions and velocities are exact reals. No rounding is modelled, including the one when `delta` is converted to float.
- `PLAYER_START_VEL_X` and `PLAYER_MAX_ACC_X`: no handler uses them.
- The facing flag bits: the field exists on `Character`, but no handler reads or writes it.
- The `SC_AppState` fields and the scheduler and event router they would serve: these files contain no code that uses them.
- Aliasing of `opts`: it is passed by pointer and modelled as a value. Handlers that may rewrite it (`InputStand`, `ExitStand`, `ExitRun`) take it and return `opts'`; `EnterStand` and `EnterRun` only take it; `InputRun`, `TickStand` and `TickRun` do not take it. The harness assumes `opts` points to storage of its caller's own, not into the character; the source files contain no caller that would show otherwise.
- The unused `el` parameter: the pure handlers `TickStand(delta, now)` and `InputRun(e, now)` take no character, since neither reads or writes one. Every other handler takes it. The unused `opts` parameter: `CharacterInputRun` takes `Uint64 *opts` but never reads or writes it, so `InputRun` drops it and the `Input` dispatch passes `opts` on unchanged; no behaviour is lost. The tick handlers have no `opts` in the C code either. `now` is kept everywhere the C handlers take it, although no handler uses it.
