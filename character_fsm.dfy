/**
 * The character movement machine of src/fsm-character.c: the Stand and Run
 * handlers, the RIGHT/LEFT bits of the `opts` side channel, and the table
 * `initCharacterFSM` builds, in which only the Stand and Run rows are filled.
 *
 * `opts` is a `Uint64` the caller owns and passes by reference. A handler
 * that may rewrite it takes its value and returns the value it leaves
 * behind (`opts'`), which is what the next handler of the same call sees.
 */
module CharacterFsm {
  import opened Fsm
  import opened Types

  /** `PLAYER_MAX_VEL_X`: running speed in px/ms. */
  const PlayerMaxVelX: real := 0.25

  /** `CHARACTER_MOVE_RIGHT` and `CHARACTER_MOVE_LEFT`: the direction bits of `opts`. */
  const MoveRight: bv64 := 0x1
  const MoveLeft: bv64 := 0x2

  /** `opts` holds exactly one direction bit and nothing else. */
  predicate SingleDirection(opts: bv64)
  {
    opts == MoveRight || opts == MoveLeft
  }

  /** An `input` handler's verdict together with the `opts` it leaves behind. */
  datatype InputResult = InputResult(next: Transition, opts: bv64)

  // ---------------------------------------------------------------------
  // Stand

  /** `CharacterEnterStand`: the character stops. */
  method EnterStand(c: Character, opts: bv64)
    modifies c`velX
    ensures c.velX == 0.0
  {
    c.velX := 0.0;
  }

  /** `CharacterExitStand`: does nothing, to the character or to `opts`. */
  method ExitStand(c: Character, opts: bv64) returns (opts': bv64)
    ensures opts' == opts
  {
    opts' := opts;
  }

  /**
   * What `CharacterInputStand` decides. RUN_START asks for Run and keeps
   * `opts`, so the run goes the way `opts` says. RUN_STOP also asks for Run,
   * away from the released key: `opts` becomes LEFT when its RIGHT bit is set
   * (also when both bits are), else RIGHT. All other events leave the
   * character standing and `opts` alone.
   */
  function StandInput(e: Event, opts: bv64): (r: InputResult)
    ensures r.next.To? <==> (e == Event.RunStart || e == Event.RunStop)
    ensures r.next.To? ==> r.next.next == Run
    ensures e != Event.RunStop ==> r.opts == opts
    ensures e == Event.RunStop ==> SingleDirection(r.opts)
    ensures e == Event.RunStop ==> (r.opts == MoveLeft <==> opts & MoveRight != 0)
  {
    if e == Event.RunStart then InputResult(To(Run), opts)
    else if e == Event.RunStop then
      var update := if opts & MoveRight > 0 then MoveLeft else MoveRight;
      InputResult(To(Run), (opts & !opts) | update)
    else InputResult(NoChange, opts)
  }

  /** `CharacterInputStand`: rewrites `opts` in place before asking for Run. */
  method InputStand(c: Character, e: Event, now: u64, opts: bv64) returns (next: Transition, opts': bv64)
    ensures InputResult(next, opts') == StandInput(e, opts)
  {
    opts' := opts;
    if e == Event.RunStart {
      next := To(Run);
    } else if e == Event.RunStop {
      var update: bv64 := if opts' & MoveRight > 0 then MoveLeft else MoveRight;
      opts' := opts' & !opts';
      opts' := opts' | update;
      next := To(Run);
    } else {
      next := NoChange;
    }
  }

  /** `CharacterTickStand`: a standing character never asks to move on. */
  function TickStand(delta: u64, now: u64): (r: Transition)
    ensures r == NoChange
  {
    NoChange
  }

  // ---------------------------------------------------------------------
  // Run

  /**
   * The velocity `CharacterEnterRun` gives: full speed, to the right exactly
   * when the RIGHT bit of `opts` is set, to the left otherwise (so also when
   * `opts` is 0).
   */
  function RunVelocity(opts: bv64): (v: real)
    ensures v == PlayerMaxVelX || v == -PlayerMaxVelX
    ensures v > 0.0 <==> opts & MoveRight != 0
  {
    var dir: real := if opts & MoveRight > 0 then 1.0 else -1.0;
    dir * PlayerMaxVelX
  }

  /** `CharacterEnterRun`: sets the horizontal velocity from `opts`. */
  method EnterRun(c: Character, opts: bv64)
    modifies c`velX
    ensures c.velX == RunVelocity(opts)
    ensures c.velX == PlayerMaxVelX || c.velX == -PlayerMaxVelX
  {
    var dir: real := if opts & MoveRight > 0 then 1.0 else -1.0;
    c.velX := dir * PlayerMaxVelX;
  }

  /** `CharacterExitRun`: does nothing, to the character or to `opts`. */
  method ExitRun(c: Character, opts: bv64) returns (opts': bv64)
    ensures opts' == opts
  {
    opts' := opts;
  }

  /**
   * `CharacterInputRun`: RUN_START or RUN_STOP while running asks for
   * Stand; nothing else changes state. `opts` is not touched.
   */
  function InputRun(e: Event, now: u64): (r: Transition)
    ensures r.To? <==> (e == Event.RunStart || e == Event.RunStop)
    ensures r.To? ==> r.next == Stand
  {
    if e == Event.RunStop then To(Stand)
    else if e == Event.RunStart then To(Stand)
    else NoChange
  }

  /** `CharacterTickRun`: moves the character by one tick at constant velocity. */
  method TickRun(c: Character, delta: u64, now: u64) returns (r: Transition)
    modifies c`posX
    ensures c.posX == old(c.posX) + delta as real * c.velX
    ensures r == NoChange
  {
    c.posX := c.posX + delta as real * c.velX;
    r := NoChange;
  }

  // ---------------------------------------------------------------------
  // The table

  /** Names of the handlers a row's slots can point at. */
  datatype EnterFn = EnterStandFn | EnterRunFn
  datatype ExitFn = ExitStandFn | ExitRunFn
  datatype InputFn = InputStandFn | InputRunFn
  datatype TickFn = TickStandFn | TickRunFn

  type CharacterRow = Row<EnterFn, ExitFn, InputFn, TickFn>

  const StandRow: CharacterRow := Row(EnterStandFn, ExitStandFn, InputStandFn, TickStandFn)
  const RunRow: CharacterRow := Row(EnterRunFn, ExitRunFn, InputRunFn, TickRunFn)

  /**
   * `initCharacterFSM`: a zero-filled table of `StateTotal` rows (`None` is
   * a row of null pointers) in which the Stand and Run rows are then filled
   * with their own handlers.
   */
  function InitCharacterFsm(): (table: seq<Option<CharacterRow>>)
    ensures |table| == StateTotal
    ensures forall s: State :: table[StateId(s)].Some? <==> (s == Stand || s == Run)
    ensures table[StateId(Stand)] == Some(StandRow)
    ensures table[StateId(Run)] == Some(RunRow)
  {
    var zeroed: seq<Option<CharacterRow>> := seq(StateTotal, _ => None);
    zeroed[StateId(Stand) := Some(StandRow)][StateId(Run) := Some(RunRow)]
  }

  /** The states whose handlers may be called: those with a filled row. */
  predicate HasRow(s: State)
  {
    InitCharacterFsm()[StateId(s)].Some?
  }

  /** The row of a state that has one. */
  function RowOf(s: State): (row: CharacterRow)
    requires HasRow(s)
    ensures s == Stand ==> row == StandRow
    ensures s == Run ==> row == RunRow
  {
    InitCharacterFsm()[StateId(s)].value
  }

  /** Only Stand and Run can be dispatched to. */
  lemma HasRowExactly(s: State)
    ensures HasRow(s) <==> (s == Stand || s == Run)
  {
  }

  // ---------------------------------------------------------------------
  // Dispatch through the table, as a caller of `FSMsCharacter[state].x` does

  /** The horizontal velocity a state's `enter` handler sets. */
  function EnterVelocity(s: State, opts: bv64): (v: real)
    requires HasRow(s)
    ensures s == Stand ==> v == 0.0
    ensures s == Run ==> v == RunVelocity(opts)
  {
    match RowOf(s).enter
    case EnterStandFn => 0.0
    case EnterRunFn => RunVelocity(opts)
  }

  method Enter(c: Character, s: State, opts: bv64)
    requires HasRow(s)
    modifies c`velX
    ensures c.velX == EnterVelocity(s, opts)
  {
    match RowOf(s).enter
    case EnterStandFn => EnterStand(c, opts);
    case EnterRunFn => EnterRun(c, opts);
  }

  method Exit(c: Character, s: State, opts: bv64) returns (opts': bv64)
    requires HasRow(s)
    ensures opts' == opts
  {
    match RowOf(s).exit
    case ExitStandFn => opts' := ExitStand(c, opts);
    case ExitRunFn => opts' := ExitRun(c, opts);
  }

  /**
   * What a state's `input` handler decides. Every state it asks for has a
   * row of its own, and only Stand's handler rewrites `opts`.
   */
  function InputOf(s: State, e: Event, now: u64, opts: bv64): (r: InputResult)
    requires HasRow(s)
    ensures r.next.To? ==> HasRow(r.next.next)
    ensures s == Stand ==> r == StandInput(e, opts)
    ensures s == Run ==> r == InputResult(InputRun(e, now), opts)
  {
    match RowOf(s).input
    case InputStandFn => StandInput(e, opts)
    case InputRunFn => InputResult(InputRun(e, now), opts)
  }

  method Input(c: Character, s: State, e: Event, now: u64, opts: bv64) returns (next: Transition, opts': bv64)
    requires HasRow(s)
    ensures InputResult(next, opts') == InputOf(s, e, now, opts)
  {
    match RowOf(s).input
    case InputStandFn =>
      next, opts' := InputStand(c, e, now, opts);
    case InputRunFn =>
      next, opts' := InputRun(e, now), opts;
  }

  /** How far a state's `tick` handler moves the character horizontally. */
  function TickDisplacement(s: State, delta: u64, velX: real): (d: real)
    requires HasRow(s)
    ensures s == Stand ==> d == 0.0
    ensures s == Run ==> d == delta as real * velX
  {
    match RowOf(s).tick
    case TickStandFn => 0.0
    case TickRunFn => delta as real * velX
  }

  /** A state's `tick` handler: never asks for a transition. */
  method Tick(c: Character, s: State, delta: u64, now: u64) returns (r: Transition)
    requires HasRow(s)
    modifies c`posX
    ensures c.posX == old(c.posX) + TickDisplacement(s, delta, c.velX)
    ensures r == NoChange
  {
    match RowOf(s).tick
    case TickStandFn =>
      r := TickStand(delta, now);
    case TickRunFn =>
      r := TickRun(c, delta, now);
  }
}
