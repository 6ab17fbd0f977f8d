/**
 * The declarations the character state machine is built from (src/fsm.h):
 * the closed event and state enumerations, the integer convention that
 * `input` and `tick` handlers use to report "no change" or a next state,
 * and the four-slot handler row a state table is made of.
 */
module Fsm {

  datatype Option<T> = None | Some(value: T)

  /** `Uint64`, the type of tick counts (`now`) and tick lengths (`delta`). */
  newtype u64 = x: int | 0 <= x < 0x1_0000_0000_0000_0000

  /** `SC_Event`: the abstract events a state's `input` handler receives. */
  datatype Event = RunStart | RunStop | Jump | JumpStop | Fall

  /** `SC_Character_State`: the movement states, in enumeration order. */
  datatype State = Stand | RunStart | Run | RunStop | StandJump | StandFall

  /** `SC_FSM_NO_CHANGE`: the value a handler returns to stay in its state. */
  const NoChangeCode: int := -1

  /** `SC_CHARACTER_MOVE_STATE_TOTAL`: the number of rows of a state table. */
  const StateTotal: int := 6

  /** The enumerator value C gives each state. */
  function StateId(s: State): (n: int)
    ensures 0 <= n < StateTotal
    ensures n != NoChangeCode
  {
    match s
    case Stand => 0
    case RunStart => 1
    case Run => 2
    case RunStop => 3
    case StandJump => 4
    case StandFall => 5
  }

  /** The state an integer names, if it names one. */
  function StateOfId(n: int): (r: Option<State>)
    ensures r.Some? <==> 0 <= n < StateTotal
    ensures r.Some? ==> StateId(r.value) == n
  {
    if n == 0 then Some(Stand)
    else if n == 1 then Some(State.RunStart)
    else if n == 2 then Some(Run)
    else if n == 3 then Some(State.RunStop)
    else if n == 4 then Some(StandJump)
    else if n == 5 then Some(StandFall)
    else None
  }

  lemma StateIdRoundTrip(s: State)
    ensures StateOfId(StateId(s)) == Some(s)
  {
  }

  /** Distinct states have distinct enumerator values. */
  lemma StateIdInjective(a: State, b: State)
    ensures StateId(a) == StateId(b) ==> a == b
  {
  }

  /** Every state, in enumeration order. */
  function AllStates(): (all: seq<State>)
    ensures |all| == StateTotal
    ensures forall i :: 0 <= i < |all| ==> StateId(all[i]) == i
  {
    [Stand, State.RunStart, Run, State.RunStop, StandJump, StandFall]
  }

  /** The enumeration has exactly `StateTotal` members: every state is listed once. */
  lemma StateTotalCountsStates(s: State)
    ensures s in AllStates()
    ensures forall i, j :: 0 <= i < j < |AllStates()| ==> AllStates()[i] != AllStates()[j]
  {
  }

  /** The enumerator value C gives each event. */
  function EventId(e: Event): (n: int)
    ensures 0 <= n < 5
  {
    match e
    case RunStart => 0
    case RunStop => 1
    case Jump => 2
    case JumpStop => 3
    case Fall => 4
  }

  /** The event an integer names, if it names one: exactly the values 0 to 4 do. */
  function EventOfId(n: int): (r: Option<Event>)
    ensures r.Some? <==> 0 <= n < 5
    ensures r.Some? ==> EventId(r.value) == n
  {
    if n == 0 then Some(Event.RunStart)
    else if n == 1 then Some(Event.RunStop)
    else if n == 2 then Some(Jump)
    else if n == 3 then Some(JumpStop)
    else if n == 4 then Some(Fall)
    else None
  }

  lemma EventIdRoundTrip(e: Event)
    ensures EventOfId(EventId(e)) == Some(e)
  {
  }

  /** What an `input` or `tick` handler asks of its caller. */
  datatype Transition = NoChange | To(next: State)

  /** The `int` a handler returns for a transition. */
  function TransitionCode(t: Transition): (n: int)
    ensures n == NoChangeCode <==> t.NoChange?
    ensures t.To? ==> n == StateId(t.next)
    ensures NoChangeCode <= n < StateTotal
  {
    match t
    case NoChange => NoChangeCode
    case To(s) => StateId(s)
  }

  /** How a caller reads a handler's `int`: -1 or a state value, nothing else. */
  function TransitionOfCode(n: int): (r: Option<Transition>)
    ensures r.Some? <==> NoChangeCode <= n < StateTotal
    ensures r.Some? ==> TransitionCode(r.value) == n
  {
    if n == NoChangeCode then Some(NoChange)
    else match StateOfId(n)
      case Some(s) => Some(To(s))
      case None => None
  }

  lemma TransitionRoundTrip(t: Transition)
    ensures TransitionOfCode(TransitionCode(t)) == Some(t)
  {
  }

  /**
   * `SC_FSM`: one state's row of four handlers. The slot types are left to
   * the machine that fills the table. Their C signatures are
   *   enter(el, opts*), exit(el, opts*),
   *   input(el, event, now, opts*) -> int, tick(el, delta, now, opts*) -> int,
   * where `el` is the entity and `opts` a 64-bit bit set passed by reference.
   */
  datatype Row<Enter, Exit, Input, Tick> = Row(enter: Enter, exit: Exit, input: Input, tick: Tick)
}
