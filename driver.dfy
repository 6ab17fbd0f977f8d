/**
 * A harness, not part of the source: the calling convention this model
 * assumes, since the source files contain no caller. A caller asks the current state's `input` handler; when it
 * names a new state, the caller runs the old state's `exit`, swaps the state
 * and runs the new state's `enter`, threading the same `opts` through all
 * three calls. A tick calls only the current state's `tick`.
 */
module Driver {
  import opened Fsm
  import opened Types
  import opened CharacterFsm

  /** The part of a character one event can change. */
  datatype Config = Config(state: State, velX: real)

  /** One event as delivered: the event, the time, and the direction hint seeding `opts`. */
  datatype Delivery = Delivery(event: Event, now: u64, opts: bv64)

  /**
   * The outcome of delivering one event: unchanged on "no change",
   * otherwise the requested state with the velocity its `enter` sets from
   * the `opts` the `input` handler left behind.
   */
  function StepOutcome(cfg: Config, e: Event, now: u64, opts: bv64): (r: Config)
    requires HasRow(cfg.state)
    ensures HasRow(r.state)
  {
    var res := InputOf(cfg.state, e, now, opts);
    match res.next
    case NoChange => cfg
    case To(s) => Config(s, EnterVelocity(s, res.opts))
  }

  /** Deliver one event to `c`: input, then exit, state swap and enter on a change. */
  method Step(c: Character, e: Event, now: u64, opts: bv64) returns (t: Transition)
    requires HasRow(c.state)
    modifies c`state, c`velX
    ensures Config(c.state, c.velX) == StepOutcome(Config(old(c.state), old(c.velX)), e, now, opts)
    ensures t == InputOf(old(c.state), e, now, opts).next
    ensures t.NoChange? ==> c.state == old(c.state) && c.velX == old(c.velX)
  {
    var o: bv64;
    t, o := Input(c, c.state, e, now, opts);
    if t.To? {
      o := Exit(c, c.state, o);
      c.state := t.next;
      Enter(c, c.state, o);
    }
  }

  /**
   * Deliver one tick to `c`: the state never changes, only the position.
   * There is no exit/swap/enter branch as in `Step`, because no tick handler
   * of this iteration asks for a transition (`Tick` ensures `NoChange`).
   */
  method StepTick(c: Character, delta: u64, now: u64) returns (t: Transition)
    requires HasRow(c.state)
    modifies c`posX
    ensures t == NoChange
    ensures c.posX == old(c.posX) + TickDisplacement(c.state, delta, c.velX)
  {
    t := Tick(c, c.state, delta, now);
  }

  /**
   * Deliver an event, then a tick: neither breaks `Consistent`, so the speed
   * bound holds after every tick as well as after every event.
   */
  method StepThenTick(c: Character, e: Event, now: u64, opts: bv64, delta: u64)
    requires Consistent(Config(c.state, c.velX))
    modifies c`state, c`velX, c`posX
    ensures Consistent(Config(c.state, c.velX))
    ensures -PlayerMaxVelX <= c.velX <= PlayerMaxVelX
  {
    StepKeepsConsistent(Config(c.state, c.velX), e, now, opts);
    var t := Step(c, e, now, opts);
    t := StepTick(c, delta, now);
  }

  /** Deliver a sequence of events, one after the other. */
  function RunEvents(cfg: Config, ds: seq<Delivery>): (r: Config)
    requires HasRow(cfg.state)
    ensures HasRow(r.state)
    decreases |ds|
  {
    if ds == [] then cfg
    else RunEvents(StepOutcome(cfg, ds[0].event, ds[0].now, ds[0].opts), ds[1..])
  }

  /**
   * Standing still or running at full speed in one direction: the only
   * configurations these handlers produce. It bounds `|velX|` by the
   * maximum speed.
   */
  predicate Consistent(cfg: Config)
  {
    || (cfg.state == Stand && cfg.velX == 0.0)
    || (cfg.state == Run && (cfg.velX == PlayerMaxVelX || cfg.velX == -PlayerMaxVelX))
  }

  lemma ConsistentBoundsSpeed(cfg: Config)
    requires Consistent(cfg)
    ensures HasRow(cfg.state)
    ensures -PlayerMaxVelX <= cfg.velX <= PlayerMaxVelX
  {
  }

  lemma StepKeepsConsistent(cfg: Config, e: Event, now: u64, opts: bv64)
    requires Consistent(cfg)
    ensures Consistent(StepOutcome(cfg, e, now, opts))
  {
  }

  lemma {:induction false} RunEventsKeepsConsistent(cfg: Config, ds: seq<Delivery>)
    requires Consistent(cfg)
    ensures Consistent(RunEvents(cfg, ds))
    decreases |ds|
  {
    if ds != [] {
      StepKeepsConsistent(cfg, ds[0].event, ds[0].now, ds[0].opts);
      RunEventsKeepsConsistent(StepOutcome(cfg, ds[0].event, ds[0].now, ds[0].opts), ds[1..]);
    }
  }

  /**
   * In Stand, RUN_STOP never leaves the character standing: it runs at full
   * speed away from the released key, whatever its velocity was.
   */
  lemma ReleaseInStandRunsOtherWay(velX: real, now: u64, opts: bv64)
    ensures StepOutcome(Config(Stand, velX), Event.RunStop, now, opts)
         == Config(Run, if opts & MoveRight != 0 then -PlayerMaxVelX else PlayerMaxVelX)
  {
  }

  /**
   * In Stand, RUN_START starts a run at full speed in the direction `opts`
   * gives, which the handler passes on unchanged.
   */
  lemma RunStartInStandRuns(velX: real, now: u64, opts: bv64)
    ensures StepOutcome(Config(Stand, velX), Event.RunStart, now, opts) == Config(Run, RunVelocity(opts))
  {
  }

  /**
   * The case from the header's comment: holding both keys the character
   * stands; releasing LEFT (the event carries the LEFT bit) makes it run
   * right.
   */
  lemma ReleaseLeftRunsRight(velX: real, now: u64)
    ensures StepOutcome(Config(Stand, velX), Event.RunStop, now, MoveLeft) == Config(Run, PlayerMaxVelX)
  {
  }

  /** The same case run on a character through the handlers themselves. */
  method ReleaseLeftWhileStanding(c: Character, now: u64)
    requires c.state == Stand
    modifies c`state, c`velX
    ensures c.state == Run && c.velX == PlayerMaxVelX
  {
    ReleaseLeftRunsRight(c.velX, now);
    var t := Step(c, Event.RunStop, now, MoveLeft);
  }

  /**
   * Press RIGHT (run right), press LEFT as well (both held: stand), release
   * RIGHT: the character ends up running left, towards the key still held.
   */
  lemma PressBothThenReleaseOne(now: u64)
    ensures RunEvents(Config(Stand, 0.0),
                      [Delivery(Event.RunStart, now, MoveRight),
                       Delivery(Event.RunStart, now, MoveLeft),
                       Delivery(Event.RunStop, now, MoveRight)])
         == Config(Run, -PlayerMaxVelX)
  {
    var ds := [Delivery(Event.RunStart, now, MoveRight),
               Delivery(Event.RunStart, now, MoveLeft),
               Delivery(Event.RunStop, now, MoveRight)];
    var c1 := StepOutcome(Config(Stand, 0.0), Event.RunStart, now, MoveRight);
    assert c1 == Config(Run, PlayerMaxVelX);
    var c2 := StepOutcome(c1, Event.RunStart, now, MoveLeft);
    assert c2 == Config(Stand, 0.0);
    assert ds[1..][1..] == [Delivery(Event.RunStop, now, MoveRight)];
    assert RunEvents(c2, ds[1..][1..]) == Config(Run, -PlayerMaxVelX);
  }

  /** Events other than pressing or releasing a direction never change anything. */
  lemma OtherEventsChangeNothing(cfg: Config, e: Event, now: u64, opts: bv64)
    requires HasRow(cfg.state)
    requires e != Event.RunStart && e != Event.RunStop
    ensures StepOutcome(cfg, e, now, opts) == cfg
  {
  }

  /** In Run, pressing or releasing a direction stops the character. */
  lemma DirectionEventInRunStops(velX: real, e: Event, now: u64, opts: bv64)
    requires e == Event.RunStart || e == Event.RunStop
    ensures StepOutcome(Config(Run, velX), e, now, opts) == Config(Stand, 0.0)
  {
  }
}
