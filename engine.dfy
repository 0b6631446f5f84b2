/** The event loop of simulate_queue in FilaSimples.py.

    Step is what one iteration of the `while` loop does to the loop's
    variables, and Simulate runs Step until the loop guard fails or a draw
    fails; these are the reference semantics. SimulateQueue is the loop
    itself, over a Generator object, an array of dwell times and an
    event list, and is proved to compute Report(Simulate(p, Init(p))). */
module Engine {
  import opened Lcg
  import opened EventList
  import opened Statistics

  /** The arguments of simulate_queue. */
  datatype Params = Params(
    servers: int,
    capacity: int,
    firstArrival: real,
    minArrival: real,
    maxArrival: real,
    minService: real,
    maxService: real,
    numRandoms: int,
    seed: int)

  /** What the loop relies on but never checks. */
  predicate ValidParams(p: Params)
  {
    && p.servers >= 1
    && p.capacity >= 0
    && p.firstArrival >= 0.0
    && 0.0 <= p.minArrival <= p.maxArrival
    && 0.0 <= p.minService <= p.maxService
  }

  /** Kept apart: in the larger contexts below Z3 does not find this
      nonlinear step by itself. */
  lemma ProductNonNegative(a: real, b: real)
    requires 0.0 <= a && 0.0 <= b
    ensures 0.0 <= a * b
  {
  }

  /** A uniform variate in [0,1] maps into [lo, hi]. */
  lemma Between(lo: real, hi: real, x: real)
    ensures lo <= hi && 0.0 <= x <= 1.0 ==> lo <= lo + (hi - lo) * x <= hi
  {
    if lo <= hi && 0.0 <= x <= 1.0 {
      ProductNonNegative(hi - lo, x);
      ProductNonNegative(hi - lo, 1.0 - x);
      assert (hi - lo) * (1.0 - x) == (hi - lo) - (hi - lo) * x;
    }
  }

  /** service_time = min_service + (max_service - min_service) * x */
  function ServiceTime(p: Params, x: real): (d: real)
    ensures ValidParams(p) && 0.0 <= x < 1.0 ==> p.minService <= d <= p.maxService
  {
    Between(p.minService, p.maxService, x);
    p.minService + (p.maxService - p.minService) * x
  }

  /** interarrival = min_arrival + (max_arrival - min_arrival) * x */
  function Interarrival(p: Params, x: real): (d: real)
    ensures ValidParams(p) && 0.0 <= x < 1.0 ==> p.minArrival <= d <= p.maxArrival
  {
    Between(p.minArrival, p.maxArrival, x);
    p.minArrival + (p.maxArrival - p.minArrival) * x
  }

  /** The loop's variables: current_time, state, losses, time_in_state,
      event_list, and the generator's globals. */
  datatype SimState = SimState(
    clock: real,
    state: int,
    losses: nat,
    timeInState: seq<real>,
    events: seq<Event>,
    gen: GenState)

  /** The variables after one iteration, and whether it ended in `break`. */
  datatype StepResult = StepResult(after: SimState, halted: bool)

  /** The variables just before the loop starts. */
  function Init(p: Params): (s: SimState)
    requires ValidParams(p)
    ensures Inv(p, s)
    ensures s.clock == 0.0 && s.state == 0 && s.losses == 0
    ensures s.events == [Event(p.firstArrival, Arrival)]
  {
    SumZeros(p.capacity + 1);
    assert CountKind([], Arrival) == 0 && CountKind([], Departure) == 0;
    SimState(0.0, 0, 0, seq(p.capacity + 1, _ => 0.0),
             Push([], Event(p.firstArrival, Arrival)), GenState(p.seed, p.numRandoms))
  }

  /** The loop guard: `event_list and random_count > 0`. */
  predicate Running(s: SimState)
  {
    |s.events| > 0 && s.gen.remaining > 0
  }

  /** Draw a service time and schedule a departure; a failed draw breaks. */
  function ScheduleDeparture(p: Params, s: SimState): StepResult
  {
    match Draw(s.gen)
    case Exhausted => StepResult(s, true)
    case Drawn(x, g) =>
      StepResult(s.(events := Push(s.events, Event(s.clock + ServiceTime(p, x), Departure)), gen := g), false)
  }

  /** Draw an interarrival time and schedule the next arrival; a failed draw breaks. */
  function ScheduleArrival(p: Params, s: SimState): StepResult
  {
    match Draw(s.gen)
    case Exhausted => StepResult(s, true)
    case Drawn(x, g) =>
      StepResult(s.(events := Push(s.events, Event(s.clock + Interarrival(p, x), Arrival)), gen := g), false)
  }

  /** heappop, then `time_in_state[state] += event_time - current_time`
      and `current_time = event_time`. */
  function Accrue(s: SimState): (a: SimState)
    requires |s.events| > 0 && 0 <= s.state < |s.timeInState|
    ensures |a.timeInState| == |s.timeInState|
    ensures Sum(a.timeInState) == Sum(s.timeInState) + (a.clock - s.clock)
    ensures |a.events| == |s.events| - 1
    ensures a.state == s.state && a.losses == s.losses && a.gen == s.gen
  {
    var popped := Pop(s.events);
    SumUpdate(s.timeInState, s.state, popped.0.time - s.clock);
    var e := popped.0;
    s.(clock := e.time,
       timeInState := s.timeInState[s.state := s.timeInState[s.state] + (e.time - s.clock)],
       events := popped.1)
  }

  /** One iteration of the loop body: pop the earliest event, accrue the
      elapsed time to the current state, then apply the arrival or the
      departure rule. */
  function Step(p: Params, s: SimState): (r: StepResult)
    requires |s.events| > 0 && 0 <= s.state < |s.timeInState|
    ensures r.after.clock == Pop(s.events).0.time
    ensures |r.after.timeInState| == |s.timeInState|
    ensures r.after.state == if Pop(s.events).0.kind == Departure then s.state - 1
                             else if s.state < p.capacity then s.state + 1 else s.state
    ensures r.after.losses
            == s.losses + (if Pop(s.events).0.kind == Arrival && s.state >= p.capacity then 1 else 0)
  {
    var e := Pop(s.events).0;
    var base := Accrue(s);
    if e.kind == Arrival then
      if s.state < p.capacity then
        var admitted := base.(state := s.state + 1);
        if admitted.state <= p.servers then
          var served := ScheduleDeparture(p, admitted);
          if served.halted then served else ScheduleArrival(p, served.after)
        else
          ScheduleArrival(p, admitted)
      else
        ScheduleArrival(p, base.(losses := s.losses + 1))
    else
      var left := base.(state := s.state - 1);
      if left.state >= p.servers then ScheduleDeparture(p, left) else StepResult(left, false)
  }

  function Min(a: int, b: int): int
  {
    if a <= b then a else b
  }

  /** The largest number of draws a run may make. */
  function Budget(p: Params): nat
  {
    if p.numRandoms > 0 then p.numRandoms else 0
  }

  /** The number of draws made so far. */
  function Used(p: Params, s: SimState): int
  {
    p.numRandoms - s.gen.remaining
  }

  /** What holds at every processed event, including the one that breaks. */
  predicate Accounting(p: Params, s: SimState)
  {
    Tracked(p, s) && s.losses <= Used(p, s)
  }

  /** Accounting without the bound on losses, which a loss breaks until
      its interarrival draw. */
  predicate Tracked(p: Params, s: SimState)
  {
    && 0 <= s.state <= p.capacity
    && |s.timeInState| == p.capacity + 1
    && NonNegative(s.timeInState)
    && Sum(s.timeInState) == s.clock
    && (forall j :: 0 <= j < |s.events| ==> s.clock <= s.events[j].time)
    && 0 <= Used(p, s) <= Budget(p)
  }

  /** The loop invariant: Accounting, and the event list holds exactly one
      arrival and one departure per busy server. */
  predicate Inv(p: Params, s: SimState)
  {
    && Accounting(p, s)
    && CountKind(s.events, Arrival) == 1
    && CountKind(s.events, Departure) == Min(s.state, p.servers)
  }

  /** Popping and accruing keeps Accounting and removes one event. */
  lemma AccrueEffect(p: Params, s: SimState)
    requires ValidParams(p) && Inv(p, s) && Running(s)
    ensures var e := Pop(s.events).0;
            var a := Accrue(s);
            && s.clock <= e.time
            && a.clock == e.time
            && Accounting(p, a)
            && a.state == s.state && a.losses == s.losses && a.gen == s.gen
            && |a.events| == |s.events| - 1
            && (forall k :: CountKind(s.events, k) == CountKind(a.events, k) + (if e.kind == k then 1 else 0))
            && (forall j :: 0 <= j < |s.events| ==> e.time <= s.events[j].time)
  {
    var popped := Pop(s.events);
    var e := popped.0;
    assert e in multiset(s.events);
    SumUpdate(s.timeInState, s.state, e.time - s.clock);
    forall j | 0 <= j < |popped.1|
      ensures e.time <= popped.1[j].time
    {
      assert popped.1[j] in multiset(popped.1);
    }
  }

  /** Scheduling a departure draws once; on success Tracked is kept, one
      draw is added to the count, and one departure to the list. */
  lemma ScheduleDepartureEffect(p: Params, s: SimState)
    requires ValidParams(p) && Tracked(p, s)
    ensures var r := ScheduleDeparture(p, s);
            && (r.halted <==> s.gen.remaining <= 0)
            && (r.halted ==> r.after == s)
            && (!r.halted ==>
                  && Tracked(p, r.after)
                  && Used(p, r.after) == Used(p, s) + 1
                  && r.after.(events := s.events, gen := s.gen) == s
                  && |r.after.events| == |s.events| + 1
                  && CountKind(r.after.events, Arrival) == CountKind(s.events, Arrival)
                  && CountKind(r.after.events, Departure) == CountKind(s.events, Departure) + 1)
  {
  }

  /** Scheduling an arrival draws once; on success Tracked is kept, one
      draw is added to the count, and one arrival to the list. */
  lemma ScheduleArrivalEffect(p: Params, s: SimState)
    requires ValidParams(p) && Tracked(p, s)
    ensures var r := ScheduleArrival(p, s);
            && (r.halted <==> s.gen.remaining <= 0)
            && (r.halted ==> r.after == s)
            && (!r.halted ==>
                  && Tracked(p, r.after)
                  && Used(p, r.after) == Used(p, s) + 1
                  && r.after.(events := s.events, gen := s.gen) == s
                  && |r.after.events| == |s.events| + 1
                  && CountKind(r.after.events, Arrival) == CountKind(s.events, Arrival) + 1
                  && CountKind(r.after.events, Departure) == CountKind(s.events, Departure))
  {
  }

  /** Every iteration keeps Accounting; one that does not break keeps Inv. */
  lemma StepPreservesInv(p: Params, s: SimState)
    requires ValidParams(p) && Inv(p, s) && Running(s)
    ensures Accounting(p, Step(p, s).after)
    ensures !Step(p, s).halted ==> Inv(p, Step(p, s).after)
  {
    if Pop(s.events).0.kind == Arrival {
      ArrivalPreservesInv(p, s);
    } else {
      DeparturePreservesInv(p, s);
    }
  }

  lemma ArrivalPreservesInv(p: Params, s: SimState)
    requires ValidParams(p) && Inv(p, s) && Running(s) && Pop(s.events).0.kind == Arrival
    ensures Accounting(p, Step(p, s).after)
    ensures !Step(p, s).halted ==> Inv(p, Step(p, s).after)
  {
    StepOfArrival(p, s);
    if s.state >= p.capacity {
      LostArrivalPreservesInv(p, s);
    } else if s.state + 1 <= p.servers {
      ServedArrivalPreservesInv(p, s);
    } else {
      QueuedArrivalPreservesInv(p, s);
    }
  }

  /** Step on an arrival, case by case. */
  lemma StepOfArrival(p: Params, s: SimState)
    requires |s.events| > 0 && 0 <= s.state < |s.timeInState| && Pop(s.events).0.kind == Arrival
    ensures s.state >= p.capacity ==>
              Step(p, s) == ScheduleArrival(p, Accrue(s).(losses := s.losses + 1))
    ensures s.state < p.capacity && s.state + 1 <= p.servers ==>
              var served := ScheduleDeparture(p, Accrue(s).(state := s.state + 1));
              Step(p, s) == if served.halted then served else ScheduleArrival(p, served.after)
    ensures s.state < p.capacity && s.state + 1 > p.servers ==>
              Step(p, s) == ScheduleArrival(p, Accrue(s).(state := s.state + 1))
  {
  }

  /** Step on a departure, case by case. */
  lemma StepOfDeparture(p: Params, s: SimState)
    requires |s.events| > 0 && 0 <= s.state < |s.timeInState| && Pop(s.events).0.kind == Departure
    ensures var left := Accrue(s).(state := s.state - 1);
            Step(p, s) == if left.state >= p.servers then ScheduleDeparture(p, left) else StepResult(left, false)
  {
  }

  /** An arrival that finds a free server draws a service time, then an
      interarrival time. */
  lemma ServedArrivalPreservesInv(p: Params, s: SimState)
    requires ValidParams(p) && Inv(p, s) && Running(s) && Pop(s.events).0.kind == Arrival
    requires s.state < p.capacity && s.state + 1 <= p.servers
    ensures var served := ScheduleDeparture(p, Accrue(s).(state := s.state + 1));
            && !served.halted
            && var r := ScheduleArrival(p, served.after);
               && Accounting(p, r.after)
               && (!r.halted ==> Inv(p, r.after))
  {
    AccrueEffect(p, s);
    var admitted := Accrue(s).(state := s.state + 1);
    assert Tracked(p, admitted);
    ScheduleDepartureEffect(p, admitted);
    var served := ScheduleDeparture(p, admitted);
    ScheduleArrivalEffect(p, served.after);
    var r := ScheduleArrival(p, served.after);
    if !r.halted {
      assert CountKind(r.after.events, Arrival) == 1;
      assert CountKind(r.after.events, Departure) == Min(s.state, p.servers) + 1;
    }
  }

  /** An arrival that is accepted but waits for a server draws only an
      interarrival time. */
  lemma QueuedArrivalPreservesInv(p: Params, s: SimState)
    requires ValidParams(p) && Inv(p, s) && Running(s) && Pop(s.events).0.kind == Arrival
    requires s.state < p.capacity && s.state + 1 > p.servers
    ensures var r := ScheduleArrival(p, Accrue(s).(state := s.state + 1));
            !r.halted && Inv(p, r.after)
  {
    AccrueEffect(p, s);
    var admitted := Accrue(s).(state := s.state + 1);
    assert Tracked(p, admitted);
    ScheduleArrivalEffect(p, admitted);
    var r := ScheduleArrival(p, admitted);
    assert CountKind(r.after.events, Arrival) == 1;
    assert CountKind(r.after.events, Departure) == Min(s.state, p.servers);
  }

  /** An arrival at full capacity is a loss and draws an interarrival time. */
  lemma LostArrivalPreservesInv(p: Params, s: SimState)
    requires ValidParams(p) && Inv(p, s) && Running(s) && Pop(s.events).0.kind == Arrival
    requires s.state >= p.capacity
    ensures var r := ScheduleArrival(p, Accrue(s).(losses := s.losses + 1));
            !r.halted && Inv(p, r.after)
  {
    AccrueEffect(p, s);
    var lost := Accrue(s).(losses := s.losses + 1);
    assert Tracked(p, lost);
    ScheduleArrivalEffect(p, lost);
    var r := ScheduleArrival(p, lost);
    assert CountKind(r.after.events, Arrival) == 1;
    assert CountKind(r.after.events, Departure) == Min(s.state, p.servers);
  }

  lemma DeparturePreservesInv(p: Params, s: SimState)
    requires ValidParams(p) && Inv(p, s) && Running(s) && Pop(s.events).0.kind == Departure
    ensures Accounting(p, Step(p, s).after)
    ensures !Step(p, s).halted ==> Inv(p, Step(p, s).after)
  {
    StepOfDeparture(p, s);
    DepartureKeepsInv(p, s);
  }

  /** A departure leaves a busy server; if someone waits, it draws a
      service time for them. */
  lemma DepartureKeepsInv(p: Params, s: SimState)
    requires ValidParams(p) && Inv(p, s) && Running(s) && Pop(s.events).0.kind == Departure
    ensures var left := Accrue(s).(state := s.state - 1);
            if left.state >= p.servers
            then var r := ScheduleDeparture(p, left); !r.halted && Inv(p, r.after)
            else Inv(p, left)
  {
    AccrueEffect(p, s);
    var base := Accrue(s);
    assert CountKind(s.events, Departure) >= 1;
    var left := base.(state := s.state - 1);
    assert Tracked(p, left);
    if left.state >= p.servers {
      ScheduleDepartureEffect(p, left);
      var r := ScheduleDeparture(p, left);
      assert CountKind(r.after.events, Departure) == Min(left.state, p.servers);
    }
  }

  /** Every iteration draws at least once or shrinks the event list; an
      arrival always draws. This is the loop's termination measure. */
  lemma StepDecreases(p: Params, s: SimState)
    requires ValidParams(p) && Inv(p, s) && Running(s)
    ensures Pop(s.events).0.kind == Arrival ==> Step(p, s).after.gen.remaining < s.gen.remaining
    ensures Step(p, s).after.gen.remaining < s.gen.remaining
            || (Step(p, s).after.gen.remaining == s.gen.remaining && |Step(p, s).after.events| < |s.events|)
  {
  }

  /** The loop from state s to its end: the guard fails or a draw fails. */
  function Simulate(p: Params, s: SimState): (f: SimState)
    requires ValidParams(p) && Inv(p, s)
    ensures Accounting(p, f)
    ensures s.clock <= f.clock
    ensures s.losses <= f.losses
    ensures Used(p, f) == Budget(p)
    decreases s.gen.remaining, |s.events|
  {
    if !Running(s) then s
    else
      var r := Step(p, s);
      StepPreservesInv(p, s);
      StepDecreases(p, s);
      StepClock(p, s);
      if r.halted then r.after else Simulate(p, r.after)
  }

  /** One unfolding of Simulate. */
  lemma SimulateUnfold(p: Params, s: SimState)
    requires ValidParams(p) && Inv(p, s) && Running(s)
    ensures Step(p, s).halted ==> Simulate(p, s) == Step(p, s).after
    ensures !Step(p, s).halted ==> Inv(p, Step(p, s).after) && Simulate(p, s) == Simulate(p, Step(p, s).after)
  {
    StepPreservesInv(p, s);
  }

  /** The generator holds the seed advanced once per draw made so far. */
  predicate OnStream(p: Params, s: SimState)
  {
    Used(p, s) >= 0 && s.gen.previous == Iterate(p.seed, Used(p, s))
  }

  /** Scheduling keeps the generator on the stream, whether its draw
      succeeds or not. */
  lemma ScheduleKeepsStream(p: Params, s: SimState)
    requires OnStream(p, s)
    ensures OnStream(p, ScheduleDeparture(p, s).after)
    ensures OnStream(p, ScheduleArrival(p, s).after)
  {
    ScheduleOutcome(p, s);
  }

  /** Every iteration keeps the generator on the stream. */
  lemma StepFollowsStream(p: Params, s: SimState)
    requires ValidParams(p) && Inv(p, s) && Running(s) && OnStream(p, s)
    ensures OnStream(p, Step(p, s).after)
  {
    AccrueEffect(p, s);
    var base := Accrue(s);
    if Pop(s.events).0.kind == Arrival {
      StepOfArrival(p, s);
      if s.state >= p.capacity {
        ScheduleKeepsStream(p, base.(losses := s.losses + 1));
      } else {
        var admitted := base.(state := s.state + 1);
        ScheduleKeepsStream(p, admitted);
        ScheduleKeepsStream(p, ScheduleDeparture(p, admitted).after);
      }
    } else {
      StepOfDeparture(p, s);
      ScheduleKeepsStream(p, base.(state := s.state - 1));
    }
  }

  lemma {:induction false} SimulateFollowsStream(p: Params, s: SimState)
    requires ValidParams(p) && Inv(p, s) && OnStream(p, s)
    ensures OnStream(p, Simulate(p, s))
    decreases s.gen.remaining, |s.events|
  {
    if Running(s) {
      SimulateUnfold(p, s);
      StepFollowsStream(p, s);
      StepDecreases(p, s);
      if !Step(p, s).halted {
        SimulateFollowsStream(p, Step(p, s).after);
      }
    }
  }

  /** A run draws its whole budget from the stream of its seed: it ends with
      the seed advanced once per draw and no draws left. */
  lemma RunConsumesStream(p: Params)
    requires ValidParams(p)
    ensures Simulate(p, Init(p)).gen == GenState(Iterate(p.seed, Budget(p)), p.numRandoms - Budget(p))
  {
    SimulateFollowsStream(p, Init(p));
  }

  /** The popped event is the earliest pending one; its time becomes the
      clock, so the clock never goes back and every accrued delta is >= 0. */
  lemma StepClock(p: Params, s: SimState)
    requires ValidParams(p) && Inv(p, s) && Running(s)
    ensures Step(p, s).after.clock == Pop(s.events).0.time
    ensures s.clock <= Step(p, s).after.clock
    ensures forall j :: 0 <= j < |s.events| ==> Step(p, s).after.clock <= s.events[j].time
    ensures Step(p, s).after.losses >= s.losses
  {
    AccrueEffect(p, s);
    StepPreservesInv(p, s);
  }

  /** The elapsed time goes to the state before the transition and to no
      other state. */
  lemma StepAccrual(p: Params, s: SimState)
    requires ValidParams(p) && Inv(p, s) && Running(s)
    ensures var t := Step(p, s).after;
            && |t.timeInState| == |s.timeInState|
            && t.timeInState[s.state] == s.timeInState[s.state] + (t.clock - s.clock)
            && forall i :: 0 <= i < |s.timeInState| && i != s.state ==> t.timeInState[i] == s.timeInState[i]
  {
  }

  /** An arrival raises the occupancy only when it is below capacity; a
      departure lowers it by one and never below 0. */
  lemma StepOccupancy(p: Params, s: SimState)
    requires ValidParams(p) && Inv(p, s) && Running(s)
    ensures var t := Step(p, s).after;
            && (Pop(s.events).0.kind == Arrival ==>
                  t.state == if s.state < p.capacity then s.state + 1 else s.state)
            && (Pop(s.events).0.kind == Departure ==> s.state >= 1 && t.state == s.state - 1)
            && 0 <= t.state <= p.capacity
  {
    StepPreservesInv(p, s);
    var e := Pop(s.events).0;
    if e.kind == Departure {
      assert CountKind(s.events, Departure) >= 1;
    }
  }

  /** losses grows by exactly one on an arrival at full capacity and by
      nothing on any other event. */
  lemma StepLosses(p: Params, s: SimState)
    requires ValidParams(p) && Inv(p, s) && Running(s)
    ensures Step(p, s).after.losses
            == s.losses + (if Pop(s.events).0.kind == Arrival && s.state == p.capacity then 1 else 0)
  {
  }

  /** Since the guard demands random_count > 0, the first draw of an
      iteration always succeeds: only the interarrival draw after an
      accepted arrival that also drew a service time can fail, and only
      when one draw was left. */
  lemma StepHalts(p: Params, s: SimState)
    requires ValidParams(p) && Inv(p, s) && Running(s)
    ensures Step(p, s).halted <==>
              && Pop(s.events).0.kind == Arrival
              && s.state < p.capacity
              && s.state + 1 <= p.servers
              && s.gen.remaining == 1
  {
  }

  /** The returned dictionary, without the echoed parameters. */
  datatype SimulationResult = SimulationResult(
    simulationTime: real,
    timeInState: seq<real>,
    probabilities: seq<real>,
    losses: nat,
    avgPopulation: real)

  function Report(f: SimState): SimulationResult
  {
    SimulationResult(f.clock, f.timeInState, Probabilities(f.timeInState, f.clock),
                     f.losses, AvgPopulation(f.timeInState, f.clock))
  }

  /** A run that draws anything processes the first arrival, so it ends no
      earlier than first_arrival. */
  lemma {:induction false} RunReachesFirstArrival(p: Params)
    requires ValidParams(p) && p.numRandoms > 0
    ensures Simulate(p, Init(p)).clock >= p.firstArrival
  {
    var s := Init(p);
    assert Running(s);
    StepClock(p, s);
    assert s.events == [Event(p.firstArrival, Arrival)];
    assert Pop(s.events).0 == Event(p.firstArrival, Arrival);
  }

  /** What the returned record promises about any run. */
  lemma ReportIsWellFormed(p: Params, f: SimState)
    requires ValidParams(p) && Accounting(p, f)
    ensures var r := Report(f);
            && |r.timeInState| == p.capacity + 1
            && NonNegative(r.timeInState)
            && Sum(r.timeInState) == r.simulationTime
            && r.simulationTime >= 0.0
            && r.losses <= Budget(p)
            && |r.probabilities| == p.capacity + 1
            && (r.simulationTime > 0.0 ==>
                  && Sum(r.probabilities) == 100.0
                  && 0.0 <= r.avgPopulation <= p.capacity as real)
            && (r.simulationTime == 0.0 ==>
                  && r.avgPopulation == 0.0
                  && forall i :: 0 <= i < |r.probabilities| ==> r.probabilities[i] == 0.0)
  {
    SumNonNegative(f.timeInState);
    if f.clock > 0.0 {
      ProbabilitiesArePercentages(f.timeInState, f.clock);
      AvgPopulationBounds(f.timeInState, f.clock);
    }
  }

  /** The two outcomes of a scheduling draw, spelled out for HandleEvent. */
  lemma ScheduleOutcome(p: Params, s: SimState)
    ensures Draw(s.gen).Exhausted? ==>
              ScheduleDeparture(p, s) == StepResult(s, true) && ScheduleArrival(p, s) == StepResult(s, true)
    ensures Draw(s.gen).Drawn? ==>
              var x := Draw(s.gen).variate;
              && ScheduleDeparture(p, s)
                 == StepResult(s.(events := Push(s.events, Event(s.clock + ServiceTime(p, x), Departure)),
                                  gen := Draw(s.gen).after), false)
              && ScheduleArrival(p, s)
                 == StepResult(s.(events := Push(s.events, Event(s.clock + Interarrival(p, x), Arrival)),
                                  gen := Draw(s.gen).after), false)
  {
  }

  /** One pass of the loop body of simulate_queue, statement by statement.
      `halted` is true where the source executes `break`: a draw failed,
      possibly after `state` has changed. The new loop variables are those
      Step gives. */
  method HandleEvent(p: Params, g: Generator, timeInState: array<real>, currentTime: real,
                     state: int, losses: nat, eventList: seq<Event>)
    returns (time': real, state': int, losses': nat, eventList': seq<Event>, halted: bool)
    requires |eventList| > 0 && 0 <= state < timeInState.Length
    modifies g, timeInState
    ensures Step(p, SimState(currentTime, state, losses, old(timeInState[..]), eventList, old(g.State())))
            == StepResult(SimState(time', state', losses', timeInState[..], eventList', g.State()), halted)
  {
    ghost var before := SimState(currentTime, state, losses, timeInState[..], eventList, g.State());
    halted := false;
    var popped := Pop(eventList);
    var event := popped.0;
    eventList' := popped.1;
    var delta := event.time - currentTime;
    timeInState[state] := timeInState[state] + delta;
    time' := event.time;
    state', losses' := state, losses;
    ghost var base := SimState(time', state', losses', timeInState[..], eventList', g.State());
    assert base == Accrue(before);
    if event.kind == Arrival {
      StepOfArrival(p, before);
      if state' < p.capacity {
        state' := state' + 1;
        if state' <= p.servers {
          ghost var admitted := SimState(time', state', losses', timeInState[..], eventList', g.State());
          ScheduleOutcome(p, admitted);
          var x := g.Next();
          if x.None? {
            halted := true;
            return;
          }
          var serviceTime := ServiceTime(p, x.value);
          eventList' := Push(eventList', Event(time' + serviceTime, Departure));
        }
      } else {
        losses' := losses' + 1;
      }
      ghost var pending := SimState(time', state', losses', timeInState[..], eventList', g.State());
      assert Step(p, before) == ScheduleArrival(p, pending);
      ScheduleOutcome(p, pending);
      var y := g.Next();
      if y.None? {
        halted := true;
        return;
      }
      var interarrival := Interarrival(p, y.value);
      eventList' := Push(eventList', Event(time' + interarrival, Arrival));
    } else {
      StepOfDeparture(p, before);
      state' := state' - 1;
      if state' >= p.servers {
        ghost var left := SimState(time', state', losses', timeInState[..], eventList', g.State());
        ScheduleOutcome(p, left);
        var x := g.Next();
        if x.None? {
          halted := true;
          return;
        }
        var serviceTime := ServiceTime(p, x.value);
        eventList' := Push(eventList', Event(time' + serviceTime, Departure));
      }
    }
  }

  /** simulate_queue. The loop runs HandleEvent until the guard fails or
      an iteration breaks; the trailing interval after the last event is
      never accrued. */
  method SimulateQueue(p: Params) returns (r: SimulationResult)
    requires ValidParams(p)
    ensures r == Report(Simulate(p, Init(p)))
    ensures |r.timeInState| == p.capacity + 1 && NonNegative(r.timeInState)
    ensures Sum(r.timeInState) == r.simulationTime
    ensures r.losses <= Budget(p)
    ensures p.numRandoms > 0 ==> r.simulationTime >= p.firstArrival
    ensures r.simulationTime > 0.0 ==>
              Sum(r.probabilities) == 100.0 && 0.0 <= r.avgPopulation <= p.capacity as real
  {
    var g := new Generator();
    g.Reset(p.seed, p.numRandoms);
    var currentTime := 0.0;
    var state := 0;
    var losses: nat := 0;
    var timeInState := new real[p.capacity + 1](_ => 0.0);
    var eventList := Push([], Event(p.firstArrival, Arrival));
    ghost var target := Simulate(p, Init(p));
    assert timeInState[..] == Init(p).timeInState;
    var halted := false;
    while !halted && |eventList| > 0 && g.randomCount > 0
      invariant timeInState.Length == p.capacity + 1
      invariant !halted ==> Inv(p, SimState(currentTime, state, losses, timeInState[..], eventList, g.State()))
      invariant !halted ==> Simulate(p, SimState(currentTime, state, losses, timeInState[..], eventList, g.State())) == target
      invariant halted ==> SimState(currentTime, state, losses, timeInState[..], eventList, g.State()) == target
      decreases !halted, g.randomCount, |eventList|
    {
      ghost var before := SimState(currentTime, state, losses, timeInState[..], eventList, g.State());
      SimulateUnfold(p, before);
      StepDecreases(p, before);
      currentTime, state, losses, eventList, halted :=
        HandleEvent(p, g, timeInState, currentTime, state, losses, eventList);
    }
    ghost var final := SimState(currentTime, state, losses, timeInState[..], eventList, g.State());
    assert final == target;
    var simulationTime := currentTime;
    var dwell := timeInState[..];
    r := SimulationResult(simulationTime, dwell, Probabilities(dwell, simulationTime),
                          losses, AvgPopulation(dwell, simulationTime));
    ReportIsWellFormed(p, final);
    if p.numRandoms > 0 {
      RunReachesFirstArrival(p);
    }
  }
}
