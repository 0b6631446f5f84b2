/** The aggregation after the event loop of FilaSimples.py: occupancy
    probabilities in percent and the mean population, both weighted by the
    time spent in each state, and both 0 when no time has passed. */
module Statistics {

  function Sum(s: seq<real>): real
    decreases |s|
  {
    if |s| == 0 then 0.0 else s[0] + Sum(s[1..])
  }

  predicate NonNegative(s: seq<real>)
  {
    forall i :: 0 <= i < |s| ==> 0.0 <= s[i]
  }

  /** Adding d to one entry adds d to the sum. */
  lemma {:induction false} SumUpdate(s: seq<real>, i: nat, d: real)
    requires i < |s|
    ensures Sum(s[i := s[i] + d]) == Sum(s) + d
    decreases |s|
  {
    if i > 0 {
      assert s[i := s[i] + d][1..] == s[1..][i - 1 := s[i] + d];
      SumUpdate(s[1..], i - 1, d);
    }
  }

  lemma {:induction false} SumZeros(n: nat)
    ensures Sum(seq(n, _ => 0.0)) == 0.0
    decreases n
  {
    if n > 0 {
      assert seq(n, _ => 0.0)[1..] == seq(n - 1, _ => 0.0);
      SumZeros(n - 1);
    }
  }

  /** Each entry of a non-negative sequence is at most its sum. */
  lemma {:induction false} EntryAtMostSum(s: seq<real>, i: nat)
    requires NonNegative(s) && i < |s|
    ensures 0.0 <= s[i] <= Sum(s)
    decreases |s|
  {
    SumNonNegative(s[1..]);
    if i > 0 {
      EntryAtMostSum(s[1..], i - 1);
    }
  }

  lemma {:induction false} SumNonNegative(s: seq<real>)
    requires NonNegative(s)
    ensures 0.0 <= Sum(s)
    decreases |s|
  {
    if |s| > 0 {
      SumNonNegative(s[1..]);
    }
  }

  /** probabilities = [t / simulation_time * 100 if simulation_time > 0 else 0 ...]:
      each entry is its state's share of the total time, in percent. */
  function Probabilities(timeInState: seq<real>, total: real): (ps: seq<real>)
    ensures |ps| == |timeInState|
    ensures total > 0.0 ==> forall i :: 0 <= i < |ps| ==> ps[i] * total == timeInState[i] * 100.0
    ensures total <= 0.0 ==> forall i :: 0 <= i < |ps| ==> ps[i] == 0.0
  {
    seq(|timeInState|, i requires 0 <= i < |timeInState| =>
      if total > 0.0 then timeInState[i] / total * 100.0 else 0.0)
  }

  lemma {:induction false} SumProbabilitiesScaled(timeInState: seq<real>, total: real)
    requires total > 0.0
    ensures Sum(Probabilities(timeInState, total)) == Sum(timeInState) / total * 100.0
    decreases |timeInState|
  {
    if |timeInState| > 0 {
      var ps := Probabilities(timeInState, total);
      assert ps[1..] == Probabilities(timeInState[1..], total);
      SumProbabilitiesScaled(timeInState[1..], total);
      assert ps[0] == timeInState[0] / total * 100.0;
    }
  }

  /** When the dwell times add up to a positive total, the probabilities
      are between 0 and 100 and add up to 100. */
  lemma ProbabilitiesArePercentages(timeInState: seq<real>, total: real)
    requires NonNegative(timeInState) && Sum(timeInState) == total && total > 0.0
    ensures Sum(Probabilities(timeInState, total)) == 100.0
    ensures forall i :: 0 <= i < |timeInState| ==>
              0.0 <= Probabilities(timeInState, total)[i] <= 100.0
  {
    SumProbabilitiesScaled(timeInState, total);
    SelfQuotient(total);
    forall i | 0 <= i < |timeInState|
      ensures 0.0 <= Probabilities(timeInState, total)[i] <= 100.0
    {
      EntryAtMostSum(timeInState, i);
      assert timeInState[i] / total <= 1.0;
    }
  }

  /** Kept apart: within ProbabilitiesArePercentages Z3 does not find
      this nonlinear step by itself. */
  lemma SelfQuotient(total: real)
    requires total > 0.0
    ensures total / total == 1.0
  {
  }

  /** sum(i * (time_in_state[i] / simulation_time)), indices starting at base. */
  function Shares(timeInState: seq<real>, total: real, base: nat): real
    requires total > 0.0
    decreases |timeInState|
  {
    if |timeInState| == 0 then 0.0
    else base as real * (timeInState[0] / total) + Shares(timeInState[1..], total, base + 1)
  }

  /** avg_population: the time-weighted mean of the state index. */
  function AvgPopulation(timeInState: seq<real>, total: real): (a: real)
    ensures total > 0.0 ==> a * total == Moment(timeInState, 0)
    ensures total <= 0.0 ==> a == 0.0
  {
    if total > 0.0 then
      SharesIsMoment(timeInState, total, 0);
      Shares(timeInState, total, 0)
    else 0.0
  }

  /** The time-weighted index sum, without the division. */
  function Moment(timeInState: seq<real>, base: nat): real
    decreases |timeInState|
  {
    if |timeInState| == 0 then 0.0
    else base as real * timeInState[0] + Moment(timeInState[1..], base + 1)
  }

  lemma {:induction false} SharesIsMoment(timeInState: seq<real>, total: real, base: nat)
    requires total > 0.0
    ensures Shares(timeInState, total, base) * total == Moment(timeInState, base)
    decreases |timeInState|
  {
    if |timeInState| > 0 {
      SharesIsMoment(timeInState[1..], total, base + 1);
      var x := base as real * (timeInState[0] / total);
      assert x * total == base as real * timeInState[0];
    }
  }

  lemma {:induction false} MomentBounds(timeInState: seq<real>, base: nat)
    requires NonNegative(timeInState) && |timeInState| > 0
    ensures base as real * Sum(timeInState) <= Moment(timeInState, base)
    ensures Moment(timeInState, base) <= (base + |timeInState| - 1) as real * Sum(timeInState)
    decreases |timeInState|
  {
    var t := timeInState;
    if |t| == 1 {
      assert t[1..] == [];
    } else {
      MomentBounds(t[1..], base + 1);
      SumNonNegative(t[1..]);
      var top := (base + |t| - 1) as real;
      assert base as real * t[0] <= top * t[0] by {
        assert base as real <= top;
      }
      assert base as real * Sum(t[1..]) <= (base + 1) as real * Sum(t[1..]);
    }
  }

  /** When the dwell times add up to a positive total, the mean population
      lies between 0 and the highest state index. */
  lemma AvgPopulationBounds(timeInState: seq<real>, total: real)
    requires NonNegative(timeInState) && Sum(timeInState) == total && total > 0.0
    ensures 0.0 <= AvgPopulation(timeInState, total) <= (|timeInState| - 1) as real
  {
    assert |timeInState| > 0;
    SharesIsMoment(timeInState, total, 0);
    MomentBounds(timeInState, 0);
    var avg := Shares(timeInState, total, 0);
    var hi := (|timeInState| - 1) as real;
    assert avg * total <= hi * total;
  }
}
