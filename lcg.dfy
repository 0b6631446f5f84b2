/** The linear-congruential pseudo-random generator of FilaSimples.py:
    previous' = (A * previous + C) mod M, with a budget of draws
    held in a counter. A draw on a spent budget fails and changes nothing. */
module Lcg {

  const A: int := 1664525
  const C: int := 1013904223
  const M: int := 0x1_0000_0000  // 2^32

  datatype Option<T> = None | Some(value: T)

  /** One step of the recurrence. Python's `%` with a positive modulus is
      floored, so the result is never negative; Dafny's Euclidean `%` agrees. */
  function Advance(previous: int): (r: int)
    ensures 0 <= r < M
  {
    (A * previous + C) % M
  }

  /** The seed advanced k times. */
  function Iterate(seed: int, k: nat): (r: int)
    ensures k > 0 ==> 0 <= r < M
  {
    if k == 0 then seed else Advance(Iterate(seed, k - 1))
  }

  /** The two module-level globals: `previous` and `random_count`. */
  datatype GenState = GenState(previous: int, remaining: int)

  datatype DrawOutcome = Exhausted | Drawn(variate: real, after: GenState)

  /** What one call of next_random does to the generator state. */
  function Draw(g: GenState): (d: DrawOutcome)
    ensures d.Exhausted? <==> g.remaining <= 0
    ensures d.Drawn? ==> d.after.remaining == g.remaining - 1
    ensures d.Drawn? ==> d.after.previous == Advance(g.previous)
    ensures d.Drawn? ==> 0.0 <= d.variate < 1.0
    ensures d.Drawn? ==> d.variate * M as real == d.after.previous as real
  {
    if g.remaining <= 0 then Exhausted
    else
      var p := Advance(g.previous);
      Drawn(Variate(p), GenState(p, g.remaining - 1))
  }

  /** k successive draws: the variates and the state after them, or None
      when one of them fails. */
  function DrawMany(g: GenState, k: nat): (r: Option<(seq<real>, GenState)>)
    ensures r.Some? ==> |r.value.0| == k && r.value.1.remaining == g.remaining - k
    ensures r.Some? ==> forall i :: 0 <= i < k ==> 0.0 <= r.value.0[i] < 1.0
    decreases k
  {
    if k == 0 then Some(([], g))
    else match Draw(g)
      case Exhausted => None
      case Drawn(x, g1) =>
        match DrawMany(g1, k - 1)
        case None => None
        case Some(rest) => Some(([x] + rest.0, rest.1))
  }

  lemma {:induction false} IterateShift(seed: int, k: nat)
    ensures Iterate(Advance(seed), k) == Iterate(seed, k + 1)
  {
    if k > 0 {
      IterateShift(seed, k - 1);
    }
  }

  /** After reset_random(seed, n) with n >= 0, exactly n draws succeed: k
      successive draws succeed if and only if k <= n. */
  lemma {:induction false} BudgetIsExact(seed: int, n: nat, k: nat)
    ensures DrawMany(GenState(seed, n), k).Some? <==> k <= n
    decreases k
  {
    if k > 0 && n > 0 {
      BudgetIsExact(Advance(seed), n - 1, k - 1);
    }
  }

  /** The variate that a draw leaving `previous` in the generator returns. */
  function Variate(previous: int): (v: real)
    ensures 0 <= previous < M ==> 0.0 <= v < 1.0
    ensures v * M as real == previous as real
  {
    previous as real / M as real
  }

  /** The k variates that follow `seed`. */
  function Stream(seed: int, k: nat): (r: seq<real>)
    ensures |r| == k
    ensures forall i :: 0 <= i < k ==> 0.0 <= r[i] < 1.0
    decreases k
  {
    if k == 0 then [] else [Variate(Advance(seed))] + Stream(Advance(seed), k - 1)
  }

  /** The stream after reset_random(seed, n) is a function of (seed, n) alone:
      k <= n draws return Stream(seed, k) and leave the seed advanced k times
      with n - k draws left. */
  lemma {:induction false} DrawManyIsStream(seed: int, n: nat, k: nat)
    requires k <= n
    ensures DrawMany(GenState(seed, n), k) == Some((Stream(seed, k), GenState(Iterate(seed, k), n - k)))
    decreases k
  {
    if k > 0 {
      DrawManyIsStream(Advance(seed), n - 1, k - 1);
      IterateShift(seed, k - 1);
    }
  }

  /** The j-th variate of the stream is the seed advanced j + 1 times, over M. */
  lemma {:induction false} StreamAt(seed: int, k: nat, j: nat)
    requires j < k
    ensures Stream(seed, k)[j] == Variate(Iterate(seed, j + 1))
    decreases k
  {
    var next := Advance(seed);
    assert Stream(seed, k) == [Variate(next)] + Stream(next, k - 1);
    if j == 0 {
      assert Iterate(seed, 1) == Advance(Iterate(seed, 0));
    } else {
      StreamAt(next, k - 1, j - 1);
      IterateShift(seed, j);
    }
  }

  /** The generator's globals `previous` and `random_count` as one object. */
  class Generator {
    var previous: int
    var randomCount: int

    /** The module-level initial values, before any reset_random. */
    constructor ()
      ensures previous == 0 && randomCount == 0
    {
      previous := 0;
      randomCount := 0;
    }

    function State(): GenState
      reads this
    {
      GenState(previous, randomCount)
    }

    /** reset_random: discard the old stream. */
    method Reset(seed: int, count: int)
      modifies this
      ensures State() == GenState(seed, count)
    {
      previous := seed;
      randomCount := count;
    }

    /** next_random: None stands for the raised exception; on None the
        state is unchanged, otherwise it advances as Draw says. */
    method Next() returns (x: Option<real>)
      modifies this
      ensures Draw(old(State())).Exhausted? ==> x == None && State() == old(State())
      ensures Draw(old(State())).Drawn? ==>
                x == Some(Draw(old(State())).variate) && State() == Draw(old(State())).after
    {
      if randomCount <= 0 {
        return None;
      }
      randomCount := randomCount - 1;
      previous := Advance(previous);
      x := Some(Variate(previous));
    }
  }
}
