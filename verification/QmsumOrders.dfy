/** The seeded, balanced assignment of a first arm to each question. */
module QmsumOrders {
  import opened Outcome
  import opened QmsumPlan

  const WORD := 0x1_0000_0000

  /** The fixed 32-bit generator. */
  function NextU32(state: nat): (next: nat)
    ensures next < WORD
  {
    (1_664_525 * state + 1_013_904_223) % WORD
  }

  function Swap<T>(s: seq<T>, i: nat, j: nat): (r: seq<T>)
    requires i < |s| && j < |s|
    ensures |r| == |s|
  {
    s[i := s[j]][j := s[i]]
  }

  /** The shuffle from `index` down, with the generator state it leaves behind. */
  function Shuffle<T>(s: seq<T>, state: nat, index: nat): (r: (seq<T>, nat))
    requires index < |s| || index == 0
    ensures |r.0| == |s|
    decreases index
  {
    if index == 0 then (s, state)
    else
      var next := NextU32(state);
      Shuffle(Swap(s, index, next % (index + 1)), next, index - 1)
  }

  lemma {:induction false} SwapKeeps<T>(s: seq<T>, i: nat, j: nat)
    requires i < |s| && j < |s|
    ensures multiset(Swap(s, i, j)) == multiset(s)
  {
  }

  /** Whatever the seed, the shuffle is a permutation. */
  lemma {:induction false} ShufflePermutes<T>(s: seq<T>, state: nat, index: nat)
    requires index < |s| || index == 0
    ensures multiset(Shuffle(s, state, index).0) == multiset(s)
    decreases index
  {
    if index > 0 {
      var next := NextU32(state);
      var j := next % (index + 1);
      SwapKeeps(s, index, j);
      ShufflePermutes(Swap(s, index, j), next, index - 1);
    }
  }

  /** The shuffle as it is done, in place. */
  method ShuffleInPlace(a: array<QuestionId>, seed: nat) returns (state: nat)
    modifies a
    ensures (a[..], state) == Shuffle(old(a[..]), seed, if a.Length == 0 then 0 else a.Length - 1)
  {
    state := seed;
    if a.Length == 0 {
      return;
    }
    var index := a.Length - 1;
    ghost var whole := Shuffle(a[..], seed, a.Length - 1);
    while index > 0
      invariant 0 <= index < a.Length
      invariant whole == Shuffle(a[..], state, index)
    {
      state := NextU32(state);
      var exchange := state % (index + 1);
      ghost var before := a[..];
      a[index], a[exchange] := a[exchange], a[index];
      assert a[..] == Swap(before, index, exchange);
      index := index - 1;
    }
  }

  function Other(arm: Arm): Arm {
    if arm == B then C else B
  }

  /** Arms alternate along the permutation; the last draw may invert them all. */
  function FirstArm(i: nat, invert: bool): Arm {
    if (i % 2 == 0) != invert then B else C
  }

  function Assign(ids: seq<QuestionId>, invert: bool): (orders: seq<ArmOrder>)
    ensures |orders| == |ids|
  {
    if ids == [] then []
    else
      var n := |ids| - 1;
      Assign(ids[..n], invert) + [ArmOrder(ids[n], FirstArm(n, invert), Other(FirstArm(n, invert)))]
  }

  function OrderIds(orders: seq<ArmOrder>): (ids: seq<QuestionId>)
    ensures |ids| == |orders|
    ensures forall i :: 0 <= i < |orders| ==> ids[i] == orders[i].id
  {
    if orders == [] then [] else OrderIds(orders[..|orders| - 1]) + [orders[|orders| - 1].id]
  }

  function BFirst(orders: seq<ArmOrder>): nat {
    if orders == [] then 0 else BFirst(orders[..|orders| - 1]) + if orders[|orders| - 1].first == B then 1 else 0
  }

  /** With two arms, two different ones are both of them. */
  predicate BothArms(orders: seq<ArmOrder>) {
    forall i :: 0 <= i < |orders| ==> orders[i].first != orders[i].second
  }

  /** Every question once and both arms in some order ... */
  lemma {:induction false} AssignCovers(ids: seq<QuestionId>, invert: bool)
    ensures OrderIds(Assign(ids, invert)) == ids
    ensures BothArms(Assign(ids, invert))
    decreases |ids|
  {
    if ids != [] {
      var n := |ids| - 1;
      AssignCovers(ids[..n], invert);
      OrderIdsSnoc(Assign(ids[..n], invert), ArmOrder(ids[n], FirstArm(n, invert), Other(FirstArm(n, invert))), ids[..n]);
      assert ids == ids[..n] + [ids[n]];
    }
  }

  lemma {:induction false} OrderIdsSnoc(orders: seq<ArmOrder>, o: ArmOrder, ids: seq<QuestionId>)
    requires OrderIds(orders) == ids && BothArms(orders) && o.first != o.second
    ensures OrderIds(orders + [o]) == ids + [o.id] && BothArms(orders + [o])
  {
    assert (orders + [o])[..|orders|] == orders;
  }

  /** ... and B first for every other one, starting with the first unless inverted. */
  lemma {:induction false} AssignBalances(ids: seq<QuestionId>, invert: bool)
    ensures BFirst(Assign(ids, invert)) == if invert then |ids| / 2 else (|ids| + 1) / 2
    decreases |ids|
  {
    if ids != [] {
      var n := |ids| - 1;
      AssignBalances(ids[..n], invert);
      assert Assign(ids, invert)[..n] == Assign(ids[..n], invert);
    }
  }

  function SeedState(seed: int): nat {
    seed % WORD
  }

  /** Arms alternate, B first unless inverted, and the second arm is the other one. */
  lemma {:induction false} AssignAt(ids: seq<QuestionId>, invert: bool, i: nat)
    requires i < |ids|
    ensures var o := Assign(ids, invert)[i];
            && o.id == ids[i] && o.second != o.first
            && o.first == (if invert then (if i % 2 == 0 then C else B) else (if i % 2 == 0 then B else C))
    decreases |ids|
  {
    var n := |ids| - 1;
    if i < n {
      AssignAt(ids[..n], invert, i);
    }
  }

  /** The generator is linear with its two constants, and a seed is taken by its low 32 bits. */
  lemma {:induction false} GeneratorIs(state: nat, seed: int)
    ensures NextU32(0) == 1013904223 && NextU32(state + 1) == (NextU32(state) + 1664525) % WORD
    ensures SeedState(seed + WORD) == SeedState(seed) && (0 <= seed < WORD ==> SeedState(seed) == seed)
  {
    ModAdd(1_664_525 * state + 1_013_904_223, 1_664_525, WORD);
    ModAdd(seed, WORD, WORD);
    assert (seed + WORD) % WORD == (seed % WORD + WORD) % WORD;
  }

  lemma {:induction false} ModAdd(a: int, b: int, m: nat)
    requires m > 0
    ensures (a + b) % m == (a % m + b) % m
  {
    var q, r := a / m, a % m;
    assert a == m * q + r;
    ModShift(r + b, q, m);
    assert a + b == (r + b) + m * q;
  }

  lemma {:induction false} ModShift(x: int, q: int, m: nat)
    requires m > 0
    ensures (x + m * q) % m == x % m
  {
    var k, r := x / m, x % m;
    assert x + m * q == m * (k + q) + r;
    ModUnique(x + m * q, k + q, r, m);
  }

  lemma {:induction false} MultipleIsFar(d: int, m: nat)
    ensures d >= 1 ==> m * d >= m
    ensures d <= -1 ==> m * d <= -(m as int)
  {
    if d >= 1 {
      assert m * (d - 1) >= 0;
    }
    if d <= -1 {
      assert m * (-1 - d) >= 0;
    }
  }

  lemma {:induction false} ModUnique(x: int, q: int, r: int, m: nat)
    requires m > 0 && x == m * q + r && 0 <= r < m
    ensures x % m == r
  {
    var d := x / m - q;
    assert m * d == r - x % m;
    MultipleIsFar(d, m);
  }

  /** The balanced orders of the complete, unique question set. */
  method BalancedArmOrders(ids: seq<QuestionId>, seed: int) returns (r: Option<seq<ArmOrder>>)
    ensures r.Some? <==> |ids| == QUESTION_COUNT && NoRepeat(ids)
    ensures r.Some? ==>
              && |r.value| == |ids|
              && multiset(OrderIds(r.value)) == multiset(ids)
              && BothArms(r.value)
              && BFirst(r.value) == |ids| / 2
    ensures r.Some? ==>
              var (permutation, state) := Shuffle(ids, SeedState(seed), |ids| - 1);
              r.value == Assign(permutation, NextU32(state) % 2 == 1)
  {
    if |ids| != QUESTION_COUNT || !NoRepeat(ids) {
      return None;
    }
    var permutation := new QuestionId[|ids|](i requires 0 <= i < |ids| => ids[i]);
    assert permutation[..] == ids;
    var state := ShuffleInPlace(permutation, SeedState(seed));
    ShufflePermutes(ids, SeedState(seed), |ids| - 1);
    state := NextU32(state);
    var invert := state % 2 == 1;
    AssignCovers(permutation[..], invert);
    AssignBalances(permutation[..], invert);
    r := Some(Assign(permutation[..], invert));
  }
}
