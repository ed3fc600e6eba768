/** Binding observed outputs to planned arms. */
module QmsumRecords {
  import opened Outcome
  import opened QmsumPlan

  datatype RecordError =
    | ArmNotAdmitted
    | DuplicateOutput
    | DispatchAfterUnresolved
    | CandidateNotAdmitted
    | OrderDiffers

  // ------------------------------------------------------------ what is acceptable

  /** `xs` is obtained from `keys` by leaving some of them out. */
  predicate Subsequence(keys: seq<Key>, xs: seq<Key>) {
    if xs == [] then true
    else if keys == [] then false
    else if keys[0] == xs[0] then Subsequence(keys[1..], xs[1..])
    else Subsequence(keys[1..], xs)
  }

  function KeysOf(records: seq<ArmRecord>): (keys: seq<Key>)
    ensures |keys| == |records|
    ensures forall i :: 0 <= i < |records| ==> keys[i] == KeyOf(records[i])
  {
    if records == [] then [] else [KeyOf(records[0])] + KeysOf(records[1..])
  }

  /** The planned arm with a given key. */
  function Lookup(cases: seq<PlannedCase>, k: Key): Option<PlannedArm> {
    if cases == [] then None
    else if cases[0].id == k.0 && FindArm(cases[0].arms, k.1).Some? then FindArm(cases[0].arms, k.1)
    else Lookup(cases[1..], k)
  }

  function FindArm(arms: seq<PlannedArm>, arm: Arm): Option<PlannedArm> {
    if arms == [] then None else if arms[0].arm == arm then Some(arms[0]) else FindArm(arms[1..], arm)
  }

  predicate CitesPlanned(plan: Plan, r: ArmRecord) {
    r.arm == C ==> Lookup(plan.cases, KeyOf(r)).Some? && r.candidate == Lookup(plan.cases, KeyOf(r)).value.candidate
  }

  /** The records follow the planned order without repetition, only the last may
      be unresolved, and each C record cites the planned candidate. */
  predicate Acceptable(plan: Plan, records: seq<ArmRecord>) {
    && Subsequence(PlannedKeys(plan.cases), KeysOf(records))
    && (forall i :: 0 <= i < |records| - 1 ==> !Unresolved(records[i]))
    && (forall i :: 0 <= i < |records| ==> CitesPlanned(plan, records[i]))
  }

  // ------------------------------------------------------------ the code's form of it

  function Position(keys: seq<Key>, k: Key): (p: nat)
    requires k in keys
    ensures p < |keys| && keys[p] == k
  {
    if keys[0] == k then 0 else 1 + Position(keys[1..], k)
  }

  predicate Ascending(keys: seq<Key>, xs: seq<Key>)
    requires forall x :: x in xs ==> x in keys
  {
    forall i, j :: 0 <= i < j < |xs| ==> Position(keys, xs[i]) <= Position(keys, xs[j])
  }

  function Collect(keys: seq<Key>, observed: map<Key, ArmRecord>): seq<ArmRecord> {
    if keys == [] then []
    else (if keys[0] in observed then [observed[keys[0]]] else []) + Collect(keys[1..], observed)
  }

  lemma {:induction false} SubsequenceMembers(keys: seq<Key>, xs: seq<Key>)
    requires Subsequence(keys, xs)
    ensures |xs| <= |keys|
    ensures forall x :: x in xs ==> x in keys
    decreases |keys|
  {
    if xs != [] {
      assert xs == [xs[0]] + xs[1..];
      if keys[0] == xs[0] { SubsequenceMembers(keys[1..], xs[1..]); } else { SubsequenceMembers(keys[1..], xs); }
    }
  }

  /** A subsequence of distinct keys is distinct and in ascending positions. */
  lemma {:induction false} SubsequenceAscends(keys: seq<Key>, xs: seq<Key>)
    requires NoRepeat(keys) && Subsequence(keys, xs)
    ensures forall x :: x in xs ==> x in keys
    ensures NoRepeat(xs) && Ascending(keys, xs)
    decreases |keys|
  {
    SubsequenceMembers(keys, xs);
    if xs != [] {
      var rest := keys[1..];
      assert keys[0] !in rest;
      if keys[0] == xs[0] {
        SubsequenceMembers(rest, xs[1..]);
        SubsequenceAscends(rest, xs[1..]);
        forall i, j | 0 <= i < j < |xs| ensures Position(keys, xs[i]) <= Position(keys, xs[j]) && xs[i] != xs[j] {
          if i > 0 { assert xs[i] == xs[1..][i - 1]; }
          assert xs[j] == xs[1..][j - 1];
        }
      } else {
        SubsequenceMembers(rest, xs);
        SubsequenceAscends(rest, xs);
      }
    }
  }

  /** Dropping the first key, and the first element if it is that key, keeps the rest in place. */
  lemma {:induction false} RestMembers(keys: seq<Key>, xs: seq<Key>, ys: seq<Key>)
    requires NoRepeat(keys) && (forall x :: x in xs ==> x in keys) && NoRepeat(xs) && Ascending(keys, xs)
    requires xs != [] && keys != [] && ys == if keys[0] == xs[0] then xs[1..] else xs
    ensures forall y :: y in ys ==> y in keys[1..]
  {
    forall y | y in ys ensures y in keys[1..] {
      var j :| 0 <= j < |ys| && ys[j] == y;
      if keys[0] == xs[0] {
        assert xs[j + 1] == y && xs[0] != xs[j + 1];
      } else {
        assert Position(keys, xs[0]) <= Position(keys, xs[j]);
      }
    }
  }

  lemma {:induction false} RestAscends(keys: seq<Key>, xs: seq<Key>, ys: seq<Key>, d: nat)
    requires NoRepeat(keys) && keys != [] && (forall x :: x in xs ==> x in keys) && Ascending(keys, xs)
    requires d <= |xs| && ys == xs[d..] && forall y :: y in ys ==> y in keys[1..]
    ensures Ascending(keys[1..], ys)
  {
    forall i, j | 0 <= i < j < |ys| ensures Position(keys[1..], ys[i]) <= Position(keys[1..], ys[j]) {
      assert ys[i] in ys && ys[j] in ys && xs[i + d] == ys[i] && xs[j + d] == ys[j];
      PositionInRest(keys, ys[i]);
      PositionInRest(keys, ys[j]);
    }
  }

  /** Conversely, distinct keys in ascending positions form a subsequence. */
  lemma {:induction false} SubsequenceStep(keys: seq<Key>, xs: seq<Key>, ys: seq<Key>)
    requires keys != [] && xs != [] && ys == (if keys[0] == xs[0] then xs[1..] else xs) && Subsequence(keys[1..], ys)
    ensures Subsequence(keys, xs)
  {
  }

  lemma {:induction false} RestDistinct(xs: seq<Key>, d: nat)
    requires NoRepeat(xs) && d <= |xs|
    ensures NoRepeat(xs[d..])
  {
    forall i, j | 0 <= i < j < |xs| - d ensures xs[d..][i] != xs[d..][j] { assert xs[d + i] != xs[d + j]; }
  }

  lemma {:induction false} AscendingSubsequence(keys: seq<Key>, xs: seq<Key>)
    requires NoRepeat(keys) && (forall x :: x in xs ==> x in keys) && NoRepeat(xs) && Ascending(keys, xs)
    ensures Subsequence(keys, xs)
    decreases |keys|
  {
    if xs != [] {
      assert xs[0] in keys;
      var d := if keys[0] == xs[0] then 1 else 0;
      var ys := xs[d..];
      assert xs[0..] == xs;
      RestMembers(keys, xs, ys);
      RestAscends(keys, xs, ys, d);
      RestDistinct(xs, d);
      RestDistinct(keys, 1);
      AscendingSubsequence(keys[1..], ys);
      SubsequenceStep(keys, xs, ys);
    }
  }

  lemma {:induction false} PositionInRest(keys: seq<Key>, k: Key)
    requires NoRepeat(keys) && keys != [] && k in keys[1..]
    ensures Position(keys, k) == 1 + Position(keys[1..], k)
  {
    var i :| 0 <= i < |keys[1..]| && keys[1..][i] == k;
    assert keys[0] != keys[i + 1];
  }

  /** Collecting by planned order gives the records back. */
  lemma {:induction false} CollectsAll(keys: seq<Key>, records: seq<ArmRecord>, observed: map<Key, ArmRecord>)
    requires NoRepeat(keys) && Subsequence(keys, KeysOf(records))
    requires forall i :: 0 <= i < |records| ==> KeyOf(records[i]) in observed && observed[KeyOf(records[i])] == records[i]
    requires forall k :: k in keys && k in observed ==> k in KeysOf(records)
    ensures Collect(keys, observed) == records
    decreases |keys|
  {
    if keys == [] {
      assert records == [];
    } else {
      var rest, xs := keys[1..], KeysOf(records);
      assert keys[0] !in rest;
      if records != [] && keys[0] == xs[0] {
        assert KeysOf(records[1..]) == xs[1..];
        CollectsAll(rest, records[1..], observed);
      } else {
        if records != [] {
          SubsequenceMembers(rest, xs);
        }
        assert keys[0] !in observed;
        CollectsAll(rest, records, observed);
      }
    }
  }

  // ------------------------------------------------------------ the method

  predicate AnyUnresolved(records: seq<ArmRecord>) {
    exists i :: 0 <= i < |records| && Unresolved(records[i])
  }

  lemma {:induction false} LookupAgrees(cases: seq<PlannedCase>, k: Key)
    ensures Lookup(cases, k).Some? <==> k in PlannedKeys(cases)
    decreases |cases|
  {
    if cases != [] {
      FindArmAgrees(cases[0].id, cases[0].arms, k.1);
      LookupAgrees(cases[1..], k);
      var first := CaseKeys(cases[0].id, cases[0].arms);
      assert k in first ==> k.0 == cases[0].id;
    }
  }

  lemma {:induction false} FindArmAgrees(id: QuestionId, arms: seq<PlannedArm>, arm: Arm)
    ensures FindArm(arms, arm).Some? <==> (id, arm) in CaseKeys(id, arms)
    decreases |arms|
  {
    if arms != [] {
      FindArmAgrees(id, arms[1..], arm);
      assert CaseKeys(id, arms)[1..] == CaseKeys(id, arms[1..]);
    }
  }

  ghost predicate HasKey(records: seq<ArmRecord>, i: nat, k: Key)
    requires i <= |records|
  {
    exists j :: 0 <= j < i && KeyOf(records[j]) == k
  }

  predicate PlannedAt(plan: Plan, r: ArmRecord) {
    KeyOf(r) in PlannedKeys(plan.cases) && CitesPlanned(plan, r)
  }

  predicate ObservedAt(observed: map<Key, ArmRecord>, r: ArmRecord) {
    KeyOf(r) in observed && observed[KeyOf(r)] == r
  }

  /** The first `i` records passed the checks of the loop and are in `observed`. */
  ghost predicate Bound(plan: Plan, records: seq<ArmRecord>, observed: map<Key, ArmRecord>, i: nat) {
    && i <= |records|
    && (forall k :: 0 <= k < i ==> PlannedAt(plan, records[k]))
    && (forall k :: 0 <= k < i ==> ObservedAt(observed, records[k]))
    && (forall k, j :: 0 <= k < j < i ==> KeyOf(records[k]) != KeyOf(records[j]))
    && (forall k :: k in observed ==> HasKey(records, i, k))
    && (forall k :: 0 <= k < i - 1 ==> !Unresolved(records[k]))
  }

  lemma {:induction false} BindOne(plan: Plan, records: seq<ArmRecord>, observed: map<Key, ArmRecord>, i: nat)
    requires Bound(plan, records, observed, i) && i < |records|
    requires KeyOf(records[i]) in PlannedKeys(plan.cases) && KeyOf(records[i]) !in observed
    requires CitesPlanned(plan, records[i]) && !AnyUnresolved(records[..i])
    ensures Bound(plan, records, observed[KeyOf(records[i]) := records[i]], i + 1)
  {
    var after := observed[KeyOf(records[i]) := records[i]];
    ResolvedSoFar(records, i);
    BindKeys(records, observed, i, after);
    BindValues(records, observed, i, after);
    BindPlanned(plan, records, i);
  }

  lemma {:induction false} BindPlanned(plan: Plan, records: seq<ArmRecord>, i: nat)
    requires i < |records| && forall k :: 0 <= k < i ==> PlannedAt(plan, records[k])
    requires PlannedAt(plan, records[i])
    ensures forall k :: 0 <= k < i + 1 ==> PlannedAt(plan, records[k])
  {
  }

  /** What was observed stays, and the new key was not among it. */
  lemma {:induction false} BindValues(records: seq<ArmRecord>, observed: map<Key, ArmRecord>, i: nat, after: map<Key, ArmRecord>)
    requires i < |records| && KeyOf(records[i]) !in observed
    requires forall k :: 0 <= k < i ==> ObservedAt(observed, records[k])
    requires after == observed[KeyOf(records[i]) := records[i]]
    ensures forall k :: 0 <= k < i + 1 ==> ObservedAt(after, records[k])
    ensures forall k :: 0 <= k < i ==> KeyOf(records[k]) != KeyOf(records[i])
  {
    forall k | 0 <= k < i + 1 ensures ObservedAt(after, records[k]) && (k < i ==> KeyOf(records[k]) != KeyOf(records[i])) {
      if k < i { assert ObservedAt(observed, records[k]); }
    }
  }

  lemma {:induction false} ResolvedSoFar(records: seq<ArmRecord>, i: nat)
    requires i <= |records| && !AnyUnresolved(records[..i])
    ensures forall k :: 0 <= k < i ==> !Unresolved(records[k])
  {
    forall k | 0 <= k < i ensures !Unresolved(records[k]) { assert records[..i][k] == records[k]; }
  }

  lemma {:induction false} BindKeys(records: seq<ArmRecord>, observed: map<Key, ArmRecord>, i: nat, after: map<Key, ArmRecord>)
    requires i < |records| && forall k :: k in observed ==> HasKey(records, i, k)
    requires after == observed[KeyOf(records[i]) := records[i]]
    ensures forall k :: k in after ==> HasKey(records, i + 1, k)
  {
    forall k | k in after ensures HasKey(records, i + 1, k) {
      if k in observed {
        assert HasKey(records, i, k);
      } else {
        assert KeyOf(records[i]) == k;
      }
    }
  }

  lemma {:induction false} BoundKeys(plan: Plan, records: seq<ArmRecord>, observed: map<Key, ArmRecord>)
    requires Bound(plan, records, observed, |records|)
    ensures forall k :: k in KeysOf(records) ==> k in PlannedKeys(plan.cases)
    ensures NoRepeat(KeysOf(records))
    ensures forall k :: k in observed ==> k in KeysOf(records)
  {
    var keys := KeysOf(records);
    forall k | k in keys ensures k in PlannedKeys(plan.cases) {
      var j :| 0 <= j < |keys| && keys[j] == k;
      assert KeyOf(records[j]) == k;
    }
    forall k | k in observed ensures k in keys {
      assert HasKey(records, |records|, k);
      var j :| 0 <= j < |records| && KeyOf(records[j]) == k;
      assert keys[j] == k;
    }
  }

  lemma {:induction false} BoundAccepts(plan: Plan, records: seq<ArmRecord>, observed: map<Key, ArmRecord>)
    requires NoRepeat(PlannedKeys(plan.cases)) && Bound(plan, records, observed, |records|)
    requires forall k :: k in KeysOf(records) ==> k in PlannedKeys(plan.cases)
    requires Ascending(PlannedKeys(plan.cases), KeysOf(records))
    ensures Acceptable(plan, records)
    ensures Collect(PlannedKeys(plan.cases), observed) == records
  {
    BoundKeys(plan, records, observed);
    AscendingSubsequence(PlannedKeys(plan.cases), KeysOf(records));
    CollectsAll(PlannedKeys(plan.cases), records, observed);
  }

  /** Nothing is wrong with record `k` behind those before it. */
  ghost predicate Unobjectionable(plan: Plan, records: seq<ArmRecord>, k: nat)
    requires k < |records|
  {
    && KeyOf(records[k]) in PlannedKeys(plan.cases) && !HasKey(records, k, KeyOf(records[k]))
    && !AnyUnresolved(records[..k]) && CitesPlanned(plan, records[k])
  }

  /** What is wrong with record `k`: the first that applies, in this order. */
  ghost function Objection(plan: Plan, records: seq<ArmRecord>, k: nat): RecordError
    requires k < |records|
  {
    if KeyOf(records[k]) !in PlannedKeys(plan.cases) then ArmNotAdmitted
    else if HasKey(records, k, KeyOf(records[k])) then DuplicateOutput
    else if AnyUnresolved(records[..k]) then DispatchAfterUnresolved
    else CandidateNotAdmitted
  }

  ghost predicate FirstObjection(plan: Plan, records: seq<ArmRecord>, k: nat, e: RecordError) {
    && k < |records| && !Unobjectionable(plan, records, k) && Objection(plan, records, k) == e
    && forall j :: 0 <= j < k ==> Unobjectionable(plan, records, j)
  }

  /** The error is that of the first record with which something is wrong; only if there is
      none, it is that the order differs. */
  ghost predicate Reported(plan: Plan, records: seq<ArmRecord>, e: RecordError) {
    || (exists k :: FirstObjection(plan, records, k, e))
    || (e == OrderDiffers && forall k :: 0 <= k < |records| ==> Unobjectionable(plan, records, k))
  }

  lemma {:induction false} BoundClear(plan: Plan, records: seq<ArmRecord>, observed: map<Key, ArmRecord>, i: nat, k: nat)
    requires Bound(plan, records, observed, i) && k < i
    ensures Unobjectionable(plan, records, k)
  {
  }

  lemma {:induction false} ReportsFirst(plan: Plan, records: seq<ArmRecord>, observed: map<Key, ArmRecord>, i: nat)
    requires Bound(plan, records, observed, i) && i < |records| && !Unobjectionable(plan, records, i)
    ensures Reported(plan, records, Objection(plan, records, i))
  {
    forall k | 0 <= k < i ensures Unobjectionable(plan, records, k) { BoundClear(plan, records, observed, i, k); }
    assert FirstObjection(plan, records, i, Objection(plan, records, i));
  }

  lemma {:induction false} SeenIffObserved(plan: Plan, records: seq<ArmRecord>, observed: map<Key, ArmRecord>, i: nat, k: Key)
    requires Bound(plan, records, observed, i)
    ensures HasKey(records, i, k) <==> k in observed
  {
  }

  lemma {:induction false} ReportsOrder(plan: Plan, records: seq<ArmRecord>, observed: map<Key, ArmRecord>)
    requires Bound(plan, records, observed, |records|)
    ensures Reported(plan, records, OrderDiffers)
  {
    forall k | 0 <= k < |records| ensures Unobjectionable(plan, records, k) {
      BoundClear(plan, records, observed, |records|, k);
    }
  }

  /** Accepts exactly the acceptable record sequences and returns them as given; otherwise
      reports what is wrong with the first record that is objectionable. */
  method RecordObservations(plan: Plan, records: seq<ArmRecord>) returns (r: Result<seq<ArmRecord>, RecordError>)
    requires DistinctArms(plan)
    ensures r.Ok? <==> Acceptable(plan, records)
    ensures r.Ok? ==> r.value == records
    ensures r.Err? ==> Reported(plan, records, r.error)
  {
    var expected := PlannedKeys(plan.cases);
    var observed: map<Key, ArmRecord> := map[];
    for i := 0 to |records|
      invariant Bound(plan, records, observed, i)
    {
      var record := records[i];
      var key := KeyOf(record);
      var planned := Lookup(plan.cases, key);
      LookupAgrees(plan.cases, key);
      SeenIffObserved(plan, records, observed, i, key);
      if planned.None? {
        RejectsMissing(plan, records, i);
        ReportsFirst(plan, records, observed, i);
        return Err(ArmNotAdmitted);
      }
      if key in observed {
        RejectsRepeat(plan, records, observed, i);
        ReportsFirst(plan, records, observed, i);
        return Err(DuplicateOutput);
      }
      if AnyUnresolved(records[..i]) {
        RejectsUnresolved(plan, records, i);
        ReportsFirst(plan, records, observed, i);
        return Err(DispatchAfterUnresolved);
      }
      if record.arm == C && record.candidate != planned.value.candidate {
        assert !CitesPlanned(plan, records[i]);
        ReportsFirst(plan, records, observed, i);
        return Err(CandidateNotAdmitted);
      }
      BindOne(plan, records, observed, i);
      observed := observed[key := record];
    }
    BoundKeys(plan, records, observed);
    if !Ascending(expected, KeysOf(records)) {
      RejectsDescent(plan, records);
      ReportsOrder(plan, records, observed);
      return Err(OrderDiffers);
    }
    BoundAccepts(plan, records, observed);
    r := Ok(Collect(expected, observed));
  }

  lemma {:induction false} RejectsMissing(plan: Plan, records: seq<ArmRecord>, i: nat)
    requires i < |records| && KeyOf(records[i]) !in PlannedKeys(plan.cases)
    ensures !Acceptable(plan, records)
  {
    assert KeysOf(records)[i] in KeysOf(records);
    if Acceptable(plan, records) { SubsequenceMembers(PlannedKeys(plan.cases), KeysOf(records)); }
  }

  lemma {:induction false} RejectsRepeat(plan: Plan, records: seq<ArmRecord>, observed: map<Key, ArmRecord>, i: nat)
    requires DistinctArms(plan) && i < |records| && Bound(plan, records, observed, i) && KeyOf(records[i]) in observed
    ensures !Acceptable(plan, records)
  {
    assert HasKey(records, i, KeyOf(records[i]));
    var j :| 0 <= j < i && KeyOf(records[j]) == KeyOf(records[i]);
    assert KeysOf(records)[j] == KeysOf(records)[i];
    if Acceptable(plan, records) { SubsequenceAscends(PlannedKeys(plan.cases), KeysOf(records)); }
  }

  lemma {:induction false} RejectsUnresolved(plan: Plan, records: seq<ArmRecord>, i: nat)
    requires i < |records| && AnyUnresolved(records[..i])
    ensures !Acceptable(plan, records)
  {
    var j :| 0 <= j < i && Unresolved(records[..i][j]);
    assert Unresolved(records[j]) && j < |records| - 1;
  }

  lemma {:induction false} RejectsDescent(plan: Plan, records: seq<ArmRecord>)
    requires DistinctArms(plan) && forall k :: k in KeysOf(records) ==> k in PlannedKeys(plan.cases)
    requires !Ascending(PlannedKeys(plan.cases), KeysOf(records))
    ensures !Acceptable(plan, records)
  {
    if Acceptable(plan, records) { SubsequenceAscends(PlannedKeys(plan.cases), KeysOf(records)); }
  }
}
