/** Rebuilding an abstract from an inverted index of words and positions. */
module Abstracts {
  import opened Outcome
  import opened Text

  /** One item of the index, in iteration order; whatever has the wrong type is missing. */
  datatype Entry = Entry(word: Option<string>, positions: Option<seq<Option<int>>>)

  type Placing = map<nat, string>

  // ------------------------------------------------------------ specification

  predicate Usable(position: Option<int>) {
    position.Some? && position.value >= 0
  }

  function PlaceAll(placed: Placing, word: string, positions: seq<Option<int>>): Placing {
    if positions == [] then placed
    else
      var before := PlaceAll(placed, word, positions[..|positions| - 1]);
      var p := positions[|positions| - 1];
      if Usable(p) && p.value !in before then before[p.value := word] else before
  }

  function PlaceEntry(placed: Placing, e: Entry): Placing {
    if e.word.None? || e.positions.None? then placed else PlaceAll(placed, e.word.value, e.positions.value)
  }

  function PlaceEntries(entries: seq<Entry>): Placing {
    if entries == [] then map[] else PlaceEntry(PlaceEntries(entries[..|entries| - 1]), entries[|entries| - 1])
  }

  /** The words placed below position `n`, in order of position. */
  function Below(placed: Placing, n: nat): seq<string> {
    if n == 0 then [] else Below(placed, n - 1) + if n - 1 in placed then [placed[n - 1]] else []
  }

  function Join(words: seq<string>): string {
    if words == [] then ""
    else if |words| == 1 then words[0]
    else Join(words[..|words| - 1]) + " " + words[|words| - 1]
  }

  predicate BoundedBy(placed: Placing, n: nat) {
    forall p :: p in placed ==> p < n
  }

  /** `r` is the text of `words`, or nothing when that is blank. */
  predicate IsText(r: Option<string>, words: seq<string>) {
    var text := Trim(Join(words));
    r == if text == "" then None else Some(text)
  }

  /** `r` is what the placed words read in order of position. */
  ghost predicate Reads(r: Option<string>, placed: Placing) {
    forall n :: BoundedBy(placed, n) ==> IsText(r, Below(placed, n))
  }

  // ------------------------------------------------------------ the method

  method Reconstruct(index: Option<seq<Entry>>) returns (r: Option<string>)
    ensures index.None? ==> r == None
    ensures index.Some? ==> Reads(r, PlaceEntries(index.value))
  {
    if index.None? || index.value == [] {
      NothingPlaced();
      return None;
    }
    var entries := index.value;
    var placed: Placing := map[];
    var n := 0;
    for i := 0 to |entries|
      invariant placed == PlaceEntries(entries[..i]) && BoundedBy(placed, n)
    {
      assert entries[..i + 1][..i] == entries[..i];
      if entries[i].word.Some? && entries[i].positions.Some? {
        placed, n := PlaceWord(placed, n, entries[i].word.value, entries[i].positions.value);
      }
    }
    assert entries[..|entries|] == entries;
    if placed == map[] {
      NothingPlaced();
      return None;
    }
    var text := Trim(Join(Below(placed, n)));
    r := if text == "" then None else Some(text);
    ReadOnce(r, placed, n);
  }

  method PlaceWord(start: Placing, bound: nat, word: string, positions: seq<Option<int>>)
    returns (placed: Placing, n: nat)
    requires BoundedBy(start, bound)
    ensures placed == PlaceAll(start, word, positions) && BoundedBy(placed, n)
  {
    placed, n := start, bound;
    for k := 0 to |positions|
      invariant placed == PlaceAll(start, word, positions[..k]) && BoundedBy(placed, n)
    {
      var p := positions[k];
      assert positions[..k + 1][..k] == positions[..k];
      if Usable(p) && p.value !in placed {
        placed := placed[p.value := word];
        n := if p.value >= n then p.value + 1 else n;
      }
    }
    assert positions[..|positions|] == positions;
  }

  lemma {:induction false} BelowStable(placed: Placing, n: nat, m: nat)
    requires BoundedBy(placed, n) && n <= m
    ensures Below(placed, m) == Below(placed, n)
    decreases m
  {
    if m > n { BelowStable(placed, n, m - 1); }
  }

  /** One bound above every position is as good as another. */
  lemma {:induction false} ReadOnce(r: Option<string>, placed: Placing, n: nat)
    requires BoundedBy(placed, n) && IsText(r, Below(placed, n))
    ensures Reads(r, placed)
  {
    forall m | BoundedBy(placed, m) ensures IsText(r, Below(placed, m)) {
      if n <= m { BelowStable(placed, n, m); } else { BelowStable(placed, m, n); }
    }
  }

  lemma {:induction false} NothingPlaced()
    ensures Reads(None, map[])
  {
    ReadOnce(None, map[], 0);
  }

  lemma {:induction false} HasBound(entries: seq<Entry>) returns (n: nat)
    ensures BoundedBy(PlaceEntries(entries), n)
  {
    n := 0;
    var keys := PlaceEntries(entries).Keys;
    while keys != {}
      invariant forall p :: p in PlaceEntries(entries) ==> p < n || p in keys
      decreases |keys|
    {
      var p :| p in keys;
      n := if p >= n then p + 1 else n;
      keys := keys - {p};
    }
  }

  // ------------------------------------------------------------ who gets a position

  predicate Claims(e: Entry, word: string, p: nat) {
    e.word == Some(word) && e.positions.Some? && Some(p) in e.positions.value
  }

  predicate Claimed(entries: seq<Entry>, word: string, p: nat) {
    exists e :: e in entries && Claims(e, word, p)
  }

  lemma {:induction false} PlaceAllAt(placed: Placing, word: string, positions: seq<Option<int>>, p: nat)
    ensures p in PlaceAll(placed, word, positions) <==> p in placed || Some(p) in positions
    ensures p in PlaceAll(placed, word, positions) ==>
              PlaceAll(placed, word, positions)[p] == if p in placed then placed[p] else word
    decreases |positions|
  {
    if positions != [] {
      var n := |positions| - 1;
      PlaceAllAt(placed, word, positions[..n], p);
      assert positions == positions[..n] + [positions[n]];
    }
  }

  /** Whatever stands at a position was claimed there, and no claimed position stays empty. */
  lemma {:induction false} PlacedIsClaimed(entries: seq<Entry>, p: nat)
    ensures p in PlaceEntries(entries) ==> Claimed(entries, PlaceEntries(entries)[p], p)
    ensures (exists word :: Claimed(entries, word, p)) ==> p in PlaceEntries(entries)
    decreases |entries|
  {
    if entries != [] {
      var n := |entries| - 1;
      var e := entries[n];
      assert entries == entries[..n] + [e];
      PlacedIsClaimed(entries[..n], p);
      if e.word.Some? && e.positions.Some? {
        PlaceAllAt(PlaceEntries(entries[..n]), e.word.value, e.positions.value, p);
        assert Some(p) in e.positions.value ==> Claims(e, e.word.value, p);
      }
      forall word | Claimed(entries, word, p) ensures p in PlaceEntries(entries) {
        assert Claims(e, word, p) || Claimed(entries[..n], word, p);
      }
    }
  }

  /** The first entry that claims a position gets it, whoever claims it later. */
  lemma {:induction false} FirstListedWins(entries: seq<Entry>, i: nat, word: string, p: nat)
    requires i < |entries| && Claims(entries[i], word, p)
    requires forall other :: !Claimed(entries[..i], other, p)
    ensures p in PlaceEntries(entries) && PlaceEntries(entries)[p] == word
    decreases |entries|
  {
    var n := |entries| - 1;
    var e := entries[n];
    if e.word.Some? && e.positions.Some? {
      PlaceAllAt(PlaceEntries(entries[..n]), e.word.value, e.positions.value, p);
    }
    if i < n {
      assert entries[..n][..i] == entries[..i];
      FirstListedWins(entries[..n], i, word, p);
    } else {
      PlacedIsClaimed(entries[..n], p);
    }
  }

  ghost predicate NoDoubleClaim(entries: seq<Entry>) {
    forall v, w, p :: Claimed(entries, v, p) && Claimed(entries, w, p) ==> v == w
  }

  lemma {:induction false} SamePlacing(a: seq<Entry>, b: seq<Entry>)
    requires NoDoubleClaim(a) && forall word, p :: Claimed(a, word, p) <==> Claimed(b, word, p)
    ensures PlaceEntries(a) == PlaceEntries(b)
  {
    var x, y := PlaceEntries(a), PlaceEntries(b);
    forall p: nat ensures (p in x <==> p in y) && (p in x ==> x[p] == y[p]) {
      PlacedIsClaimed(a, p);
      PlacedIsClaimed(b, p);
    }
    assert x.Keys == y.Keys;
  }

  /** When no two words claim one position, the text does not depend on the order of the entries. */
  lemma {:induction false} OrderDoesNotMatter(a: seq<Entry>, b: seq<Entry>, r: Option<string>)
    requires NoDoubleClaim(a) && multiset(a) == multiset(b)
    ensures Reads(r, PlaceEntries(a)) <==> Reads(r, PlaceEntries(b))
  {
    forall e ensures e in a <==> e in b {
      assert e in a <==> e in multiset(a);
    }
    forall word, p ensures Claimed(a, word, p) <==> Claimed(b, word, p) {}
    SamePlacing(a, b);
  }

  // ------------------------------------------------------------ round trip

  /** The index claims for each word exactly the positions where it stands. */
  ghost predicate Indexes(index: seq<Entry>, words: seq<string>) {
    forall word, p: nat :: Claimed(index, word, p) <==> p < |words| && words[p] == word
  }

  /** Adds position `p` to the entry of `word`, which is created if missing. */
  function Record(index: seq<Entry>, word: string, p: nat): seq<Entry> {
    if index == [] then [Entry(Some(word), Some([Some(p)]))]
    else if index[0].word == Some(word) && index[0].positions.Some? then
      [Entry(Some(word), Some(index[0].positions.value + [Some(p)]))] + index[1..]
    else [index[0]] + Record(index[1..], word, p)
  }

  function IndexOf(words: seq<string>): seq<Entry> {
    if words == [] then [] else Record(IndexOf(words[..|words| - 1]), words[|words| - 1], |words| - 1)
  }

  lemma {:induction false} ClaimedHead(e: Entry, rest: seq<Entry>, word: string, p: nat)
    ensures Claimed([e] + rest, word, p) <==> Claims(e, word, p) || Claimed(rest, word, p)
  {
  }

  lemma {:induction false} RecordClaims(index: seq<Entry>, word: string, p: nat, w: string, q: nat)
    ensures Claimed(Record(index, word, p), w, q) <==> Claimed(index, w, q) || (w == word && q == p)
    decreases |index|
  {
    if index == [] {
      ClaimedHead(Entry(Some(word), Some([Some(p)])), [], w, q);
      assert Record(index, word, p) == [Entry(Some(word), Some([Some(p)]))] + [];
    } else {
      assert index == [index[0]] + index[1..];
      ClaimedHead(index[0], index[1..], w, q);
      if index[0].word == Some(word) && index[0].positions.Some? {
        ClaimedHead(Entry(Some(word), Some(index[0].positions.value + [Some(p)])), index[1..], w, q);
      } else {
        RecordClaims(index[1..], word, p, w, q);
        ClaimedHead(index[0], Record(index[1..], word, p), w, q);
      }
    }
  }

  lemma {:induction false} IndexOfIndexes(words: seq<string>)
    ensures Indexes(IndexOf(words), words)
    decreases |words|
  {
    if words != [] {
      var n := |words| - 1;
      IndexOfIndexes(words[..n]);
      forall word, p: nat ensures Claimed(IndexOf(words), word, p) <==> p < |words| && words[p] == word {
        RecordClaims(IndexOf(words[..n]), words[n], n, word, p);
      }
    }
  }

  lemma {:induction false} BelowWords(placed: Placing, words: seq<string>, n: nat)
    requires n <= |words| && forall p :: 0 <= p < |words| ==> p in placed && placed[p] == words[p]
    ensures Below(placed, n) == words[..n]
    decreases n
  {
    if n > 0 {
      BelowWords(placed, words, n - 1);
      assert words[..n] == words[..n - 1] + [words[n - 1]];
    }
  }

  /** Not blank, and as trimming leaves it. */
  predicate Tidy(word: string) {
    word != "" && Trim(word) == word
  }

  lemma {:induction false} TidyEnds(word: string)
    requires word != ""
    ensures Tidy(word) <==> !IsSpace(word[0]) && !IsSpace(word[|word| - 1])
  {
    TrimLeftShorter(word);
    TrimRightShorter(TrimLeft(word));
  }

  lemma {:induction false} TrimLeftShorter(s: string)
    ensures |TrimLeft(s)| <= |s|
    ensures s != "" && IsSpace(s[0]) ==> |TrimLeft(s)| < |s|
    decreases |s|
  {
    if s != "" && IsSpace(s[0]) { TrimLeftShorter(s[1..]); }
  }

  lemma {:induction false} TrimRightShorter(s: string)
    ensures |TrimRight(s)| <= |s|
    ensures s != "" && IsSpace(s[|s| - 1]) ==> |TrimRight(s)| < |s|
    decreases |s|
  {
    if s != "" && IsSpace(s[|s| - 1]) { TrimRightShorter(s[..|s| - 1]); }
  }

  lemma {:induction false} JoinTidy(words: seq<string>)
    requires words != [] && forall i :: 0 <= i < |words| ==> Tidy(words[i])
    ensures Tidy(Join(words))
    decreases |words|
  {
    if |words| > 1 {
      var n := |words| - 1;
      JoinTidy(words[..n]);
      TidyEnds(Join(words[..n]));
      TidyEnds(words[n]);
      TidyEnds(Join(words));
    }
  }

  lemma {:induction false} IndexReadsBack(index: seq<Entry>, words: seq<string>)
    requires Indexes(index, words) && words != [] && forall i :: 0 <= i < |words| ==> Tidy(words[i])
    ensures Reads(Some(Join(words)), PlaceEntries(index))
  {
    var placed := PlaceEntries(index);
    forall p: nat ensures (p in placed <==> p < |words|) && (p in placed ==> placed[p] == words[p]) {
      PlacedIsClaimed(index, p);
      assert p < |words| ==> Claimed(index, words[p], p);
    }
    BelowWords(placed, words, |words|);
    assert words[..|words|] == words;
    JoinTidy(words);
    ReadOnce(Some(Join(words)), placed, |words|);
  }

  /** Indexing tidy words by position and reading the index back joins them by single spaces. */
  lemma {:induction false} RoundTrip(words: seq<string>)
    requires words != [] && forall i :: 0 <= i < |words| ==> Tidy(words[i])
    ensures Reads(Some(Join(words)), PlaceEntries(IndexOf(words)))
  {
    IndexOfIndexes(words);
    IndexReadsBack(IndexOf(words), words);
  }

  // ------------------------------------------------------------ gaps

  /** Where a position goes when a gap of `width` is opened in front of position `g`. */
  function Shift(p: int, g: nat, width: nat): int {
    if p >= g then p + width else p
  }

  function ShiftAll(positions: seq<Option<int>>, g: nat, width: nat): seq<Option<int>> {
    if positions == [] then []
    else
      var p := positions[|positions| - 1];
      ShiftAll(positions[..|positions| - 1], g, width)
      + [if p.Some? then Some(Shift(p.value, g, width)) else None]
  }

  function OpenGap(entries: seq<Entry>, g: nat, width: nat): seq<Entry> {
    if entries == [] then []
    else
      var e := entries[|entries| - 1];
      OpenGap(entries[..|entries| - 1], g, width)
      + [if e.positions.Some? then e.(positions := Some(ShiftAll(e.positions.value, g, width))) else e]
  }

  /** Where a position came from; those inside the gap came from nowhere. */
  function Origin(q: nat, g: nat, width: nat): Option<nat> {
    if q < g then Some(q) else if q >= g + width then Some(q - width) else None
  }

  /** At position `q`, `wide` holds what `placed` held where `q` came from. */
  predicate Opened(placed: Placing, wide: Placing, g: nat, width: nat, q: nat) {
    var o := Origin(q, g, width);
    if o.None? || o.value !in placed then q !in wide else q in wide && wide[q] == placed[o.value]
  }

  lemma {:induction false} ShiftAllAt(positions: seq<Option<int>>, g: nat, width: nat, q: nat)
    ensures Some(q) in ShiftAll(positions, g, width) <==>
              Origin(q, g, width).Some? && Some(Origin(q, g, width).value as int) in positions
    decreases |positions|
  {
    if positions != [] {
      var n := |positions| - 1;
      assert positions == positions[..n] + [positions[n]];
      ShiftAllAt(positions[..n], g, width, q);
    }
  }

  lemma {:induction false} OpenedEntry(placed: Placing, wide: Placing, word: string, positions: seq<Option<int>>,
                                       g: nat, width: nat, q: nat)
    requires Opened(placed, wide, g, width, q)
    ensures Opened(PlaceAll(placed, word, positions), PlaceAll(wide, word, ShiftAll(positions, g, width)), g, width, q)
  {
    ShiftAllAt(positions, g, width, q);
    PlaceAllAt(wide, word, ShiftAll(positions, g, width), q);
    if Origin(q, g, width).Some? {
      PlaceAllAt(placed, word, positions, Origin(q, g, width).value);
    }
  }

  lemma {:induction false} OpenedEntries(entries: seq<Entry>, g: nat, width: nat, q: nat)
    ensures Opened(PlaceEntries(entries), PlaceEntries(OpenGap(entries, g, width)), g, width, q)
    decreases |entries|
  {
    if entries != [] {
      var n := |entries| - 1;
      var head := OpenGap(entries[..n], g, width);
      OpenedEntries(entries[..n], g, width, q);
      assert OpenGap(entries, g, width)[..|head|] == head;
      if entries[n].word.Some? && entries[n].positions.Some? {
        OpenedEntry(PlaceEntries(entries[..n]), PlaceEntries(head), entries[n].word.value,
                    entries[n].positions.value, g, width, q);
      }
    }
  }

  lemma {:induction false} BelowGap(entries: seq<Entry>, g: nat, width: nat, n: nat)
    ensures Below(PlaceEntries(OpenGap(entries, g, width)), n)
         == Below(PlaceEntries(entries), if n <= g then n else if n <= g + width then g else n - width)
    decreases n
  {
    if n > 0 {
      BelowGap(entries, g, width, n - 1);
      OpenedEntries(entries, g, width, n - 1);
    }
  }

  /** Opening a gap anywhere, of any width, leaves the text as it was: every gap between
      positions is closed, and the words beside it become neighbours. */
  lemma {:induction false} GapsAreClosed(entries: seq<Entry>, g: nat, width: nat, r: Option<string>)
    requires Reads(r, PlaceEntries(entries))
    ensures Reads(r, PlaceEntries(OpenGap(entries, g, width)))
  {
    var placed, wide := PlaceEntries(entries), PlaceEntries(OpenGap(entries, g, width));
    var bound := HasBound(entries);
    var n := bound + g + width;
    BelowGap(entries, g, width, n);
    forall p | p in wide ensures p < n {
      OpenedEntries(entries, g, width, p);
    }
    BelowStable(placed, bound, bound + g);
    assert Below(wide, n) == Below(placed, bound);
    ReadOnce(r, wide, n);
  }

  /** Two words at positions 0 and 5 read like two words side by side. */
  lemma {:induction false} GapExample()
    ensures Reads(Some(Join(["a", "b"])), PlaceEntries(OpenGap(IndexOf(["a", "b"]), 1, 4)))
  {
    RoundTrip(["a", "b"]);
    GapsAreClosed(IndexOf(["a", "b"]), 1, 4, Some(Join(["a", "b"])));
  }

  /** The positions that are filled below `n`, in ascending order. */
  function Positions(placed: Placing, n: nat): seq<nat> {
    if n == 0 then [] else Positions(placed, n - 1) + if n - 1 in placed then [n - 1] else []
  }

  /** Word `i` of the text stood at the `i`-th of these positions. */
  lemma {:induction false} PositionsMatch(placed: Placing, n: nat)
    ensures |Positions(placed, n)| == |Below(placed, n)|
    ensures forall i :: 0 <= i < |Positions(placed, n)| ==>
              Positions(placed, n)[i] in placed && Below(placed, n)[i] == placed[Positions(placed, n)[i]]
    decreases n
  {
    if n > 0 { PositionsMatch(placed, n - 1); }
  }

  lemma {:induction false} PositionsAscend(placed: Placing, n: nat)
    ensures forall i, j :: 0 <= i < j < |Positions(placed, n)| ==> Positions(placed, n)[i] < Positions(placed, n)[j]
    ensures forall p :: p in Positions(placed, n) <==> p < n && p in placed
    decreases n
  {
    if n > 0 {
      PositionsAscend(placed, n - 1);
      var before := Positions(placed, n - 1);
      forall i | 0 <= i < |before| ensures before[i] < n - 1 { assert before[i] in before; }
    }
  }

  /** Some entry claims the position. */
  predicate Taken(entries: seq<Entry>, p: nat) {
    exists e :: e in entries && e.word.Some? && e.positions.Some? && Some(p as int) in e.positions.value
  }

  /** No unclaimed position lies between two claimed ones. */
  ghost predicate NoGap(entries: seq<Entry>) {
    forall p: nat, q: nat, r: nat :: p < q < r && Taken(entries, p) && Taken(entries, r) ==> Taken(entries, q)
  }

  /** Words that are neighbours in the text stood at neighbouring positions. */
  predicate NeighboursStood(positions: seq<nat>) {
    forall i :: 0 <= i < |positions| - 1 ==> positions[i + 1] == positions[i] + 1
  }

  lemma {:induction false} TakenIsPlaced(entries: seq<Entry>, p: nat)
    ensures Taken(entries, p) <==> p in PlaceEntries(entries)
  {
    PlacedIsClaimed(entries, p);
    if Taken(entries, p) {
      var e :| e in entries && e.word.Some? && e.positions.Some? && Some(p as int) in e.positions.value;
      assert Claims(e, e.word.value, p);
      assert Claimed(entries, e.word.value, p);
    }
  }

  lemma {:induction false} StepsAdd(positions: seq<nat>, i: nat, j: nat)
    requires NeighboursStood(positions) && i <= j < |positions|
    ensures positions[j] == positions[i] + (j - i)
    decreases j
  {
    if i < j { StepsAdd(positions, i, j - 1); }
  }

  /** Filled positions without a step are filled in between. */
  lemma {:induction false} StepsFill(positions: seq<nat>, p: nat, q: nat, r: nat)
    requires NeighboursStood(positions) && p in positions && r in positions && p < q < r
    requires forall i, j :: 0 <= i < j < |positions| ==> positions[i] < positions[j]
    ensures q in positions
  {
    var i :| 0 <= i < |positions| && positions[i] == p;
    var j :| 0 <= j < |positions| && positions[j] == r;
    assert i < j;
    StepsAdd(positions, i, j);
    StepsAdd(positions, i, i + (q - p));
    assert positions[i + (q - p)] == q;
  }

  /** Between two successive filled positions nothing is filled. */
  lemma {:induction false} NothingBetween(positions: seq<nat>, i: nat)
    requires forall a, b :: 0 <= a < b < |positions| ==> positions[a] < positions[b]
    requires i + 1 < |positions|
    ensures forall q :: positions[i] < q < positions[i + 1] ==> q !in positions
  {
    forall k | 0 <= k < |positions| ensures positions[k] <= positions[i] || positions[k] >= positions[i + 1] {
      assert k <= i || k >= i + 1;
    }
  }

  /** The text invents no adjacency exactly when the index leaves no gap. */
  lemma {:induction false} AdjacencyIff(entries: seq<Entry>, n: nat)
    requires BoundedBy(PlaceEntries(entries), n)
    ensures NeighboursStood(Positions(PlaceEntries(entries), n)) <==> NoGap(entries)
  {
    var placed := PlaceEntries(entries);
    var positions := Positions(placed, n);
    PositionsAscend(placed, n);
    forall p: nat ensures Taken(entries, p) <==> p in positions { TakenIsPlaced(entries, p); }
    if NeighboursStood(positions) {
      forall p: nat, q: nat, r: nat | p < q < r && Taken(entries, p) && Taken(entries, r) ensures Taken(entries, q) {
        StepsFill(positions, p, q, r);
      }
    }
    if NoGap(entries) {
      forall i | 0 <= i < |positions| - 1 ensures positions[i + 1] == positions[i] + 1 {
        NothingBetween(positions, i);
        assert positions[i] in positions && positions[i + 1] in positions;
        var next: nat, last := positions[i] + 1, positions[i + 1];
        assert next < last ==> Taken(entries, next);
      }
    }
  }

  // ------------------------------------------------------------ the text of the words

  /** Where word `i` begins: behind the words before it and one character for each. */
  function Offset(words: seq<string>, i: nat): nat
    requires i <= |words|
  {
    if i == 0 then 0 else Offset(words, i - 1) + |words[i - 1]| + 1
  }

  lemma {:induction false} OffsetPrefix(words: seq<string>, n: nat, i: nat)
    requires i <= n <= |words|
    ensures Offset(words[..n], i) == Offset(words, i)
    decreases i
  {
    if i > 0 { OffsetPrefix(words, n, i - 1); }
  }

  lemma {:induction false} OffsetGrows(words: seq<string>, i: nat, j: nat)
    requires i < j <= |words|
    ensures Offset(words, i) + |words[i]| + 1 <= Offset(words, j)
    decreases j
  {
    if i < j - 1 { OffsetGrows(words, i, j - 1); }
  }

  /** The text ends where a further word's separator would stand. */
  lemma {:induction false} JoinLength(words: seq<string>)
    requires words != []
    ensures |Join(words)| + 1 == Offset(words, |words|)
    decreases |words|
  {
    if |words| > 1 {
      var n := |words| - 1;
      JoinLength(words[..n]);
      OffsetPrefix(words, n, n);
    }
  }

  /** Every word stands at its place, and in front of every word but the first is one space. */
  lemma {:induction false} JoinIs(words: seq<string>, i: nat)
    requires i < |words|
    ensures Offset(words, i) + |words[i]| <= |Join(words)|
    ensures Join(words)[Offset(words, i)..Offset(words, i) + |words[i]|] == words[i]
    ensures i > 0 ==> 0 < Offset(words, i) && Join(words)[Offset(words, i) - 1] == ' '
    decreases |words|
  {
    if |words| > 1 {
      var n := |words| - 1;
      var front := words[..n];
      JoinLength(front);
      OffsetPrefix(words, n, n);
      if i < n {
        JoinIs(front, i);
        OffsetPrefix(words, n, i);
        JoinFront(Join(front), words[n], Join(words), Offset(words, i), |words[i]|);
      } else {
        assert Join(words)[Offset(words, n)..] == words[n];
      }
    }
  }

  lemma {:induction false} JoinFront(front: string, last: string, whole: string, start: nat, length: nat)
    requires whole == front + " " + last && start + length <= |front|
    ensures whole[start..start + length] == front[start..start + length]
    ensures start > 0 ==> whole[start - 1] == front[start - 1]
  {
  }
}
