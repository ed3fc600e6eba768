/** What the coordinator's prices, gates and audits mean, apart from how they are computed. */
module BcCosts {
  import opened Outcome
  import opened Text
  import opened Decimals
  import opened BcRunner

  // ------------------------------------------------------------ prices

  /** Prices are per million tokens, and nothing is free but nothing. */
  lemma {:induction false} PricePerMillion(spec: Spec, input: nat, output: nat)
    ensures Price(spec, 0, 0) == 0.0
    ensures Price(spec, input + 1000000, output) == Price(spec, input, output) + spec.inputPrice
    ensures Price(spec, input, output + 1000000) == Price(spec, input, output) + spec.outputPrice
  {
    assert (input + 1000000) as real * spec.inputPrice == input as real * spec.inputPrice + 1000000.0 * spec.inputPrice;
    assert (output + 1000000) as real * spec.outputPrice == output as real * spec.outputPrice + 1000000.0 * spec.outputPrice;
  }

  lemma {:induction false} Monotone(a: real, b: real, price: real)
    requires 0.0 <= a <= b && price >= 0.0
    ensures 0.0 <= a * price <= b * price
  {
    assert (b - a) * price >= 0.0;
    assert (b - a) * price == b * price - a * price;
  }

  lemma {:induction false} CheaperCall(spec: Spec, input: nat, output: nat, limit: nat, cap: nat)
    requires spec.inputPrice > 0.0 && spec.outputPrice > 0.0 && input <= limit && output <= cap
    ensures 0.0 <= Price(spec, input, output) <= Price(spec, limit, cap)
  {
    Monotone(input as real, limit as real, spec.inputPrice);
    Monotone(output as real, cap as real, spec.outputPrice);
  }

  /** A reservation covers every call within the declared context and the stage's output cap. */
  lemma {:induction false} ReservationCovers(spec: Spec, s: Stage, input: nat, output: nat)
    requires ValidSpec(spec) && input <= spec.contextLimit && output <= Cap(spec, s)
    ensures 0.0 <= Price(spec, input, output) <= ReservationCost(spec, s)
  {
    CheaperCall(spec, input, output, spec.contextLimit, Cap(spec, s));
  }

  /** It is no more than that: the largest such call costs all of it. */
  lemma {:induction false} ReservationIsLargestCall(spec: Spec, s: Stage, bound: real)
    requires ValidSpec(spec)
    requires forall input: nat, output: nat :: input <= spec.contextLimit && output <= Cap(spec, s) ==>
               Price(spec, input, output) <= bound
    ensures ReservationCost(spec, s) <= bound
  {
    assert Price(spec, spec.contextLimit, Cap(spec, s)) <= bound;
  }

  predicate WithinLimits(spec: Spec, s: Stage, reply: Reply) {
    0 <= reply.inputTokens <= spec.contextLimit && 0 <= reply.outputTokens <= Cap(spec, s)
  }

  /** What an answer costs by its usage. */
  function AnswerCost(spec: Spec, e: Event): real {
    if e.Answered? && e.reply.inputTokens >= 0 && e.reply.outputTokens >= 0
    then Price(spec, e.reply.inputTokens, e.reply.outputTokens) else 0.0
  }

  function UsageCost(spec: Spec, trace: seq<Event>): real {
    if trace == [] then 0.0
    else UsageCost(spec, trace[..|trace| - 1]) + AnswerCost(spec, trace[|trace| - 1])
  }

  ghost predicate AllWithin(spec: Spec, trace: seq<Event>) {
    forall i :: 0 <= i < |trace| && trace[i].Answered? ==> WithinLimits(spec, trace[i].stage, trace[i].reply)
  }

  /** The answers so far cost no more than the reserves of the answered stages, and these
      are among the reserves spent. */
  ghost predicate Charged(spec: Spec, trace: seq<Event>, m: Monitor) {
    && m.settled <= m.answered <= m.dispatched <= m.settled + 1
    && UsageCost(spec, trace) <= SpentBefore(spec, m.answered)
    && m.spent == SpentBefore(spec, m.dispatched)
    && (m.dispatched > 0 ==> m.spent <= spec.maxTotal)
  }

  lemma {:induction false} ChargedStep(spec: Spec, b: nat, trace: seq<Event>, m: Monitor, e: Event, after: seq<Event>)
    requires ValidSpec(spec) && Charged(spec, trace, m) && Next(spec, b, m, e).Some? && after == trace + [e]
    requires e.Answered? ==> WithinLimits(spec, e.stage, e.reply)
    ensures Charged(spec, after, Next(spec, b, m, e).value)
  {
    assert after[..|after| - 1] == trace;
    if e.Answered? {
      ReservationCovers(spec, e.stage, e.reply.inputTokens, e.reply.outputTokens);
    }
  }

  lemma {:induction false} MonitorCharges(spec: Spec, b: nat, trace: seq<Event>)
    requires ValidSpec(spec) && Feed(spec, b, trace).Some? && AllWithin(spec, trace)
    ensures Charged(spec, trace, Feed(spec, b, trace).value)
    decreases |trace|
  {
    if trace == [] {
      assert Charged(spec, [], IDLE);
    } else {
      var before, e := trace[..|trace| - 1], trace[|trace| - 1];
      FeedLast(spec, b, trace, before, e);
      assert AllWithin(spec, before);
      MonitorCharges(spec, b, before);
      ChargedStep(spec, b, before, Feed(spec, b, before).value, e, trace);
    }
  }

  lemma {:induction false} SpentGrows(spec: Spec, m: nat, n: nat)
    requires ValidSpec(spec) && m <= n <= m + 1
    ensures SpentBefore(spec, m) <= SpentBefore(spec, n)
  {
    ReservationPositive(spec, Summary);
    ReservationPositive(spec, B);
    ReservationPositive(spec, C);
  }

  /** In every run whose answers stay within the limits, all answers together cost at most
      the maximum total. */
  lemma {:induction false} AnswersAffordable(spec: Spec, b: nat, trace: seq<Event>)
    requires ValidSpec(spec) && Feed(spec, b, trace).Some? && AllWithin(spec, trace)
    ensures UsageCost(spec, trace) <= spec.maxTotal
  {
    MonitorCharges(spec, b, trace);
    var m := Feed(spec, b, trace).value;
    SpentGrows(spec, m.answered, m.dispatched);
  }

  // ------------------------------------------------------------ gates

  /** An eligible plan: every request fits the workset with its full output, C even behind a
      summary of full length, the reserves fit the budget, and an enforced occupancy holds. */
  lemma {:induction false} EligibleMeans(spec: Spec, summary: nat, b: nat, c: nat)
    requires ValidSpec(spec)
    ensures BasePlan(spec, Counts(summary, b, c)).eligible.Eligible? <==>
              && summary + Cap(spec, Summary) <= spec.workset && b + Cap(spec, B) <= spec.workset
              && (forall text: nat :: text <= Cap(spec, Summary) ==> FitsBehind(spec, c, text))
              && ReservationCost(spec, Summary) + ReservationCost(spec, B) + ReservationCost(spec, C) <= spec.maxTotal
              && (spec.enforceOccupancy ==>
                    spec.occupancyMin * spec.workset as real <= b as real <= spec.occupancyMax * spec.workset as real)
  {
    OccupancyMultiplied(spec, b);
    LongestFits(spec, c);
  }

  /** C with `text` tokens of summary, the slack and its full output fits the workset. */
  predicate FitsBehind(spec: Spec, c: nat, text: nat) {
    c + text + spec.slack + Cap(spec, C) <= spec.workset
  }

  lemma {:induction false} LongestFits(spec: Spec, c: nat)
    ensures (forall text: nat :: text <= Cap(spec, Summary) ==> FitsBehind(spec, c, text))
            <==> FitsBehind(spec, c, Cap(spec, Summary))
  {
  }

  lemma {:induction false} Ordered(a: real, b: real, y: real)
    requires y > 0.0
    ensures a <= b <==> a * y <= b * y
  {
    assert (b - a) * y == b * y - a * y;
    if a <= b {
      assert (b - a) * y >= 0.0;
    } else {
      assert (b - a) * y < 0.0;
    }
  }

  lemma {:induction false} QuotientAtLeast(x: real, y: real, bound: real)
    requires y > 0.0
    ensures bound <= x / y <==> bound * y <= x
    ensures x / y <= bound <==> x <= bound * y
  {
    var q := x / y;
    assert q * y == x;
    Ordered(bound, q, y);
    Ordered(q, bound, y);
  }

  lemma {:induction false} OccupancyMultiplied(spec: Spec, b: nat)
    requires ValidSpec(spec)
    ensures OccupancyMet(spec, b) <==>
            spec.occupancyMin * spec.workset as real <= b as real <= spec.occupancyMax * spec.workset as real
  {
    QuotientAtLeast(b as real, spec.workset as real, spec.occupancyMin);
    QuotientAtLeast(b as real, spec.workset as real, spec.occupancyMax);
  }

  /** C is admitted exactly when its count is within the ratio of B's and fits the workset; so
      it is smaller than B. */
  lemma {:induction false} CAdmittedMeans(spec: Spec, b: nat, tokens: nat)
    requires ValidSpec(spec)
    ensures CAdmitted(spec, b, tokens) <==>
              tokens as real <= b as real * spec.reduction && tokens + Cap(spec, C) <= spec.workset
    ensures CAdmitted(spec, b, tokens) && b > 0 ==> tokens < b
  {
    FloorAtLeast(tokens, b as real * spec.reduction);
    if b > 0 { BelowShare(tokens, b, spec.reduction); }
  }

  lemma {:induction false} BelowShare(n: nat, b: nat, ratio: real)
    requires b > 0 && ratio < 1.0
    ensures n as real <= b as real * ratio ==> n < b
  {
    Shrinks(b as real, ratio);
    BelowReal(n, b, b as real * ratio);
  }

  lemma {:induction false} BelowReal(n: nat, b: nat, x: real)
    requires x < b as real
    ensures n as real <= x ==> n < b
  {
  }

  lemma {:induction false} Shrinks(x: real, ratio: real)
    requires x > 0.0 && ratio < 1.0
    ensures x * ratio < x
  {
    assert x * (1.0 - ratio) > 0.0;
    assert x * (1.0 - ratio) == x - x * ratio;
  }

  lemma {:induction false} FloorAtLeast(n: nat, x: real)
    ensures n <= x.Floor <==> n as real <= x
  {
  }

  // ------------------------------------------------------------ replies

  /** The part is missing, or taking it away leaves a rest. */
  predicate PartOf(part: Option<int>, whole: int) {
    part.None? || (part.value >= 0 && whole - part.value >= 0)
  }

  /** A reply is valid exactly when it has a usage of which cached and reasoning tokens are a
      part, a cost under the frozen price, a reason to finish, and no foreign model. */
  lemma {:induction false} ValidReplyMeans(reply: Reply, spec: Spec)
    ensures ValidReply(reply, spec) <==>
              && reply.inputTokens >= 0 && PartOf(reply.cached, reply.inputTokens)
              && reply.outputTokens >= 0 && PartOf(reply.reasoning, reply.outputTokens)
              && reply.cost.Finite? && reply.cost.value >= 0.0 && reply.costIdentity == spec.priceIdentity
              && reply.finishReason != "" && reply.model in [None, Some(spec.modelId)]
  {
    assert reply.model in [None, Some(spec.modelId)] <==> reply.model == None || reply.model == Some(spec.modelId);
  }

  /** A summary is sent on exactly when it was finished, has some text, and cites source
      segments and nothing else. */
  lemma {:induction false} UsableMeans(reply: Reply, spec: Spec)
    ensures Usable(reply, spec) <==>
              && reply.finishReason == "stop"
              && (exists i :: 0 <= i < |reply.content| && !IsSpace(reply.content[i]))
              && |reply.citations| > 0
              && forall i :: 0 <= i < |reply.citations| ==> reply.citations[i] in spec.segments
  {
    var i, j := TrimIs(reply.content);
    if i < j { assert !IsSpace(reply.content[i]); }
    forall c | c in reply.citations ensures exists k :: 0 <= k < |reply.citations| && reply.citations[k] == c {}
  }

  /** A run ends without citation issues exactly when C cites something, and nothing that is
      not a source segment which the summary cited too. */
  lemma {:induction false} ReviewMeans(reply: Reply, summary: Reply, spec: Spec)
    ensures ReviewStatus(reply, summary, spec) == AwaitingReview <==>
              && reply.citations != []
              && forall i :: 0 <= i < |reply.citations| ==>
                   reply.citations[i] in spec.segments && reply.citations[i] in summary.citations
    ensures ReviewStatus(reply, summary, spec) != AwaitingReview ==>
              ReviewStatus(reply, summary, spec) == AwaitingReviewWithCitationIssues
  {
    var clean := forall i :: 0 <= i < |reply.citations| ==>
                   reply.citations[i] in spec.segments && reply.citations[i] in summary.citations;
    if clean {
      forall c | c in reply.citations ensures c in spec.segments && c in summary.citations {
        var i :| 0 <= i < |reply.citations| && reply.citations[i] == c;
      }
    }
    if ReviewStatus(reply, summary, spec) == AwaitingReview {
      forall i | 0 <= i < |reply.citations|
        ensures reply.citations[i] in spec.segments && reply.citations[i] in summary.citations
      {
        assert reply.citations[i] in Cited(reply, spec);
      }
    }
  }
}
