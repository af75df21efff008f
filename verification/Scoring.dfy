/** The scorers (internal/lead/scoring/scorer.go), over exact reals. */
module Scoring {
  import opened Sequences
  import opened Text
  import opened Leads

  /** A neighbour, as the similarity search returns it. */
  datatype Similar = Similar(companyName: string, status: string, similarity: real)

  // ---------------------------------------------------------------------------------------------
  // The local scorer
  // ---------------------------------------------------------------------------------------------

  function SourceCue(source: string): real {
    var s := ToLower(source);
    if s == "referral" then 0.20
    else if s == "webinar" then 0.15
    else if s == "inbound" || s == "website" then 0.12
    else if s == "manual" then 0.05
    else 0.0
  }

  function SizeCue(companySize: nat): real {
    if companySize >= 1000 then 0.14 else if companySize >= 250 then 0.10 else if companySize >= 50 then 0.06 else 0.0
  }

  function RevenueCue(cents: nat): real {
    if cents >= 10_000_000_00 then 0.12 else if cents >= 1_000_000_00 then 0.07 else 0.0
  }

  function NotesCue(notes: string): real {
    if TrimSpace(notes) != "" then 0.05 else 0.0
  }

  function Prior(lead: Lead): real {
    0.25 + SourceCue(lead.source) + SizeCue(lead.companySize) + RevenueCue(lead.annualRevenue) + NotesCue(lead.notes)
  }

  function OutcomeCue(status: string): real {
    var s := ToLower(status);
    if s == "won" || s == "converted" || s == "customer" then 0.03
    else if s == "lost" || s == "disqualified" then -0.02
    else 0.0
  }

  function Outcomes(similar: seq<Similar>): real {
    if similar == [] then 0.0 else Outcomes(similar[..|similar| - 1]) + OutcomeCue(similar[|similar| - 1].status)
  }

  function Max(a: real, b: real): real {
    if a < b then b else a
  }

  /** The largest similarity, or zero. */
  function Nearness(similar: seq<Similar>): real {
    if similar == [] then 0.0 else Max(Nearness(similar[..|similar| - 1]), similar[|similar| - 1].similarity)
  }

  function Evidence(lead: Lead, similar: seq<Similar>): real {
    Prior(lead) + Outcomes(similar) + Nearness(similar) * 0.18
  }

  /** math.Round(x * 10000) / 10000, for x that is not negative. */
  function Round4(x: real): real {
    (x * 10000.0 + 0.5).Floor as real / 10000.0
  }

  function Settle(score: real): real {
    if score > 0.95 then 0.95 else if score < 0.05 then 0.05 else Round4(score)
  }

  function Probability(lead: Lead, similar: seq<Similar>): real {
    Settle(Evidence(lead, similar))
  }

  method Swap(a: array<real>, i: nat)
    requires 0 < i < a.Length
    modifies a
    ensures a[i - 1] == old(a[i]) && a[i] == old(a[i - 1])
    ensures forall k :: 0 <= k < a.Length && k != i - 1 && k != i ==> a[k] == old(a[k])
    ensures multiset(a[..]) == old(multiset(a[..]))
  {
    a[i - 1], a[i] := a[i], a[i - 1];
  }

  /** sort.Sort(sort.Reverse(...)) */
  method SortDescending(a: array<real>)
    modifies a
    ensures forall i, j :: 0 <= i < j < a.Length ==> a[i] >= a[j]
    ensures multiset(a[..]) == multiset(old(a[..]))
  {
    for k := 0 to a.Length
      invariant forall i, j :: 0 <= i < j < k ==> a[i] >= a[j]
      invariant multiset(a[..]) == multiset(old(a[..]))
    {
      var at := k;
      while 0 < at && a[at - 1] < a[at]
        invariant 0 <= at <= k
        invariant forall i, j :: 0 <= i < j <= k && j != at ==> a[i] >= a[j]
        invariant multiset(a[..]) == multiset(old(a[..]))
      {
        Swap(a, at);
        at := at - 1;
      }
    }
  }

  lemma {:induction false} NearnessIsMax(similar: seq<Similar>)
    ensures Nearness(similar) >= 0.0
    ensures forall s :: s in similar ==> s.similarity <= Nearness(similar)
    ensures Nearness(similar) == 0.0 || exists s :: s in similar && s.similarity == Nearness(similar)
  {
    if similar != [] {
      var rest, last := similar[..|similar| - 1], similar[|similar| - 1];
      NearnessIsMax(rest);
      assert similar == rest + [last];
    }
  }

  /** It is the only number with these three properties. */
  lemma NearnessIs(similar: seq<Similar>, m: real)
    requires m >= 0.0 && forall s :: s in similar ==> s.similarity <= m
    requires m == 0.0 || exists s :: s in similar && s.similarity == m
    ensures Nearness(similar) == m
  {
    NearnessIsMax(similar);
  }

  method ConversionProbability(lead: Lead, similar: seq<Similar>) returns (p: real)
    ensures p == Probability(lead, similar)
  {
    var score := 0.25;
    match ToLower(lead.source) {
      case "referral" => score := score + 0.20;
      case "webinar" => score := score + 0.15;
      case "inbound" => score := score + 0.12;
      case "website" => score := score + 0.12;
      case "manual" => score := score + 0.05;
      case _ =>
    }
    if lead.companySize >= 1000 {
      score := score + 0.14;
    } else if lead.companySize >= 250 {
      score := score + 0.10;
    } else if lead.companySize >= 50 {
      score := score + 0.06;
    }
    if lead.annualRevenue >= 10_000_000_00 {
      score := score + 0.12;
    } else if lead.annualRevenue >= 1_000_000_00 {
      score := score + 0.07;
    }
    if TrimSpace(lead.notes) != "" {
      score := score + 0.05;
    }
    assert score == Prior(lead);
    if |similar| > 0 {
      var similarities := new real[|similar|];
      for k := 0 to |similar|
        invariant score == Prior(lead) + Outcomes(similar[..k])
        invariant forall i :: 0 <= i < k ==> similarities[i] == similar[i].similarity
      {
        similarities[k] := similar[k].similarity;
        var s := ToLower(similar[k].status);
        if s == "won" || s == "converted" || s == "customer" {
          score := score + 0.03;
        } else if s == "lost" || s == "disqualified" {
          score := score - 0.02;
        }
        assert similar[..k + 1][..k] == similar[..k];
      }
      assert similar[..|similar|] == similar;
      ghost var unsorted := similarities[..];
      SortDescending(similarities);
      HeadIsNearness(similar, unsorted, similarities[..]);
      score := score + Max(0.0, similarities[0]) * 0.18;
    }
    if score > 0.95 {
      return 0.95;
    }
    if score < 0.05 {
      return 0.05;
    }
    return Round4(score);
  }

  /** The head of the similarities in descending order, or zero, is the nearness. */
  lemma HeadIsNearness(similar: seq<Similar>, unsorted: seq<real>, sorted: seq<real>)
    requires |similar| == |unsorted| == |sorted| > 0 && multiset(sorted) == multiset(unsorted)
    requires forall i :: 0 <= i < |similar| ==> unsorted[i] == similar[i].similarity
    requires forall i, j :: 0 <= i < j < |sorted| ==> sorted[i] >= sorted[j]
    ensures Nearness(similar) == Max(0.0, sorted[0])
  {
    forall s | s in similar
      ensures s.similarity <= sorted[0]
    {
      var i :| 0 <= i < |similar| && similar[i] == s;
      assert unsorted[i] in multiset(sorted);
    }
    assert sorted[0] in multiset(unsorted);
    var k :| 0 <= k < |unsorted| && unsorted[k] == sorted[0];
    assert similar[k] in similar;
    NearnessIs(similar, Max(0.0, sorted[0]));
  }

  // ---------------------------------------------------------------------------------------------
  // What the score guarantees
  // ---------------------------------------------------------------------------------------------

  function TenThousandths(n: int): real {
    n as real / 10000.0
  }

  ghost predicate IsTenThousandth(p: real) {
    exists n :: p == TenThousandths(n)
  }

  lemma Round4Bounds(x: real, low: int, high: int)
    requires low as real / 10000.0 <= x <= high as real / 10000.0
    ensures low as real / 10000.0 <= Round4(x) <= high as real / 10000.0
    ensures IsTenThousandth(Round4(x))
  {
    var n := (x * 10000.0 + 0.5).Floor;
    assert low <= n <= high;
    assert Round4(x) == TenThousandths(n);
  }

  lemma Round4IsMonotone(x: real, y: real)
    requires x <= y
    ensures Round4(x) <= Round4(y)
  {
    assert (x * 10000.0 + 0.5).Floor <= (y * 10000.0 + 0.5).Floor;
  }

  lemma SettleIsMonotone(x: real, y: real)
    requires x <= y
    ensures Settle(x) <= Settle(y)
  {
    if 0.05 <= x && y <= 0.95 {
      Round4IsMonotone(x, y);
    }
    if 0.05 <= x <= 0.95 {
      Round4Bounds(x, 500, 9500);
    }
    if 0.05 <= y <= 0.95 {
      Round4Bounds(y, 500, 9500);
    }
  }

  /** Every score is a multiple of 1/10000 between 0.05 and 0.95. */
  lemma ProbabilityRange(lead: Lead, similar: seq<Similar>)
    ensures 0.05 <= Probability(lead, similar) <= 0.95
    ensures IsTenThousandth(Probability(lead, similar))
  {
    var x := Evidence(lead, similar);
    if 0.05 <= x <= 0.95 {
      Round4Bounds(x, 500, 9500);
    } else {
      assert 0.95 == TenThousandths(9500) && 0.05 == TenThousandths(500);
    }
  }

  lemma {:induction false} OutcomesOfConcatenation(a: seq<Similar>, b: seq<Similar>)
    ensures Outcomes(a + b) == Outcomes(a) + Outcomes(b)
  {
    if b == [] {
      assert a + b == a;
    } else {
      assert (a + b)[..|a + b| - 1] == a + b[..|b| - 1];
      OutcomesOfConcatenation(a, b[..|b| - 1]);
    }
  }

  lemma {:induction false} OutcomesIgnoreOrder(a: seq<Similar>, b: seq<Similar>)
    requires multiset(a) == multiset(b)
    ensures Outcomes(a) == Outcomes(b)
    decreases |a|
  {
    if a == [] {
      assert |multiset(b)| == |b| == 0;
    } else {
      var last := a[|a| - 1];
      var before, after := LastIsSomewhere(a, b);
      OutcomesIgnoreOrder(a[..|a| - 1], before + after);
      OutcomesOfConcatenation(before + [last], after);
      OutcomesOfConcatenation(before, [last]);
      OutcomesOfConcatenation(before, after);
    }
  }

  /** The score does not depend on the order of the neighbours. */
  lemma ProbabilityIgnoresOrder(lead: Lead, a: seq<Similar>, b: seq<Similar>)
    requires multiset(a) == multiset(b)
    ensures Probability(lead, a) == Probability(lead, b)
  {
    OutcomesIgnoreOrder(a, b);
    NearnessIsMax(b);
    assert forall s :: s in a <==> s in multiset(b);
    assert forall s :: s in b <==> s in multiset(a);
    NearnessIs(a, Nearness(b));
  }

  predicate IsWon(status: string) {
    ToLower(status) in {"won", "converted", "customer"}
  }

  predicate IsLost(status: string) {
    ToLower(status) in {"lost", "disqualified"}
  }

  /** Lost, neutral, won. */
  function Rank(status: string): nat {
    if IsLost(status) then 0 else if IsWon(status) then 2 else 1
  }

  lemma CueOfOutcome(status: string)
    ensures OutcomeCue(status) == if IsWon(status) then 0.03 else if IsLost(status) then -0.02 else 0.0
  {
  }

  /** Each neighbour is at least as similar, with at least as good an outcome. */
  predicate Improves(a: seq<Similar>, b: seq<Similar>) {
    && |a| == |b|
    && (forall i :: 0 <= i < |a| ==> a[i].similarity <= b[i].similarity && Rank(a[i].status) <= Rank(b[i].status))
  }

  lemma {:induction false} EvidenceImproves(a: seq<Similar>, b: seq<Similar>)
    requires Improves(a, b)
    ensures Outcomes(a) <= Outcomes(b) && Nearness(a) <= Nearness(b)
  {
    if a != [] {
      EvidenceImproves(a[..|a| - 1], b[..|b| - 1]);
      CueOfOutcome(a[|a| - 1].status);
      CueOfOutcome(b[|b| - 1].status);
      assert Rank(a[|a| - 1].status) <= Rank(b[|b| - 1].status);
    }
  }

  /**
   * The score never falls when the company grows, its revenue rises, a neighbour gets closer, or a
   * neighbour's outcome improves, in any combination.
   */
  lemma ProbabilityIsMonotone(lead: Lead, lead': Lead, a: seq<Similar>, b: seq<Similar>)
    requires lead.source == lead'.source && lead.notes == lead'.notes
    requires lead.companySize <= lead'.companySize && lead.annualRevenue <= lead'.annualRevenue
    requires Improves(a, b)
    ensures Probability(lead, a) <= Probability(lead', b)
  {
    EvidenceImproves(a, b);
    SettleIsMonotone(Evidence(lead, a), Evidence(lead', b));
  }

  /** Nor when a won neighbour is added, anywhere among the others. */
  lemma WonNeighbourNeverHurts(lead: Lead, before: seq<Similar>, won: Similar, after: seq<Similar>)
    requires Rank(won.status) == 2
    ensures Probability(lead, before + after) <= Probability(lead, before + [won] + after)
  {
    var all := before + after + [won];
    CueOfOutcome(won.status);
    assert all[..|all| - 1] == before + after;
    SettleIsMonotone(Evidence(lead, before + after), Evidence(lead, all));
    ProbabilityIgnoresOrder(lead, all, before + [won] + after);
  }

  // ---------------------------------------------------------------------------------------------
  // The remote scorer, the fallback, and what is stored
  // ---------------------------------------------------------------------------------------------

  datatype Decision = Decided(probability: real, reasoning: string, model: string) | Failed(reason: string)

  const LOCAL_MODEL := "local-rag-scorer-v1"

  /** How numbers and quoted texts are printed: %.1f, %q, %.0f and %.2f. */
  datatype Formats = Formats(
    tenths: real -> string,
    quoted: string -> string,
    whole: nat -> string,
    hundredths: real -> string)

  function ClosestMatch(f: Formats, similar: seq<Similar>): string {
    if similar == [] then "RAG found no embedded historical leads yet, so the score relies on lead attributes."
    else
      "RAG found " + Decimal(|similar|) + " similar lead(s); closest match is " + similar[0].companyName
      + " with " + f.hundredths(similar[0].similarity) + " similarity and status " + f.quoted(similar[0].status) + "."
  }

  function Estimate(f: Formats, lead: Lead, probability: real): string {
    "Lead " + lead.companyName + " has a " + f.tenths(probability * 100.0) + "% estimated conversion probability."
  }

  function SourceSignal(f: Formats, lead: Lead): string {
    "Source signal is " + f.quoted(lead.source) + "."
  }

  function SizeSignal(lead: Lead): string {
    "Company size signal is " + Decimal(lead.companySize) + " employees."
  }

  function RevenueSignal(f: Formats, lead: Lead): string {
    "Revenue signal is " + f.whole(lead.annualRevenue) + "."
  }

  /** One more reason, when there is one. */
  function AddIf(reasons: seq<string>, c: bool, reason: string): seq<string> {
    if c then reasons + [reason] else reasons
  }

  function Reasons(f: Formats, lead: Lead, similar: seq<Similar>, probability: real): seq<string> {
    var sourced := AddIf([Estimate(f, lead, probability)], TrimSpace(lead.source) != "", SourceSignal(f, lead));
    var sized := AddIf(sourced, lead.companySize > 0, SizeSignal(lead));
    AddIf(sized, lead.annualRevenue > 0, RevenueSignal(f, lead)) + [ClosestMatch(f, similar)]
  }

  function One(c: bool): nat {
    if c then 1 else 0
  }

  lemma AddedInOrder(first: string, a: bool, x: string, b: bool, y: string, c: bool, z: string, last: string)
    ensures var r := AddIf(AddIf(AddIf([first], a, x), b, y), c, z) + [last];
      && |r| == 2 + One(a) + One(b) + One(c) && r[0] == first && r[|r| - 1] == last
      && (a ==> r[1] == x) && (b ==> r[1 + One(a)] == y) && (c ==> r[1 + One(a) + One(b)] == z)
  {
  }

  /** The estimate comes first and the closest match last, and each signal between them when there is one. */
  lemma ReasonsAre(f: Formats, lead: Lead, similar: seq<Similar>, probability: real)
    ensures var r := Reasons(f, lead, similar, probability);
      var sourced, sized, earning := !IsBlank(lead.source), lead.companySize > 0, lead.annualRevenue > 0;
      && |r| == 2 + One(sourced) + One(sized) + One(earning)
      && r[0] == Estimate(f, lead, probability) && r[|r| - 1] == ClosestMatch(f, similar)
      && (sourced ==> r[1] == SourceSignal(f, lead))
      && (sized ==> r[1 + One(sourced)] == SizeSignal(lead))
      && (earning ==> r[1 + One(sourced) + One(sized)] == RevenueSignal(f, lead))
  {
    TrimSpaceIs(lead.source);
    AddedInOrder(Estimate(f, lead, probability), !IsBlank(lead.source), SourceSignal(f, lead), lead.companySize > 0,
      SizeSignal(lead), lead.annualRevenue > 0, RevenueSignal(f, lead), ClosestMatch(f, similar));
  }

  method ScoreReasoning(f: Formats, lead: Lead, similar: seq<Similar>, probability: real) returns (text: string)
    ensures text == Join(Reasons(f, lead, similar, probability), " ")
  {
    var reasons := [Estimate(f, lead, probability)];
    if TrimSpace(lead.source) != "" {
      reasons := reasons + [SourceSignal(f, lead)];
    }
    if lead.companySize > 0 {
      reasons := reasons + [SizeSignal(lead)];
    }
    if lead.annualRevenue > 0 {
      reasons := reasons + [RevenueSignal(f, lead)];
    }
    reasons := reasons + [ClosestMatch(f, similar)];
    return Join(reasons, " ");
  }

  /** The reasoning of the local scorer: the sentences, joined. */
  function Reasoning(f: Formats, lead: Lead, similar: seq<Similar>): string {
    Join(Reasons(f, lead, similar, Probability(lead, similar)), " ")
  }

  function Local(f: Formats, lead: Lead, similar: seq<Similar>): Decision {
    Decided(Probability(lead, similar), Reasoning(f, lead, similar), LOCAL_MODEL)
  }

  /** What the remote model answered, decoded; or that it did not. */
  datatype Completion = Completion(probability: real, reasoning: string) | NoCompletion(reason: string)

  function Remote(answer: Completion, model: string): Decision {
    match answer
    case NoCompletion(reason) => Failed(reason)
    case Completion(p, reasoning) =>
      if p < 0.0 || p > 1.0 then Failed("llm conversion_probability must be between 0 and 1")
      else if TrimSpace(reasoning) == "" then Failed("llm reasoning is required")
      else Decided(Round4(p), TrimSpace(reasoning), model)
  }

  function BothFailed(primary: string, fallback: string): string {
    "primary scorer failed (" + primary + "); fallback failed: " + fallback
  }

  function FallbackNote(reason: string): string {
    " Fallback used after remote scorer failure: " + reason
  }

  function WithFallback(primary: Decision, fallback: Decision): Decision {
    match primary
    case Decided(_, _, _) => primary
    case Failed(reason) =>
      match fallback
      case Failed(reason') => Failed(BothFailed(reason, reason'))
      case Decided(p, reasoning, model) => Decided(p, TrimSpace(reasoning) + FallbackNote(reason), model)
  }

  /** The remote answer counts exactly when its number is a probability and its reasoning says something. */
  lemma RemoteDecidesIff(answer: Completion, model: string)
    ensures Remote(answer, model).Decided? <==>
      answer.Completion? && 0.0 <= answer.probability <= 1.0 && !IsBlank(answer.reasoning)
    ensures Remote(answer, model).Decided? ==>
      var d := Remote(answer, model);
      d.model == model && d.reasoning != "" && -0.00005 <= d.probability - answer.probability <= 0.00005
  {
    if answer.Completion? {
      TrimSpaceIs(answer.reasoning);
    }
  }

  lemma FallbackIs(primary: Decision, fallback: Decision)
    ensures primary.Decided? ==> WithFallback(primary, fallback) == primary
    ensures primary.Failed? && fallback.Decided? ==>
      var d := WithFallback(primary, fallback);
      && d.Decided? && d.probability == fallback.probability && d.model == fallback.model
      && HasSuffix(d.reasoning, primary.reason)
    ensures primary.Failed? && fallback.Failed? ==> WithFallback(primary, fallback).Failed?
  {
    if primary.Failed? && fallback.Decided? {
      var before := TrimSpace(fallback.reasoning) + " Fallback used after remote scorer failure: ";
      SuffixOf(before, primary.reason);
      assert WithFallback(primary, fallback).reasoning == before + primary.reason;
    }
  }

  /** The remote decision is taken as it is when there is one, and otherwise the probability of the local one. */
  lemma FallbackIsLast(f: Formats, answer: Completion, model: string, lead: Lead, similar: seq<Similar>)
    ensures var d, remote := WithFallback(Remote(answer, model), Local(f, lead, similar)), Remote(answer, model);
      if answer.Completion? && 0.0 <= answer.probability <= 1.0 && !IsBlank(answer.reasoning) then
        d == remote
      else
        && d.Decided? && d.probability == Probability(lead, similar) && d.model == "local-rag-scorer-v1"
        && remote.Failed? && HasSuffix(d.reasoning, remote.reason)
  {
    RemoteDecidesIff(answer, model);
    FallbackIs(Remote(answer, model), Local(f, lead, similar));
  }

  /** The NUMERIC(5, 4) column with its CHECK: the value kept, or the row refused. */
  predicate PassesCheck(p: real) {
    0.0 <= Round4(p) <= 1.0
  }

  /** With the remote scorer backed by the local one, scoring never fails, and what is stored is what was decided. */
  lemma FallbackIsAlwaysStorable(f: Formats, answer: Completion, model: string, lead: Lead, similar: seq<Similar>)
    ensures var d := WithFallback(Remote(answer, model), Local(f, lead, similar));
      && d.Decided?
      && 0.0 <= d.probability <= 1.0
      && PassesCheck(d.probability)
      && Round4(d.probability) == d.probability
      && (d.model == LOCAL_MODEL || d.model == model)
  {
    var remote := Remote(answer, model);
    if remote.Decided? {
      Round4Bounds(answer.probability, 0, 10000);
      Round4IsExact(remote.probability);
    } else {
      ProbabilityRange(lead, similar);
      Round4IsExact(Probability(lead, similar));
    }
  }

  lemma Round4IsExact(p: real)
    requires IsTenThousandth(p)
    ensures Round4(p) == p
  {
    var n :| p == TenThousandths(n);
    assert (p * 10000.0 + 0.5).Floor == n;
  }

  // ---------------------------------------------------------------------------------------------
  // The neighbours: FindSimilar in internal/lead/repository/postgres_repository.go
  // ---------------------------------------------------------------------------------------------

  /** ORDER BY distance LIMIT k: a sorted selection of the k most similar rows, ties broken either way. */
  ghost predicate IsNearest(found: seq<Similar>, rows: seq<Similar>, k: nat) {
    && |found| == (if |rows| < k then |rows| else k)
    && (forall i, j :: 0 <= i < j < |found| ==> found[i].similarity >= found[j].similarity)
    && multiset(found) <= multiset(rows)
    && (forall r, i :: r in multiset(rows) - multiset(found) && 0 <= i < |found| ==>
          r.similarity <= found[i].similarity)
  }

  /** The more similar of two rows first; of equals, the one found first. */
  function Insert(row: Similar, sorted: seq<Similar>): seq<Similar> {
    if sorted == [] || sorted[0].similarity < row.similarity then [row] + sorted
    else [sorted[0]] + Insert(row, sorted[1..])
  }

  function Sorted(rows: seq<Similar>): seq<Similar> {
    if rows == [] then [] else Insert(rows[|rows| - 1], Sorted(rows[..|rows| - 1]))
  }

  predicate Descending(rows: seq<Similar>) {
    forall i, j :: 0 <= i < j < |rows| ==> rows[i].similarity >= rows[j].similarity
  }

  lemma {:induction false} InsertAdds(row: Similar, sorted: seq<Similar>)
    ensures multiset(Insert(row, sorted)) == multiset(sorted) + multiset{row}
    ensures forall s :: s in Insert(row, sorted) ==> s == row || s in sorted
  {
    if sorted != [] && !(sorted[0].similarity < row.similarity) {
      InsertAdds(row, sorted[1..]);
      assert sorted == [sorted[0]] + sorted[1..];
    }
  }

  lemma {:induction false} InsertSorts(row: Similar, sorted: seq<Similar>)
    requires Descending(sorted)
    ensures Descending(Insert(row, sorted)) && multiset(Insert(row, sorted)) == multiset(sorted) + multiset{row}
  {
    InsertAdds(row, sorted);
    if sorted != [] && !(sorted[0].similarity < row.similarity) {
      InsertSorts(row, sorted[1..]);
      InsertAdds(row, sorted[1..]);
      PrependKeepsOrder(sorted[0], Insert(row, sorted[1..]));
    } else {
      PrependKeepsOrder(row, sorted);
    }
  }

  lemma PrependKeepsOrder(row: Similar, rows: seq<Similar>)
    requires Descending(rows) && forall s :: s in rows ==> s.similarity <= row.similarity
    ensures Descending([row] + rows)
  {
    assert forall j :: 0 <= j < |rows| ==> rows[j] in rows;
  }

  lemma {:induction false} SortedIs(rows: seq<Similar>)
    ensures Descending(Sorted(rows)) && multiset(Sorted(rows)) == multiset(rows)
  {
    if rows != [] {
      SortedIs(rows[..|rows| - 1]);
      InsertSorts(rows[|rows| - 1], Sorted(rows[..|rows| - 1]));
      assert rows == rows[..|rows| - 1] + [rows[|rows| - 1]];
    }
  }

  /** A search without an index, to show that there is an exact one. */
  function Nearest(rows: seq<Similar>, k: nat): seq<Similar> {
    if |Sorted(rows)| <= k then Sorted(rows) else Sorted(rows)[..k]
  }

  lemma RestIsNoCloser(found: seq<Similar>, rest: seq<Similar>, r: Similar)
    requires Descending(found + rest) && r in rest
    ensures forall i :: 0 <= i < |found| ==> r.similarity <= found[i].similarity
  {
    var all := found + rest;
    var j :| 0 <= j < |rest| && rest[j] == r;
    assert all[|found| + j] == r && forall i :: 0 <= i < |found| ==> all[i] == found[i];
  }

  lemma PrefixIsNearest(found: seq<Similar>, rest: seq<Similar>, rows: seq<Similar>)
    requires Descending(found + rest) && multiset(found + rest) == multiset(rows)
    ensures Descending(found) && multiset(found) <= multiset(rows)
    ensures forall r, i :: r in multiset(rows) - multiset(found) && 0 <= i < |found| ==>
      r.similarity <= found[i].similarity
  {
    var all := found + rest;
    assert forall i :: 0 <= i < |found| ==> all[i] == found[i];
    assert multiset(rows) - multiset(found) == multiset(rest);
    forall r | r in multiset(rest)
      ensures forall i :: 0 <= i < |found| ==> r.similarity <= found[i].similarity
    {
      RestIsNoCloser(found, rest, r);
    }
  }

  lemma NearestIsExact(rows: seq<Similar>, k: nat)
    ensures IsNearest(Nearest(rows, k), rows, k)
  {
    SortedIs(rows);
    var sorted, found := Sorted(rows), Nearest(rows, k);
    assert |sorted| == |multiset(sorted)| == |multiset(rows)| == |rows|;
    assert sorted == found + sorted[|found|..];
    PrefixIsNearest(found, sorted[|found|..], rows);
  }

  lemma {:induction false} JoinEndsWithLast(parts: seq<string>, last: string)
    ensures HasSuffix(Join(parts + [last], " "), last)
  {
    if parts == [] {
      assert parts + [last] == [last];
    } else {
      assert (parts + [last])[1..] == parts[1..] + [last];
      JoinEndsWithLast(parts[1..], last);
      SuffixOfSuffix(parts[0] + " ", Join(parts[1..] + [last], " "), last);
    }
  }

  lemma SuffixOfSuffix(before: string, s: string, suffix: string)
    requires HasSuffix(s, suffix)
    ensures HasSuffix(before + s, suffix)
  {
  }

  lemma ReasoningNamesClosest(f: Formats, lead: Lead, similar: seq<Similar>)
    ensures HasSuffix(Local(f, lead, similar).reasoning, ClosestMatch(f, similar))
  {
    var reasons := Reasons(f, lead, similar, Probability(lead, similar));
    JoinEndsWithLast(reasons[..|reasons| - 1], ClosestMatch(f, similar));
    assert reasons == reasons[..|reasons| - 1] + [ClosestMatch(f, similar)];
  }

  /**
   * The reasoning ends by naming the first neighbour as the closest match; that is the most similar row
   * there is, and its similarity is the one the score used.
   */
  lemma ClosestMatchIsUsed(f: Formats, lead: Lead, found: seq<Similar>, rows: seq<Similar>, k: nat)
    requires IsNearest(found, rows, k) && found != []
    ensures HasSuffix(Local(f, lead, found).reasoning, ClosestMatch(f, found))
    ensures forall r :: r in rows ==> r.similarity <= found[0].similarity
    ensures Nearness(found) == Max(0.0, found[0].similarity)
  {
    ReasoningNamesClosest(f, lead, found);
    forall r | r in rows
      ensures r.similarity <= found[0].similarity
    {
      assert r in multiset(rows);
      if r in multiset(found) {
        var i :| 0 <= i < |found| && found[i] == r;
      } else {
        assert r in multiset(rows) - multiset(found);
      }
    }
    assert found[0] in found;
    NearnessIs(found, Max(0.0, found[0].similarity));
  }

  lemma {:induction false} OutcomesAreBounded(similar: seq<Similar>)
    ensures Outcomes(similar) >= -0.02 * |similar| as real
  {
    if similar != [] {
      OutcomesAreBounded(similar[..|similar| - 1]);
    }
  }

  /**
   * With five neighbours at most the score is between 0.15 and 0.95, the lower clamp never decides it, and
   * the table keeps it unchanged.
   */
  lemma PipelineScore(lead: Lead, found: seq<Similar>)
    requires |found| <= 5
    ensures var p := Probability(lead, found);
      && 0.15 <= p <= 0.95
      && 0.05 < Evidence(lead, found)
      && PassesCheck(p) && Round4(p) == p
  {
    OutcomesAreBounded(found);
    NearnessIsMax(found);
    ProbabilityRange(lead, found);
    var x := Evidence(lead, found);
    assert 0.15 <= x;
    if x <= 0.95 {
      Round4Bounds(x, 1500, 9500);
    }
    Round4IsExact(Probability(lead, found));
  }
}
