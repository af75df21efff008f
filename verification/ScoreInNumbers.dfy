/**
 * What the local score is, in numbers (internal/lead/scoring/scorer.go): a table of points, three cents for a
 * won neighbour, two off for a lost one, and 0.18 times the largest similarity.
 */
module ScoreInNumbers {
  import opened Text
  import opened Leads
  import opened Scoring

  // In ten-thousandths.

  function SourcePoints(source: string): nat {
    match ToLower(source)
    case "referral" => 2000
    case "webinar" => 1500
    case "inbound" => 1200
    case "website" => 1200
    case "manual" => 500
    case _ => 0
  }

  function SizeTier(companySize: nat): nat {
    if companySize < 50 then 0 else if companySize < 250 then 1 else if companySize < 1000 then 2 else 3
  }

  function SizePoints(tier: nat): nat
    requires tier <= 3
  {
    [0, 600, 1000, 1400][tier]
  }

  /** From one million and from ten million on. */
  function RevenueTier(cents: nat): nat {
    if cents < 100_000_000 then 0 else if cents < 1_000_000_000 then 1 else 2
  }

  function RevenuePoints(tier: nat): nat
    requires tier <= 2
  {
    [0, 700, 1200][tier]
  }

  function Points(lead: Lead): nat {
    2500 + SourcePoints(lead.source) + SizePoints(SizeTier(lead.companySize))
    + RevenuePoints(RevenueTier(lead.annualRevenue))
    + if exists c :: c in lead.notes && !IsSpace(c) then 500 else 0
  }

  function Won(similar: seq<Similar>): nat {
    if similar == [] then 0 else Won(similar[..|similar| - 1]) + if IsWon(similar[|similar| - 1].status) then 1 else 0
  }

  function Lost(similar: seq<Similar>): nat {
    if similar == [] then 0 else Lost(similar[..|similar| - 1]) + if IsLost(similar[|similar| - 1].status) then 1 else 0
  }

  /** The largest similarity, or zero if none is larger. */
  predicate IsLargest(similar: seq<Similar>, m: real) {
    && 0.0 <= m && (forall s :: s in similar ==> s.similarity <= m)
    && (m == 0.0 || exists s :: s in similar && s.similarity == m)
  }

  /** What the clamps and the rounding are applied to. */
  function Strength(lead: Lead, similar: seq<Similar>, m: real): real {
    TenThousandths(Points(lead) + 300 * Won(similar) - 200 * Lost(similar)) + 0.18 * m
  }

  lemma SourceInPoints(source: string)
    ensures SourceCue(source) == TenThousandths(SourcePoints(source))
  {
  }

  lemma SizeInPoints(companySize: nat)
    ensures SizeCue(companySize) == TenThousandths(SizePoints(SizeTier(companySize)))
  {
  }

  lemma RevenueInPoints(cents: nat)
    ensures RevenueCue(cents) == TenThousandths(RevenuePoints(RevenueTier(cents)))
  {
  }

  /** A text is blank if and only if trimming leaves nothing. */
  lemma NotesInPoints(notes: string)
    ensures NotesCue(notes) == TenThousandths(if exists c :: c in notes && !IsSpace(c) then 500 else 0)
  {
    TrimSpaceIs(notes);
  }

  lemma PriorInPoints(lead: Lead)
    ensures Prior(lead) == TenThousandths(Points(lead))
  {
    SourceInPoints(lead.source);
    SizeInPoints(lead.companySize);
    RevenueInPoints(lead.annualRevenue);
    NotesInPoints(lead.notes);
  }

  lemma {:induction false} OutcomesInPoints(similar: seq<Similar>)
    ensures Outcomes(similar) == TenThousandths(300 * Won(similar) - 200 * Lost(similar))
  {
    if similar != [] {
      OutcomesInPoints(similar[..|similar| - 1]);
      CueOfOutcome(similar[|similar| - 1].status);
    }
  }

  lemma EvidenceIsStrength(lead: Lead, similar: seq<Similar>, m: real)
    requires IsLargest(similar, m)
    ensures Evidence(lead, similar) == Strength(lead, similar, m)
  {
    PriorInPoints(lead);
    OutcomesInPoints(similar);
    NearnessIs(similar, m);
  }

  /** Rounded to nearest. */
  lemma Round4IsNear(x: real)
    ensures -0.00005 <= Round4(x) - x <= 0.00005
  {
  }

  /** The whole score: the strength between the clamps, to the nearest ten-thousandth. */
  lemma ScoreIs(lead: Lead, similar: seq<Similar>, m: real)
    requires IsLargest(similar, m)
    ensures var x, p := Strength(lead, similar, m), Probability(lead, similar);
      && (x > 0.95 ==> p == 0.95)
      && (x < 0.05 ==> p == 0.05)
      && (0.05 <= x <= 0.95 ==> -0.00005 <= p - x <= 0.00005 && IsTenThousandth(p))
  {
    EvidenceIsStrength(lead, similar, m);
    Round4IsNear(Strength(lead, similar, m));
    ProbabilityRange(lead, similar);
  }

  lemma Round4OfSum(x: real, n: int)
    ensures Round4(x + TenThousandths(n)) == Round4(x) + TenThousandths(n)
  {
    var y := x * 10000.0 + 0.5;
    assert (x + TenThousandths(n)) * 10000.0 + 0.5 == y + n as real;
    assert (y + n as real).Floor == y.Floor + n;
  }

  /** Neither clamp acted. */
  predicate IsBetween(p: real) {
    0.05 < p < 0.95
  }

  lemma BetweenIsRounded(lead: Lead, similar: seq<Similar>, m: real)
    requires IsLargest(similar, m) && IsBetween(Probability(lead, similar))
    ensures Probability(lead, similar) == Round4(Strength(lead, similar, m))
  {
    EvidenceIsStrength(lead, similar, m);
  }

  lemma LoneScore(lead: Lead)
    ensures Probability(lead, []) == TenThousandths(Points(lead))
  {
    var none: seq<Similar> := [];
    EvidenceIsStrength(lead, none, 0.0);
    assert Won(none) == 0 && Lost(none) == 0;
    Round4IsExact(TenThousandths(Points(lead)));
    assert IsTenThousandth(TenThousandths(Points(lead)));
    PointsAreModerate(lead);
  }

  lemma PointsAreModerate(lead: Lead)
    ensures 2500 <= Points(lead) <= 7600
  {
  }

  /** Raising the largest similarity raises the score by 0.18 times that, up to the rounding. */
  lemma NearerRaises(lead: Lead, a: seq<Similar>, b: seq<Similar>, m: real, m': real)
    requires Won(a) == Won(b) && Lost(a) == Lost(b) && IsLargest(a, m) && IsLargest(b, m')
    requires IsBetween(Probability(lead, a)) && IsBetween(Probability(lead, b))
    ensures -0.0001 <= Probability(lead, b) - Probability(lead, a) - 0.18 * (m' - m) <= 0.0001
  {
    BetweenIsRounded(lead, a, m);
    BetweenIsRounded(lead, b, m');
    Round4IsNear(Strength(lead, a, m));
    Round4IsNear(Strength(lead, b, m'));
  }

  lemma {:induction false} CountsOfConcatenation(a: seq<Similar>, b: seq<Similar>)
    ensures Won(a + b) == Won(a) + Won(b) && Lost(a + b) == Lost(a) + Lost(b)
  {
    if b == [] {
      assert a + b == a;
    } else {
      assert (a + b)[..|a + b| - 1] == a + b[..|b| - 1];
      CountsOfConcatenation(a, b[..|b| - 1]);
    }
  }

  /** The points a neighbour brings by its outcome. */
  function OutcomePoints(status: string): int {
    if IsWon(status) then 300 else if IsLost(status) then -200 else 0
  }

  lemma CountsOfOneMore(before: seq<Similar>, one: Similar, after: seq<Similar>)
    ensures 300 * Won(before + [one] + after) - 200 * Lost(before + [one] + after)
      == 300 * Won(before + after) - 200 * Lost(before + after) + OutcomePoints(one.status)
  {
    CountsOfConcatenation(before + [one], after);
    CountsOfConcatenation(before, [one]);
    CountsOfConcatenation(before, after);
    assert [one][..0] == [];
    assert !(IsWon(one.status) && IsLost(one.status));
  }

  lemma LargestWithOneMore(before: seq<Similar>, one: Similar, after: seq<Similar>, m: real)
    requires IsLargest(before + after, m) && one.similarity <= m
    ensures IsLargest(before + [one] + after, m)
  {
    forall s | s in before + [one] + after
      ensures s.similarity <= m
    {
      assert s in before + after || s == one;
    }
    if m != 0.0 {
      var s :| s in before + after && s.similarity == m;
      assert s in before + [one] + after;
    }
  }

  /** A neighbour no closer than the closest adds 0.03 if won, takes 0.02 if lost, and else counts nothing. */
  lemma OneMoreNeighbour(lead: Lead, before: seq<Similar>, one: Similar, after: seq<Similar>, m: real)
    requires IsLargest(before + after, m) && one.similarity <= m
    requires IsBetween(Probability(lead, before + after)) && IsBetween(Probability(lead, before + [one] + after))
    ensures Probability(lead, before + [one] + after)
      == Probability(lead, before + after)
        + (if IsWon(one.status) then 0.03 else if IsLost(one.status) then -0.02 else 0.0)
  {
    LargestWithOneMore(before, one, after, m);
    CountsOfOneMore(before, one, after);
    BetweenIsRounded(lead, before + after, m);
    BetweenIsRounded(lead, before + [one] + after, m);
    Round4OfSum(Strength(lead, before + after, m), OutcomePoints(one.status));
  }

  // ---------------------------------------------------------------------------------------------
  // Strict monotonicity
  // ---------------------------------------------------------------------------------------------

  /** The score tells a gain of a ten-thousandth, unless a clamp hides it. */
  lemma GainIsSeen(lead: Lead, lead': Lead, a: seq<Similar>, b: seq<Similar>, m: real, m': real)
    requires IsLargest(a, m) && IsLargest(b, m') && Strength(lead, a, m) + 0.0001 <= Strength(lead', b, m')
    ensures Probability(lead, a) < Probability(lead', b)
      || Probability(lead, a) == 0.95 || Probability(lead', b) == 0.05
  {
    EvidenceIsStrength(lead, a, m);
    EvidenceIsStrength(lead', b, m');
    var x, y := Strength(lead, a, m), Strength(lead', b, m');
    Round4OfSum(x, 1);
    Round4IsMonotone(x + TenThousandths(1), y);
    ProbabilityRange(lead, a);
    ProbabilityRange(lead', b);
    if 0.05 <= x <= 0.95 { Round4Bounds(x, 500, 9500); }
    if 0.05 <= y <= 0.95 { Round4Bounds(y, 500, 9500); }
  }

  lemma {:induction false} CountsImprove(a: seq<Similar>, b: seq<Similar>)
    requires Improves(a, b)
    ensures 300 * Won(a) - 200 * Lost(a) <= 300 * Won(b) - 200 * Lost(b)
    ensures (exists i :: 0 <= i < |a| && Rank(a[i].status) < Rank(b[i].status)) ==>
      300 * Won(a) - 200 * Lost(a) + 200 <= 300 * Won(b) - 200 * Lost(b)
  {
    if a != [] {
      CountsImprove(a[..|a| - 1], b[..|b| - 1]);
      assert Rank(a[|a| - 1].status) <= Rank(b[|b| - 1].status);
      assert !(IsWon(a[|a| - 1].status) && IsLost(a[|a| - 1].status));
      assert !(IsWon(b[|b| - 1].status) && IsLost(b[|b| - 1].status));
      if exists i :: 0 <= i < |a| && Rank(a[i].status) < Rank(b[i].status) {
        var i :| 0 <= i < |a| && Rank(a[i].status) < Rank(b[i].status);
        if i < |a| - 1 {
          assert a[..|a| - 1][i] == a[i] && b[..|b| - 1][i] == b[i];
        }
      }
    }
  }

  /** Something really got better: an outcome, a tier, or the largest similarity by more than the rounding. */
  predicate Gains(lead: Lead, lead': Lead, a: seq<Similar>, b: seq<Similar>, m: real, m': real)
    requires |a| == |b|
  {
    || (exists i :: 0 <= i < |a| && Rank(a[i].status) < Rank(b[i].status))
    || SizeTier(lead.companySize) < SizeTier(lead'.companySize)
    || RevenueTier(lead.annualRevenue) < RevenueTier(lead'.annualRevenue)
    || m + 1.0 / 1800.0 <= m'
  }

  lemma LargestImproves(a: seq<Similar>, b: seq<Similar>, m: real, m': real)
    requires Improves(a, b) && IsLargest(a, m) && IsLargest(b, m')
    ensures m <= m'
  {
    if m != 0.0 {
      var s :| s in a && s.similarity == m;
      var i :| 0 <= i < |a| && a[i] == s;
      assert b[i] in b;
    }
  }

  /** When something gets better and nothing worse, the score rises, unless a clamp hides it. */
  lemma ProbabilityIsStrict(lead: Lead, lead': Lead, a: seq<Similar>, b: seq<Similar>, m: real, m': real)
    requires lead.source == lead'.source && lead.notes == lead'.notes
    requires lead.companySize <= lead'.companySize && lead.annualRevenue <= lead'.annualRevenue
    requires Improves(a, b) && IsLargest(a, m) && IsLargest(b, m') && Gains(lead, lead', a, b, m, m')
    ensures Probability(lead, a) < Probability(lead', b)
      || Probability(lead, a) == 0.95 || Probability(lead', b) == 0.05
  {
    CountsImprove(a, b);
    LargestImproves(a, b, m, m');
    GainIsSeen(lead, lead', a, b, m, m');
  }

  // ---------------------------------------------------------------------------------------------
  // Sources
  // ---------------------------------------------------------------------------------------------

  lemma SourcesCompared(lead: Lead, better: string, worse: string, similar: seq<Similar>)
    requires SourcePoints(worse) <= SourcePoints(better)
    ensures Probability(lead.(source := worse), similar) <= Probability(lead.(source := better), similar)
  {
    SourceInPoints(better);
    SourceInPoints(worse);
    SettleIsMonotone(Evidence(lead.(source := worse), similar), Evidence(lead.(source := better), similar));
  }

  /** Referrals before webinars, before the inbound and the website, before manual entry, before the rest. */
  lemma SourcesInOrder(lead: Lead, other: string)
    requires ToLower(other) !in {"referral", "webinar", "inbound", "website", "manual"}
    ensures var p := source => Probability(lead.(source := source), []);
      && p("referral") == p("webinar") + 0.05 && p("webinar") == p("inbound") + 0.03 && p("inbound") == p("website")
      && p("website") == p("manual") + 0.07 && p("manual") == p(other) + 0.05
  {
    LowerOfSources();
    LoneScoreBySource(lead, "referral");
    LoneScoreBySource(lead, "webinar");
    LoneScoreBySource(lead, "inbound");
    LoneScoreBySource(lead, "website");
    LoneScoreBySource(lead, "manual");
    LoneScoreBySource(lead, other);
  }

  lemma LoneScoreBySource(lead: Lead, source: string)
    ensures Probability(lead.(source := source), [])
      == TenThousandths(Points(lead) - SourcePoints(lead.source) + SourcePoints(source))
  {
    LoneScore(lead.(source := source));
  }

  lemma LowerOfSources()
    ensures ToLower("referral") == "referral" && ToLower("webinar") == "webinar" && ToLower("inbound") == "inbound"
    ensures ToLower("website") == "website" && ToLower("manual") == "manual"
  {
  }
}
