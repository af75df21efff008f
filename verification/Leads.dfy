/** A lead (internal/lead/domain/lead.go) and the text it is embedded as. */
module Leads {
  import opened Text
  import opened Vectors
  import opened Embedder
  import opened VectorText

  /** The revenue is in cents, as the NUMERIC(14,2) column keeps it. */
  datatype Lead = Lead(
    id: string, companyName: string, contactName: string, email: string, phone: string, source: string,
    industry: string, companySize: nat, annualRevenue: nat, notes: string, status: string,
    createdAt: nat, updatedAt: nat)

  /** fmt.Sprintf("%.2f", revenue) */
  function Money(cents: nat): string {
    Decimal(cents / 100) + "." + Digits(cents % 100, 2)
  }

  lemma MoneyIsWhole(cents: nat, whole: nat, rest: nat)
    requires whole == cents / 100 && rest == cents % 100
    ensures whole * 100 + rest == cents
  {
  }

  /** The printed amount is all of the amount, to the cent. */
  lemma MoneyReadsBack(cents: nat)
    ensures var s := Money(cents);
      var n := |s| - 3;
      && 0 < n && s[n] == '.' && AllDigits(s[..n]) && AllDigits(s[n + 1..])
      && ParseNat(s[..n]) * 100 + ParseNat(s[n + 1..]) == cents
  {
    var s := Money(cents);
    var n := |s| - 3;
    assert s[..n] == Decimal(cents / 100) && s[n + 1..] == Digits(cents % 100, 2);
    ParseDecimal(cents / 100);
    assert Ten(2) == 100;
    ParseDigits(cents % 100, 2);
    MoneyIsWhole(cents, cents / 100, cents % 100);
  }

  function Parts(lead: Lead): (parts: seq<string>)
    ensures |parts| == 8
  {
    [lead.companyName, lead.contactName, lead.email, lead.source, lead.industry,
     Decimal(lead.companySize), Money(lead.annualRevenue), lead.notes]
  }

  /** leadEmbeddingContent */
  function Content(lead: Lead): string {
    ToLower(Join(Parts(lead), " "))
  }

  /** The sum, coordinate by coordinate, of the raw vectors of several texts. */
  function SumOfRaw(fnv: Hash, parts: seq<string>, i: nat): int
    requires i < DIMENSIONS
  {
    if parts == [] then 0 else Raw(fnv, Fields(parts[0]))[i] + SumOfRaw(fnv, parts[1..], i)
  }

  lemma {:induction false} RawOfAllFields(fnv: Hash, parts: seq<string>, i: nat)
    requires i < DIMENSIONS
    ensures Raw(fnv, AllFields(parts))[i] == SumOfRaw(fnv, parts, i)
  {
    if parts != [] {
      RawIsAdditive(fnv, Fields(parts[0]), AllFields(parts[1..]), i);
      RawOfAllFields(fnv, parts[1..], i);
    }
  }

  /** A lead always has words, its company size for one, so it is never embedded as "empty". */
  lemma LeadHasTokens(lead: Lead)
    ensures Fields(Content(lead)) != []
      && Tokens(Content(lead)) == Fields(Content(lead)) == AllFields(LowerAll(Parts(lead)))
  {
    var parts := LowerAll(Parts(lead));
    LowerOfJoined(Parts(lead));
    FieldsOfJoined(parts);
    var size := Decimal(lead.companySize);
    assert size[0] in size;
    assert parts[5][0] == LowerChar(size[0]) && !IsSpace(parts[5][0]);
    FieldsOfVisible("", parts[5]);
    FieldsAreAmongAll(parts, 5);
  }

  /** The words a lead is embedded as: those of eight of its fields, in lower case, in this order. */
  lemma LeadWords(lead: Lead)
    ensures Fields(Content(lead)) ==
      Fields(ToLower(lead.companyName)) + Fields(ToLower(lead.contactName)) + Fields(ToLower(lead.email))
      + Fields(ToLower(lead.source)) + Fields(ToLower(lead.industry)) + Fields(ToLower(Decimal(lead.companySize)))
      + Fields(ToLower(Money(lead.annualRevenue))) + Fields(ToLower(lead.notes))
  {
    var parts := LowerAll(Parts(lead));
    LeadHasTokens(lead);
    AllFieldsOfEight(parts);
  }

  lemma {:induction false} AllFieldsUpTo(parts: seq<string>, k: nat)
    requires k < |parts|
    ensures AllFields(parts[..k + 1]) == AllFields(parts[..k]) + Fields(parts[k])
  {
    if k == 0 {
      assert parts[..1][1..] == [];
    } else {
      AllFieldsUpTo(parts[1..], k - 1);
      assert parts[..k + 1][1..] == parts[1..][..k] && parts[..k][1..] == parts[1..][..k - 1];
    }
  }

  lemma AllFieldsUpToFour(parts: seq<string>, k: nat)
    requires k + 4 <= |parts|
    ensures AllFields(parts[..k + 4]) == AllFields(parts[..k])
      + Fields(parts[k]) + Fields(parts[k + 1]) + Fields(parts[k + 2]) + Fields(parts[k + 3])
  {
    AllFieldsUpTo(parts, k);
    AllFieldsUpTo(parts, k + 1);
    AllFieldsUpTo(parts, k + 2);
    AllFieldsUpTo(parts, k + 3);
  }

  lemma AllFieldsOfEight(parts: seq<string>)
    requires |parts| == 8
    ensures AllFields(parts) == Fields(parts[0]) + Fields(parts[1]) + Fields(parts[2]) + Fields(parts[3])
      + Fields(parts[4]) + Fields(parts[5]) + Fields(parts[6]) + Fields(parts[7])
  {
    AllFieldsUpToFour(parts, 0);
    AllFieldsUpToFour(parts, 4);
    assert parts[..8] == parts && parts[..0] == [] && [] + Fields(parts[0]) == Fields(parts[0]);
  }

  lemma {:induction false} FieldsAreAmongAll(parts: seq<string>, k: nat)
    requires k < |parts|
    ensures |Fields(parts[k])| <= |AllFields(parts)|
  {
    if k != 0 {
      FieldsAreAmongAll(parts[1..], k - 1);
    }
  }

  /** The raw vector of a lead is the sum of those of its eight lowered parts. */
  lemma LeadVectorIsSumOfParts(fnv: Hash, lead: Lead, i: nat)
    requires i < DIMENSIONS
    ensures Raw(fnv, Tokens(Content(lead)))[i] == SumOfRaw(fnv, LowerAll(Parts(lead)), i)
  {
    LeadHasTokens(lead);
    RawOfAllFields(fnv, LowerAll(Parts(lead)), i);
  }
}
