/**
 * Vectors as text (internal/lead/embedding/embedder.go): "[0.123456,-0.500000,...]", six decimals each, and
 * what the database reads from it.
 */
module VectorText {
  import opened Options
  import opened Text
  import opened Vectors
  import opened Embedder

  // ---------------------------------------------------------------------------------------------
  // Splitting undoes joining
  // ---------------------------------------------------------------------------------------------

  function SplitFrom(part: string, s: string, separator: char): seq<string>
    decreases |s|
  {
    if s == "" then [part]
    else if s[0] == separator then [part] + SplitFrom("", s[1..], separator)
    else SplitFrom(part + [s[0]], s[1..], separator)
  }

  function Split(s: string, separator: char): seq<string> {
    SplitFrom("", s, separator)
  }

  lemma {:induction false} SplitFromPart(part: string, s: string, rest: string, separator: char)
    requires separator !in s
    ensures SplitFrom(part, s + rest, separator) == SplitFrom(part + s, rest, separator)
    decreases |s|
  {
    if s == "" {
      assert s + rest == rest && part + s == part;
    } else {
      assert (s + rest)[1..] == s[1..] + rest && part + s == part + [s[0]] + s[1..];
      SplitFromPart(part + [s[0]], s[1..], rest, separator);
    }
  }

  lemma {:induction false} SplitOfJoined(parts: seq<string>, separator: char)
    requires parts != [] && forall p :: p in parts ==> separator !in p
    ensures Split(Join(parts, [separator]), separator) == parts
  {
    var p := parts[0];
    if |parts| == 1 {
      SplitFromPart("", p, "", separator);
      assert p + "" == p && "" + p == p && parts == [p];
    } else {
      var rest := Join(parts[1..], [separator]);
      SplitOfJoined(parts[1..], separator);
      SplitFromPart("", p, [separator] + rest, separator);
      assert Join(parts, [separator]) == p + ([separator] + rest) && "" + p == p;
      assert ([separator] + rest)[1..] == rest && parts == [p] + parts[1..];
    }
  }

  // ---------------------------------------------------------------------------------------------
  // Numbers
  // ---------------------------------------------------------------------------------------------

  predicate IsDigit(c: char) {
    '0' <= c <= '9'
  }

  predicate AllDigits(s: string) {
    s != "" && forall c :: c in s ==> IsDigit(c)
  }

  function ValueOf(c: char): nat
    requires IsDigit(c)
  {
    c as int - '0' as int
  }

  function ParseNat(s: string): nat
    requires forall c :: c in s ==> IsDigit(c)
  {
    if s == "" then 0
    else
      assert s[|s| - 1] in s;
      10 * ParseNat(s[..|s| - 1]) + ValueOf(s[|s| - 1])
  }

  lemma DigitValue(n: nat)
    requires n < 10
    ensures IsDigit(Digit(n)) && ValueOf(Digit(n)) == n
  {
  }

  lemma ParseAppended(s: string, n: nat)
    requires n < 10 && forall c :: c in s ==> IsDigit(c)
    ensures IsDigit(Digit(n)) && ParseNat(s + [Digit(n)]) == 10 * ParseNat(s) + n
  {
    DigitValue(n);
    assert (s + [Digit(n)])[..|s|] == s;
  }

  lemma {:induction false} ParseDecimal(n: nat)
    ensures ParseNat(Decimal(n)) == n
  {
    if n < 10 {
      ParseAppended("", n);
      assert "" + [Digit(n)] == Decimal(n);
    } else {
      ParseDecimal(n / 10);
      ParseAppended(Decimal(n / 10), n % 10);
    }
  }

  /** The last `width` digits of n. */
  function Digits(n: nat, width: nat): (s: string)
    ensures |s| == width && forall c :: c in s ==> IsDigit(c)
  {
    if width == 0 then "" else Digits(n / 10, width - 1) + [Digit(n % 10)]
  }

  function Ten(width: nat): (p: nat)
    ensures 0 < p
  {
    if width == 0 then 1 else 10 * Ten(width - 1)
  }

  lemma {:induction false} ParseDigits(n: nat, width: nat)
    requires n < Ten(width)
    ensures ParseNat(Digits(n, width)) == n
  {
    if width != 0 {
      ParseDigits(n / 10, width - 1);
      ParseAppended(Digits(n / 10, width - 1), n % 10);
    }
  }

  /** fmt.Sprintf("%.6f", x) for an x that is `micros` millionths, rounded. A small negative x keeps its sign. */
  function Print(x: real, micros: int): string {
    (if x < 0.0 then "-" else "") + (Decimal(Abs(micros) / MICROS) + "." + Digits(Abs(micros) % MICROS, 6))
  }

  function ParseUnsigned(s: string): Option<int> {
    var parts := Split(s, '.');
    if |parts| == 2 && AllDigits(parts[0]) && AllDigits(parts[1]) && |parts[1]| == 6
    then Some(ParseNat(parts[0]) * MICROS + ParseNat(parts[1]))
    else None
  }

  /** A number with six decimals, in millionths. */
  function Parse(s: string): Option<int> {
    var negative := s != "" && s[0] == '-';
    var n := ParseUnsigned(if negative then s[1..] else s);
    if n.None? then None else Some(if negative then -n.value else n.value)
  }

  lemma TenToTheSixth()
    ensures Ten(6) == MICROS
  {
    assert Ten(6) == 10 * Ten(5) && Ten(5) == 10 * Ten(4) && Ten(4) == 10 * Ten(3);
    assert Ten(3) == 10 * Ten(2) && Ten(2) == 10 * Ten(1) && Ten(1) == 10 * Ten(0);
  }

  lemma PointSplits(whole: string, decimals: string)
    requires '.' !in whole && '.' !in decimals
    ensures Split(whole + "." + decimals, '.') == [whole, decimals]
  {
    SplitOfJoined([whole, decimals], '.');
    assert [whole, decimals][1..] == [decimals];
    assert Join([whole, decimals], ['.']) == whole + "." + decimals;
  }

  lemma ParseParts(s: string, whole: string, decimals: string)
    requires Split(s, '.') == [whole, decimals] && AllDigits(whole) && AllDigits(decimals) && |decimals| == 6
    ensures ParseUnsigned(s) == Some(ParseNat(whole) * MICROS + ParseNat(decimals))
  {
  }

  lemma ParseUnsignedPrinted(n: nat)
    ensures ParseUnsigned(Decimal(n / MICROS) + "." + Digits(n % MICROS, 6)) == Some(n)
  {
    var whole, decimals := Decimal(n / MICROS), Digits(n % MICROS, 6);
    PointSplits(whole, decimals);
    ParseParts(whole + "." + decimals, whole, decimals);
    ParseDecimal(n / MICROS);
    TenToTheSixth();
    ParseDigits(n % MICROS, 6);
    WholeAndRest(n);
  }

  lemma WholeAndRest(n: nat)
    ensures (n / MICROS) * MICROS + n % MICROS == n
  {
  }

  lemma ParsePrinted(x: real, micros: int)
    requires IsPrinted(x, micros)
    ensures Parse(Print(x, micros)) == Some(micros)
  {
    var body := Decimal(Abs(micros) / MICROS) + "." + Digits(Abs(micros) % MICROS, 6);
    ParseUnsignedPrinted(Abs(micros));
    if x < 0.0 {
      assert micros <= 0;
      assert ("-" + body)[1..] == body;
    } else {
      assert micros >= 0;
      assert body[0] == Decimal(Abs(micros) / MICROS)[0] && body[0] in Decimal(Abs(micros) / MICROS);
      assert "" + body == body;
    }
  }

  lemma PrintedHasNoComma(x: real, micros: int)
    ensures ',' !in Print(x, micros)
  {
    var whole, decimals := Decimal(Abs(micros) / MICROS), Digits(Abs(micros) % MICROS, 6);
    assert ',' !in whole && ',' !in decimals && ',' !in "." && ',' !in "-";
  }

  // ---------------------------------------------------------------------------------------------
  // Vectors
  // ---------------------------------------------------------------------------------------------

  function PrintAll(values: seq<real>, micros: seq<int>): (texts: seq<string>)
    requires |values| == |micros|
    ensures |texts| == |values|
  {
    seq(|values|, i requires 0 <= i < |values| => Print(values[i], micros[i]))
  }

  function PrintVector(values: seq<real>, micros: seq<int>): string
    requires |values| == |micros|
  {
    "[" + Join(PrintAll(values, micros), ",") + "]"
  }

  function ParseAll(texts: seq<string>): Option<seq<int>> {
    if texts == [] then Some([])
    else
      var rest, last := ParseAll(texts[..|texts| - 1]), Parse(texts[|texts| - 1]);
      if rest.Some? && last.Some? then Some(rest.value + [last.value]) else None
  }

  /** What the database reads, in millionths. */
  function ParseVector(s: string): Option<seq<int>> {
    if 2 <= |s| && s[0] == '[' && s[|s| - 1] == ']' then ParseAll(Split(s[1..|s| - 1], ',')) else None
  }

  predicate AllPrinted(values: seq<real>, micros: seq<int>) {
    |values| == |micros| && forall i :: 0 <= i < |values| ==> IsPrinted(values[i], micros[i])
  }

  lemma {:induction false} ParseAllPrinted(values: seq<real>, micros: seq<int>)
    requires AllPrinted(values, micros)
    ensures ParseAll(PrintAll(values, micros)) == Some(micros)
  {
    if values != [] {
      var n := |values| - 1;
      ParseAllPrinted(values[..n], micros[..n]);
      assert PrintAll(values, micros)[..n] == PrintAll(values[..n], micros[..n]);
      ParsePrinted(values[n], micros[n]);
      assert micros[..n] + [micros[n]] == micros;
    }
  }

  /** Reading gives back what was printed. */
  lemma ParseVectorPrinted(values: seq<real>, micros: seq<int>)
    requires AllPrinted(values, micros) && values != []
    ensures ParseVector(PrintVector(values, micros)) == Some(micros)
  {
    var texts := PrintAll(values, micros);
    forall t | t in texts
      ensures ',' !in t
    {
      var i :| 0 <= i < |texts| && texts[i] == t;
      PrintedHasNoComma(values[i], micros[i]);
    }
    SplitOfJoined(texts, ',');
    var joined := Join(texts, ",");
    assert PrintVector(values, micros)[1..|joined| + 1] == joined;
    ParseAllPrinted(values, micros);
  }

  method FormatVector(values: array<real>) returns (text: string)
    requires values.Length > 0
    ensures ParseVector(text).Some? && AllPrinted(values[..], ParseVector(text).value)
    ensures text == PrintVector(values[..], ParseVector(text).value)
  {
    var texts: seq<string> := [];
    ghost var micros: seq<int> := [];
    for k := 0 to values.Length
      invariant |micros| == k && AllPrinted(values[..k], micros) && texts == PrintAll(values[..k], micros)
    {
      var m := (values[k] * MICROS as real + 0.5).Floor;
      assert IsPrinted(values[k], m);
      assert values[..k + 1] == values[..k] + [values[k]];
      texts := texts + [Print(values[k], m)];
      micros := micros + [m];
    }
    assert values[..values.Length] == values[..];
    text := "[" + Join(texts, ",") + "]";
    ParseVectorPrinted(values[..], micros);
  }

  /** The text the local embedder returns: what is read from it is the printed vector of the content. */
  method DeterministicVector(fnv: Hash, sqrt: int -> real, content: string) returns (text: string)
    ensures ParseVector(text).Some?
    ensures IsPrintedVector(Raw(fnv, Tokens(content)), sqrt(Norm2(Raw(fnv, Tokens(content)))), ParseVector(text).value)
  {
    var vector := Accumulate(fnv, content);
    var normalized := Embedder.Normalize(vector, sqrt);
    text := FormatVector(normalized);
    ghost var raw, micros := Raw(fnv, Tokens(content)), ParseVector(text).value;
    forall i | 0 <= i < vector.Length
      ensures IsPrinted(raw[i] as real / Divisor(sqrt(Norm2(raw))), micros[i])
    {
      assert vector[..][i] == vector[i] && normalized[..][i] == normalized[i];
      assert IsPrinted(normalized[..][i], micros[i]);
    }
  }
}
