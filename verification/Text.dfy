/** The text functions of the Go library that the service uses, on sequences of characters. */
module Text {

  /** unicode.IsSpace */
  predicate IsSpace(c: char) {
    var code := c as int;
    || 9 <= code <= 13 || code == 32 || code == 0x85 || code == 0xA0 || code == 0x1680
    || 0x2000 <= code <= 0x200A || code == 0x2028 || code == 0x2029 || code == 0x202F || code == 0x205F
    || code == 0x3000
  }

  predicate IsBlank(s: string) {
    forall c :: c in s ==> IsSpace(c)
  }

  /** The word read so far, if there is one. */
  function Flush(word: string): seq<string> {
    if word == "" then [] else [word]
  }

  function FieldsFrom(word: string, s: string): seq<string>
    decreases |s|
  {
    if s == "" then Flush(word)
    else if IsSpace(s[0]) then Flush(word) + FieldsFrom("", s[1..])
    else FieldsFrom(word + [s[0]], s[1..])
  }

  /** strings.Fields */
  function Fields(s: string): seq<string> {
    FieldsFrom("", s)
  }

  lemma {:induction false} FieldsFromJoined(word: string, a: string, b: string)
    ensures FieldsFrom(word, a + " " + b) == FieldsFrom(word, a) + Fields(b)
    decreases |a|
  {
    var joined := a + " " + b;
    if a == "" {
      assert joined[1..] == b;
    } else {
      assert joined[1..] == a[1..] + " " + b;
      if IsSpace(a[0]) {
        FieldsFromJoined("", a[1..], b);
      } else {
        FieldsFromJoined(word + [a[0]], a[1..], b);
      }
    }
  }

  /** A space of any kind ends a word. */
  lemma {:induction false} FieldsAtSpace(word: string, a: string, space: char, b: string)
    requires IsSpace(space)
    ensures FieldsFrom(word, a + [space] + b) == FieldsFrom(word, a) + Fields(b)
    decreases |a|
  {
    var joined := a + [space] + b;
    if a == "" {
      assert joined[1..] == b;
    } else {
      assert joined[1..] == a[1..] + [space] + b;
      if IsSpace(a[0]) {
        FieldsAtSpace("", a[1..], space, b);
      } else {
        FieldsAtSpace(word + [a[0]], a[1..], space, b);
      }
    }
  }

  lemma {:induction false} FieldsOfWord(word: string, rest: string)
    requires word + rest != "" && forall c :: c in rest ==> !IsSpace(c)
    ensures FieldsFrom(word, rest) == [word + rest]
    decreases |rest|
  {
    if rest == "" {
      assert word + rest == word;
    } else {
      assert rest[0] in rest && word + [rest[0]] + rest[1..] == word + rest;
      FieldsOfWord(word + [rest[0]], rest[1..]);
    }
  }

  /** What the words of a text are, from three laws that leave no choice. */
  lemma FieldsLaws(a: string, space: char, b: string)
    requires IsSpace(space)
    ensures Fields("") == []
    ensures Fields(a + [space] + b) == Fields(a) + Fields(b)
    ensures a != "" && (forall c :: c in a ==> !IsSpace(c)) ==> Fields(a) == [a]
  {
    FieldsAtSpace("", a, space, b);
    if a != "" && forall c :: c in a ==> !IsSpace(c) {
      assert "" + a == a;
      FieldsOfWord("", a);
    }
  }

  /** A text with a character that is not a space has a word. */
  lemma {:induction false} FieldsOfVisible(word: string, s: string)
    requires word != "" || exists i :: 0 <= i < |s| && !IsSpace(s[i])
    ensures FieldsFrom(word, s) != []
    decreases |s|
  {
    if word == "" {
      if IsSpace(s[0]) {
        var i :| 0 <= i < |s| && !IsSpace(s[i]);
        assert s[1..][i - 1] == s[i];
        FieldsOfVisible("", s[1..]);
      } else {
        assert word + [s[0]] == [s[0]];
        FieldsOfVisible([s[0]], s[1..]);
      }
    } else if s != "" && !IsSpace(s[0]) {
      FieldsOfVisible(word + [s[0]], s[1..]);
    }
  }

  lemma {:induction false} FieldsOfBlank(s: string)
    requires IsBlank(s)
    ensures Fields(s) == []
    decreases |s|
  {
    if s != "" {
      assert s[0] in s;
      FieldsOfBlank(s[1..]);
    }
  }

  function LowerChar(c: char): (r: char)
    ensures !('A' <= r <= 'Z')
    ensures r == c || (r as int == c as int + 32 && 'a' <= r <= 'z')
  {
    if 'A' <= c <= 'Z' then (c as int + 32) as char else c
  }

  /** strings.ToLower on ASCII letters; other characters are left alone. */
  function ToLower(s: string): (r: string)
    ensures |r| == |s| && forall i :: 0 <= i < |s| ==> r[i] == LowerChar(s[i])
  {
    seq(|s|, i requires 0 <= i < |s| => LowerChar(s[i]))
  }

  /** strings.Join */
  function Join(parts: seq<string>, separator: string): string {
    if parts == [] then "" else if |parts| == 1 then parts[0] else parts[0] + separator + Join(parts[1..], separator)
  }

  function LowerAll(parts: seq<string>): (r: seq<string>)
    ensures |r| == |parts| && forall i :: 0 <= i < |r| ==> r[i] == ToLower(parts[i])
  {
    seq(|parts|, i requires 0 <= i < |parts| => ToLower(parts[i]))
  }

  /** A text with each character replaced. */
  function Replaced(f: char -> char, s: string): (r: string)
    ensures |r| == |s| && forall i :: 0 <= i < |s| ==> r[i] == f(s[i])
  {
    seq(|s|, i requires 0 <= i < |s| => f(s[i]))
  }

  function AllReplaced(f: char -> char, parts: seq<string>): (r: seq<string>)
    ensures |r| == |parts| && forall i :: 0 <= i < |r| ==> r[i] == Replaced(f, parts[i])
  {
    seq(|parts|, i requires 0 <= i < |parts| => Replaced(f, parts[i]))
  }

  /** Any lowering, character by character and in any alphabet, commutes with joining if it keeps the space. */
  lemma {:induction false} ReplacedOfJoined(f: char -> char, parts: seq<string>)
    requires f(' ') == ' '
    ensures Replaced(f, Join(parts, " ")) == Join(AllReplaced(f, parts), " ")
  {
    if |parts| > 1 {
      ReplacedOfJoined(f, parts[1..]);
      assert AllReplaced(f, parts)[1..] == AllReplaced(f, parts[1..]);
    }
  }

  lemma LowerOfJoined(parts: seq<string>)
    ensures ToLower(Join(parts, " ")) == Join(LowerAll(parts), " ")
  {
    ReplacedOfJoined(LowerChar, parts);
    assert ToLower(Join(parts, " ")) == Replaced(LowerChar, Join(parts, " "));
    forall i | 0 <= i < |parts|
      ensures LowerAll(parts)[i] == AllReplaced(LowerChar, parts)[i]
    {
      assert ToLower(parts[i]) == Replaced(LowerChar, parts[i]);
    }
    assert LowerAll(parts) == AllReplaced(LowerChar, parts);
  }

  /** The words of several texts, one text after the other. */
  function AllFields(parts: seq<string>): seq<string> {
    if parts == [] then [] else Fields(parts[0]) + AllFields(parts[1..])
  }

  lemma {:induction false} FieldsOfJoined(parts: seq<string>)
    ensures Fields(Join(parts, " ")) == AllFields(parts)
  {
    if |parts| > 1 {
      FieldsFromJoined("", parts[0], Join(parts[1..], " "));
      FieldsOfJoined(parts[1..]);
    } else if |parts| == 1 {
      assert AllFields(parts[1..]) == [];
    }
  }

  function Digit(n: nat): char
    requires n < 10
  {
    "0123456789"[n]
  }

  /** fmt.Sprintf("%d", n) */
  function Decimal(n: nat): (r: string)
    ensures r != "" && forall c :: c in r ==> '0' <= c <= '9'
  {
    if n < 10 then [Digit(n)] else Decimal(n / 10) + [Digit(n % 10)]
  }

  /** Different numbers are printed differently. */
  lemma {:induction false} DecimalIsInjective(m: nat, n: nat)
    requires Decimal(m) == Decimal(n)
    ensures m == n
  {
    var a, b := Decimal(m), Decimal(n);
    assert a[|a| - 1] == Digit(m % 10) && b[|b| - 1] == Digit(n % 10);
    assert m % 10 == n % 10;
    assert (m < 10 <==> |a| == 1) && (n < 10 <==> |b| == 1);
    if 10 <= m {
      assert a[..|a| - 1] == Decimal(m / 10) && b[..|b| - 1] == Decimal(n / 10);
      DecimalIsInjective(m / 10, n / 10);
    }
  }

  function TrimLeft(s: string): string {
    if s != "" && IsSpace(s[0]) then TrimLeft(s[1..]) else s
  }

  function TrimRight(s: string): string {
    if s != "" && IsSpace(s[|s| - 1]) then TrimRight(s[..|s| - 1]) else s
  }

  /** strings.TrimSpace */
  function TrimSpace(s: string): string {
    TrimRight(TrimLeft(s))
  }

  lemma {:induction false} TrimLeftIs(s: string) returns (blank: string)
    ensures IsBlank(blank) && s == blank + TrimLeft(s)
    ensures TrimLeft(s) != "" ==> !IsSpace(TrimLeft(s)[0])
  {
    if s != "" && IsSpace(s[0]) {
      var rest := TrimLeftIs(s[1..]);
      blank := [s[0]] + rest;
    } else {
      blank := "";
    }
  }

  lemma {:induction false} TrimRightIs(s: string) returns (blank: string)
    ensures IsBlank(blank) && s == TrimRight(s) + blank
    ensures TrimRight(s) != "" ==> !IsSpace(TrimRight(s)[|TrimRight(s)| - 1]) && TrimRight(s)[0] == s[0]
  {
    if s != "" && IsSpace(s[|s| - 1]) {
      var rest := TrimRightIs(s[..|s| - 1]);
      blank := rest + [s[|s| - 1]];
    } else {
      blank := "";
    }
  }

  /** Trimming takes blanks off both ends and nothing else; nothing is left exactly of a blank text. */
  lemma TrimSpaceIs(s: string)
    ensures exists before, after :: IsBlank(before) && IsBlank(after) && s == before + TrimSpace(s) + after
    ensures TrimSpace(s) != "" ==> !IsSpace(TrimSpace(s)[0]) && !IsSpace(TrimSpace(s)[|TrimSpace(s)| - 1])
    ensures TrimSpace(s) == "" <==> IsBlank(s)
  {
    var before := TrimLeftIs(s);
    var after := TrimRightIs(TrimLeft(s));
    assert s == before + TrimSpace(s) + after;
    if TrimSpace(s) == "" {
      assert forall c :: c in s ==> c in before || c in after;
    } else {
      assert TrimSpace(s)[0] == TrimLeft(s)[0];
      assert TrimSpace(s)[0] in s;
    }
  }

  /** strings.HasPrefix */
  predicate HasPrefix(s: string, prefix: string) {
    |prefix| <= |s| && s[..|prefix|] == prefix
  }

  /** strings.HasSuffix */
  predicate HasSuffix(s: string, suffix: string) {
    |suffix| <= |s| && s[|s| - |suffix|..] == suffix
  }

  lemma SuffixOf(prefix: string, suffix: string)
    ensures HasSuffix(prefix + suffix, suffix)
  {
  }

  predicate IsHex(c: char) {
    '0' <= c <= '9' || 'a' <= c <= 'f' || 'A' <= c <= 'F'
  }

  /** The pattern of a UUID: 8-4-4-4-12 hexadecimal digits. */
  predicate IsUuid(s: string) {
    |s| == 36 && forall i :: 0 <= i < 36 ==> if i in {8, 13, 18, 23} then s[i] == '-' else IsHex(s[i])
  }
}
