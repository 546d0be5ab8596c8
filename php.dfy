/**
 * The few pieces of PHP semantics that the update-deployment step relies on:
 * `empty()` on strings, the decimal text PHP produces when it interpolates an
 * integer into a string, and `basename()` on a path.
 */
module Php {

  import opened Wrappers

  /** `empty($s)` for a string: PHP treats both "" and "0" as empty. */
  predicate Empty(s: string) {
    s == "" || s == "0"
  }

  /** `empty($s)` for an optional string argument whose default is `null`. */
  predicate EmptyOrNull(s: Option<string>) {
    s.None? || Empty(s.value)
  }

  /** Only "" and "0" are empty: "00", "0.0", " " and "false" are not; a missing argument is. */
  lemma EmptyCases(s: string)
    ensures Empty(s) <==> s == "" || s == "0"
    ensures Empty("") && Empty("0")
    ensures !Empty("00") && !Empty("0.0") && !Empty(" ") && !Empty("false")
    ensures EmptyOrNull(None) && EmptyOrNull(Some("")) && EmptyOrNull(Some("0")) && !EmptyOrNull(Some("foo"))
  {
  }

  // ---------------------------------------------------------------------------
  // Integer interpolation: "$n" for an int n.

  predicate IsDigit(c: char) {
    '0' <= c <= '9'
  }

  predicate AllDigits(s: string) {
    forall i :: 0 <= i < |s| ==> IsDigit(s[i])
  }

  function DigitChar(d: nat): (c: char)
    requires d < 10
    ensures IsDigit(c)
  {
    ('0' as int + d) as char
  }

  function DigitValue(c: char): (d: nat)
    requires IsDigit(c)
    ensures d < 10
  {
    c as int - '0' as int
  }

  /** Decimal text of a natural number: at least one digit, no leading zero. */
  function NatText(n: nat): (r: string)
    ensures |r| > 0 && AllDigits(r)
    ensures r[0] == '0' <==> n == 0
    ensures n == 0 ==> r == "0"
    decreases n
  {
    if n < 10 then [DigitChar(n)] else NatText(n / 10) + [DigitChar(n % 10)]
  }

  /** The text PHP produces for an int: a '-' sign for negatives, then the digits. */
  function IntText(n: int): (r: string)
    ensures |r| > 0
    ensures r[0] == '-' <==> n < 0
    ensures n == 0 ==> r == "0"
  {
    if n < 0 then "-" + NatText(-n) else NatText(n)
  }

  /** Reads a run of decimal digits back as a number. */
  function ParseNat(s: string): nat
    requires AllDigits(s)
    decreases |s|
  {
    if s == [] then 0 else ParseNat(s[..|s| - 1]) * 10 + DigitValue(s[|s| - 1])
  }

  /** Canonical decimal text: at least one digit, and no leading zero unless it is "0" itself. */
  predicate NatSyntax(s: string) {
    |s| > 0 && AllDigits(s) && (s[0] == '0' ==> |s| == 1)
  }

  /** Canonical text of an int: a natural number's text, or '-' before a non-zero one's (so not "-" or "-0"). */
  predicate IntSyntax(s: string) {
    if |s| > 0 && s[0] == '-' then NatSyntax(s[1..]) && s[1] != '0' else NatSyntax(s)
  }

  /** Reads the text of an int back as a number. */
  function ParseInt(s: string): int
    requires IntSyntax(s)
  {
    if s[0] == '-' then -(ParseNat(s[1..]) as int) else ParseNat(s)
  }

  lemma {:induction false} NatTextRoundTrip(n: nat)
    ensures ParseNat(NatText(n)) == n
    decreases n
  {
    if n >= 10 {
      NatTextRoundTrip(n / 10);
      var s := NatText(n);
      assert s[..|s| - 1] == NatText(n / 10);
    }
  }

  /** Reading back the text of an int gives the int: interpolation loses nothing. */
  lemma IntTextRoundTrip(n: int)
    ensures IntSyntax(IntText(n)) && ParseInt(IntText(n)) == n
  {
    var s := IntText(n);
    if n < 0 {
      assert s[1..] == NatText(-n);
      NatTextRoundTrip(-n);
    } else {
      NatTextRoundTrip(n);
    }
  }

  /** Digits that do not start with '0' never read back as 0. */
  lemma {:induction false} ParseNatPositive(s: string)
    requires |s| > 0 && AllDigits(s) && s[0] != '0'
    ensures ParseNat(s) > 0
    decreases |s|
  {
    if |s| > 1 {
      ParseNatPositive(s[..|s| - 1]);
    }
  }

  /** The canonical text of a natural number is the only one: it is what `NatText` prints. */
  lemma {:induction false} NatTextUnique(s: string, n: nat)
    requires NatSyntax(s) && ParseNat(s) == n
    ensures s == NatText(n)
    decreases |s|
  {
    var last := s[|s| - 1];
    if |s| == 1 {
      assert n == DigitValue(last) && n < 10;
      assert s == [DigitChar(n)];
    } else {
      var init := s[..|s| - 1];
      ParseNatPositive(init);
      assert n / 10 == ParseNat(init) && n % 10 == DigitValue(last);
      NatTextUnique(init, n / 10);
      assert s == init + [DigitChar(n % 10)];
    }
  }

  /**
   * The canonical text of an int is the only one: a well-formed id field that
   * reads back as `n` is exactly what PHP prints for `n`.
   */
  lemma IntTextUnique(s: string, n: int)
    requires IntSyntax(s) && ParseInt(s) == n
    ensures s == IntText(n)
  {
    if s[0] == '-' {
      ParseNatPositive(s[1..]);
      NatTextUnique(s[1..], -n);
      assert s == "-" + s[1..];
    } else {
      NatTextUnique(s, n);
    }
  }

  /** Two different ints never print the same. */
  lemma IntTextInjective(m: int, n: int)
    requires IntText(m) == IntText(n)
    ensures m == n
  {
    IntTextRoundTrip(m);
    IntTextRoundTrip(n);
  }

  // ---------------------------------------------------------------------------
  // basename($path), with '/' as the only separator.

  /** Drops every '/' at the end of a path. */
  function TrimTrailingSlashes(s: string): (r: string)
    ensures r == [] || r[|r| - 1] != '/'
    ensures |r| <= |s| && r == s[..|r|]
    decreases |s|
  {
    if s != [] && s[|s| - 1] == '/' then TrimTrailingSlashes(s[..|s| - 1]) else s
  }

  /** The characters after the last '/'; all of `s` when it holds none. */
  function LastSegment(s: string): (r: string)
    ensures '/' !in r
    ensures |r| <= |s| && r == s[|s| - |r|..]
    decreases |s|
  {
    if s == [] || s[|s| - 1] == '/' then [] else LastSegment(s[..|s| - 1]) + [s[|s| - 1]]
  }

  /** PHP `basename()`: trailing slashes are ignored, then the last path component is kept. */
  function BaseName(path: string): (name: string)
    ensures '/' !in name
  {
    LastSegment(TrimTrailingSlashes(path))
  }

  lemma {:induction false} LastSegmentAfterSlash(dir: string, name: string)
    requires '/' !in name
    ensures LastSegment(dir + "/" + name) == name
    decreases |name|
  {
    var s := dir + "/" + name;
    if name == [] {
      assert s[|s| - 1] == '/';
    } else {
      var init := name[..|name| - 1];
      var c := name[|name| - 1];
      var shorter := dir + "/" + init;
      assert name == init + [c];
      assert s == shorter + [c];
      assert c != '/' && '/' !in init;
      LastSegmentAfterSlash(dir, init);
      LastSegmentSnoc(shorter, c);
    }
  }

  lemma LastSegmentSnoc(s: string, c: char)
    requires c != '/'
    ensures LastSegment(s + [c]) == LastSegment(s) + [c]
  {
    var t := s + [c];
    assert t[..|t| - 1] == s;
  }

  /** The base name of `dir/name` is `name`, whenever `name` is a single non-empty component. */
  lemma BaseNameOfJoin(dir: string, name: string)
    requires name != [] && '/' !in name
    ensures BaseName(dir + "/" + name) == name
  {
    var s := dir + "/" + name;
    assert s[|s| - 1] == name[|name| - 1];
    assert TrimTrailingSlashes(s) == s;
    LastSegmentAfterSlash(dir, name);
  }
}
