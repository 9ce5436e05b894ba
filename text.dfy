/** String helpers shared by the services: ActiveSupport's `blank?`, `String#downcase`
    on the characters the model covers, and decimal rendering of integers as Ruby's
    string interpolation writes them. */
module Text {
  import opened Optional

  /** The characters matched by `[[:space:]]` in a Ruby regular expression on a
      Unicode string. */
  predicate IsSpace(c: char) {
    c == ' ' || c == '\t' || c == '\n' || c == '\U{B}' || c == '\U{C}' || c == '\r'
    || c == '\U{85}' || c == '\U{A0}' || c == '\U{1680}'
    || ('\U{2000}' <= c <= '\U{200A}')
    || c == '\U{2028}' || c == '\U{2029}' || c == '\U{202F}' || c == '\U{205F}' || c == '\U{3000}'
  }

  /** `String#blank?`: empty or only whitespace. */
  predicate IsBlankString(s: string) {
    forall i :: 0 <= i < |s| ==> IsSpace(s[i])
  }

  /** `blank?` on a value that is a string or nil (None). */
  predicate IsBlank(s: Option<string>) {
    s.None? || IsBlankString(s.value)
  }

  /** A string with a non-space character is not blank, and nil and "" are. */
  lemma {:induction false} BlankExamples(s: string, i: nat)
    requires i < |s| && !IsSpace(s[i])
    ensures !IsBlank(Some(s))
    ensures IsBlank(None) && IsBlank(Some("")) && IsBlank(Some(" \t\n"))
  {
  }

  function LowerChar(c: char): (d: char)
    ensures 'A' <= c <= 'Z' ==> d as int == c as int + 32
    ensures !('A' <= c <= 'Z') ==> d == c
  {
    if 'A' <= c <= 'Z' then (c as int + 32) as char else c
  }

  /** `String#downcase`, on the ASCII letters. */
  function Downcase(s: string): (r: string)
    ensures |r| == |s|
    ensures forall i :: 0 <= i < |s| ==> r[i] == LowerChar(s[i])
  {
    if s == [] then [] else [LowerChar(s[0])] + Downcase(s[1..])
  }

  lemma {:induction false} DowncaseIdempotent(s: string)
    ensures Downcase(Downcase(s)) == Downcase(s)
  {
    var d := Downcase(s);
    assert forall i :: 0 <= i < |s| ==> Downcase(d)[i] == LowerChar(LowerChar(s[i])) == d[i];
  }

  function DigitChar(n: nat): (c: char)
    requires n < 10
    ensures '0' <= c <= '9' && c as int - '0' as int == n
  {
    ('0' as int + n) as char
  }

  predicate IsDigit(c: char) {
    '0' <= c <= '9'
  }

  function DigitValue(c: char): (n: nat)
    requires IsDigit(c)
    ensures n < 10 && DigitChar(n) == c
  {
    c as int - '0' as int
  }

  /** The number a string of decimal digits denotes. */
  function DigitsValue(s: string): nat
    requires forall i :: 0 <= i < |s| ==> IsDigit(s[i])
  {
    if s == [] then 0 else 10 * DigitsValue(s[..|s| - 1]) + DigitValue(s[|s| - 1])
  }

  /** Decimal digits of a natural number, without leading zeros. */
  function NatToString(n: nat): (s: string)
    ensures |s| >= 1
    ensures forall i :: 0 <= i < |s| ==> IsDigit(s[i])
    ensures DigitsValue(s) == n
    ensures s[0] == '0' ==> n == 0 && s == "0"
  {
    if n < 10 then [DigitChar(n)]
    else
      var s := NatToString(n / 10) + [DigitChar(n % 10)];
      assert s[..|s| - 1] == NatToString(n / 10);
      s
  }

  /** `Integer#to_s`, as string interpolation writes an integer: a minus sign for a
      negative number, then the digits of its magnitude. */
  function IntToString(i: int): (s: string)
    ensures |s| >= 1
    ensures (s[0] == '-') <==> i < 0
    ensures var digits := if i < 0 then s[1..] else s;
      && |digits| >= 1
      && (forall k :: 0 <= k < |digits| ==> IsDigit(digits[k]))
      && DigitsValue(digits) == (if i < 0 then -i else i)
      && (digits[0] == '0' ==> digits == "0")
  {
    if i >= 0 then NatToString(i) else "-" + NatToString(-i)
  }

  /** Distinct integers print differently. */
  lemma IntToStringInjective(i: int, j: int)
    requires IntToString(i) == IntToString(j)
    ensures i == j
  {
    var s := IntToString(i);
    assert (s[0] == '-') <==> i < 0;
    assert (s[0] == '-') <==> j < 0;
  }

  /** Left-pads with '0' up to `width` characters (strftime's `%m`, `%d`, `%Y`). */
  function PadZero(s: string, width: nat): (r: string)
    ensures |r| == if |s| >= width then |s| else width
    ensures r[|r| - |s|..] == s
    ensures forall i :: 0 <= i < |r| - |s| ==> r[i] == '0'
  {
    if |s| >= width then s else seq(width - |s|, _ => '0') + s
  }

  /** `Array#join(sep)` on strings. */
  function Join(parts: seq<string>, sep: string): (r: string)
    ensures parts == [] ==> r == ""
    ensures |parts| == 1 ==> r == parts[0]
  {
    if parts == [] then ""
    else if |parts| == 1 then parts[0]
    else parts[0] + sep + Join(parts[1..], sep)
  }

  /** Joining one more part appends the separator and that part. */
  lemma {:induction false} JoinAppend(parts: seq<string>, p: string, sep: string)
    requires parts != []
    ensures Join(parts + [p], sep) == Join(parts, sep) + sep + p
    decreases |parts|
  {
    if |parts| > 1 {
      assert (parts + [p])[1..] == parts[1..] + [p];
      JoinAppend(parts[1..], p, sep);
    }
  }
}
