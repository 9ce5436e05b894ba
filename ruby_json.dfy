/** Parsed JSON as the Ruby code sees it, and the Ruby operations the core applies to
    such values: `v['key']`, `v[:error]`, `first`, `empty?`, `round`, `sum`, and `to_s`
    in string interpolation. Each operation either yields a value or raises a
    StandardError whose message is given in Ruby 3.4's wording. */
module RubyJson {
  import opened Text

  /** A JSON number as `JSON.parse` returns it: an Integer for a literal without
      fraction or exponent, otherwise a Float, kept here as its exact decimal value
      `mant / 10^scale`. */
  datatype Num = Int(i: int) | Dec(mant: int, scale: nat)

  /** `JSON.parse` output: nil, true/false, numbers, strings, arrays and hashes with
      string keys in document order. */
  datatype Json =
    | JNull
    | JBool(b: bool)
    | JNum(n: Num)
    | JStr(s: string)
    | JArr(items: seq<Json>)
    | JObj(members: seq<Member>)

  datatype Member = Member(key: string, value: Json)

  /** What `JSON.parse(body)` gives: a value, or `JSON::ParserError`. */
  datatype JsonText = Parsed(value: Json) | Unparsable

  /** The result of evaluating a Ruby expression: a value, or a raised exception. */
  datatype Eval<+T> = Value(value: T) | Raise(message: string)

  function Pow10(s: nat): (p: nat)
    ensures p >= 1
  {
    if s == 0 then 1 else 10 * Pow10(s - 1)
  }

  /** Ruby's class name for a JSON value. */
  function ClassName(j: Json): string {
    match j
    case JNull => "NilClass"
    case JBool(b) => if b then "TrueClass" else "FalseClass"
    case JNum(n) => if n.Int? then "Integer" else "Float"
    case JStr(_) => "String"
    case JArr(_) => "Array"
    case JObj(_) => "Hash"
  }

  /** How Ruby 3.4 names a receiver in a NoMethodError. */
  function Receiver(j: Json): string {
    match j
    case JNull => "nil"
    case JBool(b) => if b then "true" else "false"
    case _ => "an instance of " + ClassName(j)
  }

  function NoMethod(name: string, j: Json): string {
    "undefined method '" + name + "' for " + Receiver(j)
  }

  function NoConversion(from: string, into: string): string {
    "no implicit conversion of " + from + " into " + into
  }

  /** The value of the last member named `key` (`JSON.parse` keeps the last of
      duplicate keys), nil when there is none. */
  function Lookup(members: seq<Member>, key: string): (v: Json)
    ensures v != JNull ==> exists i :: 0 <= i < |members| && members[i].key == key && members[i].value == v
    ensures (forall i :: 0 <= i < |members| ==> members[i].key != key) ==> v == JNull
  {
    if members == [] then JNull
    else if members[|members| - 1].key == key then members[|members| - 1].value
    else Lookup(members[..|members| - 1], key)
  }

  predicate IsSubstring(needle: string, hay: string) {
    exists i, j :: 0 <= i <= j <= |hay| && hay[i..j] == needle
  }

  /** `v['key']`: a hash looks the key up, a string answers the key if it contains
      it (String#[] with a String argument), nil and the other classes raise. */
  function Index(j: Json, key: string): (r: Eval<Json>)
    ensures j.JObj? ==> r == Value(Lookup(j.members, key))
    ensures r.Value? <==> j.JObj? || j.JStr?
  {
    match j
    case JObj(ms) => Value(Lookup(ms, key))
    case JStr(s) => Value(if IsSubstring(key, s) then JStr(key) else JNull)
    case JArr(_) => Raise(NoConversion("String", "Integer"))
    case JNum(n) => if n.Int? then Raise(NoConversion("String", "Integer")) else Raise(NoMethod("[]", j))
    case _ => Raise(NoMethod("[]", j))
  }

  /** `hash['k1']['k2']`: two successive indexings, the first raise winning. */
  function Index2(j: Json, k1: string, k2: string): (r: Eval<Json>)
    ensures j.JObj? && Lookup(j.members, k1).JObj? ==> r == Value(Lookup(Lookup(j.members, k1).members, k2))
    ensures r.Value? ==> j.JObj? || j.JStr?
  {
    match Index(j, k1)
    case Raise(m) => Raise(m)
    case Value(v) => Index(v, k2)
  }

  /** `v[:error]`: a parsed hash has only string keys, so a symbol finds nothing;
      the other classes raise. */
  function SymbolIndex(j: Json): (r: Eval<Json>)
    ensures r.Value? <==> j.JObj?
    ensures r.Value? ==> r.value == JNull
  {
    match j
    case JObj(_) => Value(JNull)
    case JStr(_) => Raise(NoConversion("Symbol", "Integer"))
    case JArr(_) => Raise(NoConversion("Symbol", "Integer"))
    case JNum(n) => if n.Int? then Raise(NoConversion("Symbol", "Integer")) else Raise(NoMethod("[]", j))
    case _ => Raise(NoMethod("[]", j))
  }

  /** `v.first`: an array's first element, a hash's first [key, value] pair, nil
      when empty; a string's first character (ActiveSupport's `String#first`, ""
      for ""); the other classes raise. */
  function First(j: Json): (r: Eval<Json>)
    ensures j.JArr? && j.items != [] ==> r == Value(j.items[0])
    ensures j.JStr? ==> r.Value? && r.value.JStr? && r.value.s == j.s[..if j.s == "" then 0 else 1]
    ensures r.Value? <==> j.JArr? || j.JObj? || j.JStr?
  {
    match j
    case JArr(items) => Value(if items == [] then JNull else items[0])
    case JObj(ms) =>
      Value(if ms == [] then JNull else JArr([JStr(ms[0].key), ms[0].value]))
    case JStr(s) => Value(JStr(if s == "" then "" else s[..1]))
    case _ => Raise(NoMethod("first", j))
  }

  /** A one-character string contains no key longer than one character, so
      indexing it by such a key gives nil. */
  lemma ShortStringIndex(c: string, key: string)
    requires |c| <= 1 && |key| > 1
    ensures Index(JStr(c), key) == Value(JNull)
  {
  }

  /** `v.empty?` for arrays, hashes and strings; the other classes raise. */
  function IsEmpty(j: Json): (r: Eval<bool>)
    ensures r.Value? <==> j.JArr? || j.JObj? || j.JStr?
    ensures j.JArr? ==> r == Value(j.items == [])
  {
    match j
    case JArr(items) => Value(items == [])
    case JObj(ms) => Value(ms == [])
    case JStr(s) => Value(s == "")
    case _ => Raise(NoMethod("empty?", j))
  }

  /** Ruby truthiness: everything except nil and false. */
  predicate Truthy(j: Json) {
    !(j.JNull? || j == JBool(false))
  }

  /** Rounds n / d to the nearest integer, halves away from zero (`Float#round`). */
  function RoundHalfAway(n: int, d: int): (r: int)
    requires d > 0
    ensures n >= 0 ==> r >= 0 && d * (2 * r - 1) <= 2 * n < d * (2 * r + 1)
    ensures n < 0 ==> r <= 0 && d * (2 * r - 1) < 2 * n <= d * (2 * r + 1)
  {
    if n >= 0 then
      var q := (2 * n + d) / (2 * d);
      DivBounds(2 * n + d, 2 * d);
      q
    else
      var q := (2 * (-n) + d) / (2 * d);
      DivBounds(2 * (-n) + d, 2 * d);
      -q
  }

  lemma DivBounds(a: int, b: int)
    requires a >= 0 && b > 0
    ensures a / b >= 0
    ensures b * (a / b) <= a < b * (a / b) + b
  {
  }

  /** `Numeric#round` with no digits: an Integer is itself, a Float rounds halves
      away from zero; the other classes raise. */
  function Round(j: Json): (r: Eval<int>)
    ensures r.Value? <==> j.JNum?
    ensures j.JNum? && j.n.Int? ==> r == Value(j.n.i)
  {
    match j
    case JNum(n) =>
      (match n
       case Int(i) => Value(i)
       case Dec(m, s) => Value(RoundHalfAway(m, Pow10(s))))
    case _ => Raise(NoMethod("round", j))
  }

  /** A running `Array#sum`: Integer while every term was an Integer, otherwise the
      exact value `num / den` of the Float sum. */
  datatype Acc = IntAcc(i: int) | RealAcc(num: int, den: int)

  ghost predicate AccValid(a: Acc) {
    a.RealAcc? ==> a.den > 0
  }

  function CoerceName(j: Json): string {
    match j
    case JNull => "nil"
    case JBool(b) => if b then "true" else "false"
    case _ => ClassName(j)
  }

  /** `acc + v` for one term of `Array#sum`: Integer + Integer stays Integer, any
      Float makes the sum a Float, a non-number raises a TypeError. */
  function AddTerm(acc: Acc, j: Json): (r: Eval<Acc>)
    requires AccValid(acc)
    ensures r.Value? <==> j.JNum?
    ensures r.Value? ==> AccValid(r.value)
    ensures r.Value? ==> (r.value.IntAcc? <==> acc.IntAcc? && j.n.Int?)
  {
    match j
    case JNum(n) =>
      (match (acc, n)
       case (IntAcc(a), Int(b)) => Value(IntAcc(a + b))
       case (IntAcc(a), Dec(m, s)) => Value(RealAcc(a * Pow10(s) + m, Pow10(s)))
       case (RealAcc(x, d), Int(b)) => Value(RealAcc(x + b * d, d))
       case (RealAcc(x, d), Dec(m, s)) =>
         PositiveProduct(d, Pow10(s));
         Value(RealAcc(x * Pow10(s) + m * d, d * Pow10(s))))
    case _ =>
      Raise(CoerceName(j) + " can't be coerced into " + (if acc.IntAcc? then "Integer" else "Float"))
  }

  lemma PositiveProduct(a: int, b: int)
    requires a > 0 && b > 0
    ensures a * b > 0
  {
  }

  /** `Array#sum` from an accumulator, left to right; the first term that is not a
      number raises. */
  function SumFrom(acc: Acc, js: seq<Json>): (r: Eval<Acc>)
    requires AccValid(acc)
    ensures r.Value? <==> forall i :: 0 <= i < |js| ==> js[i].JNum?
    ensures r.Value? ==> AccValid(r.value)
    ensures r.Value? ==> (r.value.IntAcc? <==> acc.IntAcc? && forall i :: 0 <= i < |js| ==> js[i].n.Int?)
    decreases |js|
  {
    if js == [] then Value(acc)
    else
      match AddTerm(acc, js[0])
      case Raise(m) => Raise(m)
      case Value(a) =>
        var r := SumFrom(a, js[1..]);
        assert forall i :: 1 <= i < |js| ==> js[i] == js[1..][i - 1];
        r
  }

  /** `Array#sum` (starting from Integer 0). */
  function Sum(js: seq<Json>): (r: Eval<Acc>)
    ensures r.Value? <==> forall i :: 0 <= i < |js| ==> js[i].JNum?
    ensures r.Value? ==> AccValid(r.value)
    ensures r.Value? ==> (r.value.IntAcc? <==> forall i :: 0 <= i < |js| ==> js[i].n.Int?)
  {
    SumFrom(IntAcc(0), js)
  }

  /** The integer sum of Integers is their arithmetic sum. */
  function IntTotal(js: seq<Json>): int
    requires forall i :: 0 <= i < |js| ==> js[i].JNum? && js[i].n.Int?
  {
    if js == [] then 0 else js[0].n.i + IntTotal(js[1..])
  }

  lemma {:induction false} SumFromInts(a: int, js: seq<Json>)
    requires forall i :: 0 <= i < |js| ==> js[i].JNum? && js[i].n.Int?
    ensures SumFrom(IntAcc(a), js) == Value(IntAcc(a + IntTotal(js)))
    decreases |js|
  {
    if js != [] {
      SumFromInts(a + js[0].n.i, js[1..]);
    }
  }

  /** The exact value of a JSON number. */
  function NumValue(n: Num): real {
    match n
    case Int(i) => i as real
    case Dec(m, s) => m as real / Pow10(s) as real
  }

  /** The exact value an accumulator stands for. */
  function AccValue(a: Acc): real
    requires AccValid(a)
  {
    match a
    case IntAcc(i) => i as real
    case RealAcc(n, d) => n as real / d as real
  }

  /** The exact total of a list of numbers, term by term: the reference `Array#sum`
      is proved to compute. */
  function ExactTotal(js: seq<Json>): real
    requires forall i :: 0 <= i < |js| ==> js[i].JNum?
  {
    if js == [] then 0.0 else NumValue(js[0].n) + ExactTotal(js[1..])
  }

  lemma FractionSum(x: real, d: real, m: real, p: real)
    requires d != 0.0 && p != 0.0
    ensures (x * p + m * d) / (d * p) == x / d + m / p
  {
    var q1 := x / d;
    var q2 := m / p;
    assert x == q1 * d;
    assert m == q2 * p;
    assert x * p + m * d == (q1 + q2) * (d * p);
  }

  lemma CastMul(a: int, b: int)
    ensures (a * b) as real == (a as real) * (b as real)
  {
  }

  /** x/d + m/p over the common denominator d·p. */
  lemma AddFraction(x: int, d: int, m: int, p: int)
    requires d > 0 && p > 0
    ensures ((x * p + m * d) as real) / ((d * p) as real) == x as real / d as real + m as real / p as real
  {
    CastMul(x, p);
    CastMul(m, d);
    CastMul(d, p);
    FractionSum(x as real, d as real, m as real, p as real);
  }

  /** One step of `Array#sum` adds the term's exact value. */
  lemma AddTermExact(acc: Acc, j: Json)
    requires AccValid(acc) && j.JNum?
    ensures AccValue(AddTerm(acc, j).value) == AccValue(acc) + NumValue(j.n)
  {
    match (acc, j.n)
    case (IntAcc(a), Int(b)) =>
    case (IntAcc(a), Dec(m, s)) =>
      AddFraction(a, 1, m, Pow10(s));
    case (RealAcc(x, d), Int(b)) =>
      AddFraction(x, d, b, 1);
    case (RealAcc(x, d), Dec(m, s)) =>
      AddFraction(x, d, m, Pow10(s));
  }

  lemma {:induction false} SumFromExact(acc: Acc, js: seq<Json>)
    requires AccValid(acc)
    requires forall i :: 0 <= i < |js| ==> js[i].JNum?
    ensures AccValue(SumFrom(acc, js).value) == AccValue(acc) + ExactTotal(js)
    decreases |js|
  {
    if js != [] {
      AddTermExact(acc, js[0]);
      var a := AddTerm(acc, js[0]).value;
      assert forall i :: 0 <= i < |js[1..]| ==> js[1..][i] == js[i + 1];
      SumFromExact(a, js[1..]);
    }
  }

  /** `Array#sum` of numbers stands for their exact total, Integer or Float. */
  lemma SumIsExactTotal(js: seq<Json>)
    requires forall i :: 0 <= i < |js| ==> js[i].JNum?
    ensures AccValue(Sum(js).value) == ExactTotal(js)
  {
    SumFromExact(IntAcc(0), js);
  }

  /** r is the integer nearest to x, halves going away from zero. */
  predicate NearestHalfAway(r: int, x: real) {
    (x >= 0.0 ==> r as real - 0.5 <= x < r as real + 0.5)
    && (x < 0.0 ==> r as real - 0.5 < x <= r as real + 0.5)
  }

  lemma ScaleOrder(k: real, u: real, v: real)
    requires k > 0.0
    ensures u < v <==> k * u < k * v
  {
  }
  /** Within a window of k·(2m ∓ 1) around k·2x, x is within half of m. */
  lemma RealWindowAbove(k: real, m: real, x: real, a: real, b: real, c: real)
    requires k > 0.0 && a == k * (2.0 * m - 1.0) && b == k * (2.0 * x) && c == k * (2.0 * m + 1.0)
    requires a <= b < c
    ensures m - 0.5 <= x < m + 0.5
  {
    ScaleOrder(k, 2.0 * x, 2.0 * m - 1.0);
    ScaleOrder(k, 2.0 * x, 2.0 * m + 1.0);
  }

  lemma RealWindowBelow(k: real, m: real, x: real, a: real, b: real, c: real)
    requires k > 0.0 && a == k * (2.0 * m - 1.0) && b == k * (2.0 * x) && c == k * (2.0 * m + 1.0)
    requires a < b <= c
    ensures m - 0.5 < x <= m + 0.5
  {
    ScaleOrder(k, 2.0 * m - 1.0, 2.0 * x);
    ScaleOrder(k, 2.0 * m + 1.0, 2.0 * x);
  }

  lemma CastOrder(a: int, b: int)
    ensures a <= b ==> a as real <= b as real
    ensures a < b ==> a as real < b as real
  {
  }
  lemma WindowCasts(n: int, d: int, r: int, x: real)
    requires d > 0 && x == n as real / d as real
    ensures (d * (2 * r - 1)) as real == (d as real) * (2.0 * r as real - 1.0)
    ensures (d * (2 * r + 1)) as real == (d as real) * (2.0 * r as real + 1.0)
    ensures (2 * n) as real == (d as real) * (2.0 * x)
    ensures n >= 0 <==> x >= 0.0
  {
    CastMul(d, 2 * r - 1);
    CastMul(d, 2 * r + 1);
    assert x * (d as real) == n as real;
  }

  /** Bounds on 2n in multiples of d place n / d within half of r. */
  lemma NearestFromBounds(n: int, d: int, r: int)
    requires d > 0
    requires n >= 0 ==> d * (2 * r - 1) <= 2 * n < d * (2 * r + 1)
    requires n < 0 ==> d * (2 * r - 1) < 2 * n <= d * (2 * r + 1)
    ensures NearestHalfAway(r, n as real / d as real)
  {
    var x := n as real / d as real;
    var lo, mid, hi := d * (2 * r - 1), 2 * n, d * (2 * r + 1);
    WindowCasts(n, d, r, x);
    CastOrder(lo, mid);
    CastOrder(mid, hi);
    if n >= 0 {
      RealWindowAbove(d as real, r as real, x, lo as real, mid as real, hi as real);
    } else {
      RealWindowBelow(d as real, r as real, x, lo as real, mid as real, hi as real);
    }
  }

  /** `RoundHalfAway(n, d)` is the integer nearest to n / d, halves away from
      zero. */
  lemma RoundHalfAwayNearest(n: int, d: int)
    requires d > 0
    ensures NearestHalfAway(RoundHalfAway(n, d), n as real / d as real)
  {
    NearestFromBounds(n, d, RoundHalfAway(n, d));
  }

  /** Float#to_s on a value given exactly: trailing zeros dropped, at least one
      fractional digit. */
  function DecToString(mant: int, scale: nat): string
    decreases scale
  {
    if scale > 0 && mant % 10 == 0 then DecToString(mant / 10, scale - 1)
    else if scale == 0 then IntToString(mant) + ".0"
    else
      var a: nat := if mant < 0 then -mant else mant;
      var p := Pow10(scale);
      DivBounds(a, p);
      var whole: nat := a / p;
      var frac: nat := a - p * whole;
      (if mant < 0 then "-" else "") + NatToString(whole) + "."
        + PadZero(NatToString(frac), scale)
  }

  function NumToString(n: Num): string {
    match n
    case Int(i) => IntToString(i)
    case Dec(m, s) => DecToString(m, s)
  }

  /** `to_s`, as `"#{v}"` writes a value. */
  function ToS(j: Json): string {
    match j
    case JNull => ""
    case JStr(s) => s
    case _ => Inspect(j)
  }

  /** `inspect`: strings quoted, nil as "nil", arrays and hashes in Ruby 3.4's form. */
  function Inspect(j: Json): string
    decreases j, 1
  {
    match j
    case JNull => "nil"
    case JBool(b) => if b then "true" else "false"
    case JNum(n) => NumToString(n)
    case JStr(s) => "\"" + s + "\""
    case JArr(items) => "[" + InspectItems(j, items) + "]"
    case JObj(ms) => "{" + InspectMembers(j, ms) + "}"
  }

  function InspectItems(ghost parent: Json, items: seq<Json>): string
    requires forall i :: 0 <= i < |items| ==> items[i] < parent
    decreases parent, 0, |items|
  {
    if items == [] then ""
    else if |items| == 1 then Inspect(items[0])
    else Inspect(items[0]) + ", " + InspectItems(parent, items[1..])
  }

  function InspectMembers(ghost parent: Json, ms: seq<Member>): string
    requires forall i :: 0 <= i < |ms| ==> ms[i].value < parent
    decreases parent, 0, |ms|
  {
    if ms == [] then ""
    else
      var head := "\"" + ms[0].key + "\" => " + Inspect(ms[0].value);
      if |ms| == 1 then head else head + ", " + InspectMembers(parent, ms[1..])
  }
}
