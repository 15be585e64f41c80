/** Strings as UTF-16 code units, their UTF-8 bytes, and the byte order of strings. */
module Utf8Order {
  import opened Wrappers

  type Unit = u: int | 0 <= u <= 0xFFFF

  type Text = seq<Unit>

  predicate IsHigh(u: int) { 0xD800 <= u <= 0xDBFF }

  predicate IsLow(u: int) { 0xDC00 <= u <= 0xDFFF }

  /** Every surrogate belongs to a pair: high, then low. */
  predicate WellFormed(s: Text) {
    if s == [] then true
    else if IsHigh(s[0]) then |s| > 1 && IsLow(s[1]) && WellFormed(s[2..])
    else !IsLow(s[0]) && WellFormed(s[1..])
  }

  method RequireWellFormed(value: Text) returns (ok: bool)
    ensures ok == WellFormed(value)
  {
    var index := 0;
    while index < |value|
      invariant 0 <= index <= |value| && WellFormed(value) == WellFormed(value[index..])
    {
      var unit := value[index];
      if IsHigh(unit) {
        if index + 1 >= |value| || !IsLow(value[index + 1]) {
          return false;
        }
        assert value[index..][2..] == value[index + 2..];
        index := index + 1;
      } else if IsLow(unit) {
        return false;
      } else {
        assert value[index..][1..] == value[index + 1..];
      }
      index := index + 1;
    }
    return true;
  }

  /** A Unicode scalar value. */
  predicate IsScalar(c: int) { 0 <= c < 0xD800 || 0xE000 <= c <= 0x10FFFF }

  function PairValue(high: int, low: int): int { 0x10000 + (high - 0xD800) * 0x400 + (low - 0xDC00) }

  function Decode(s: Text): (points: seq<int>)
    requires WellFormed(s)
    ensures forall c <- points :: IsScalar(c)
  {
    if s == [] then []
    else if IsHigh(s[0]) then [PairValue(s[0], s[1])] + Decode(s[2..])
    else [s[0]] + Decode(s[1..])
  }

  /** The UTF-8 form of a scalar value, as section 3 of RFC 3629 gives it. */
  function Utf8(c: int): (bytes: seq<int>)
    requires IsScalar(c)
    ensures 1 <= |bytes| <= 4 && forall b <- bytes :: 0 <= b < 256
  {
    if c < 0x80 then [c]
    else if c < 0x800 then [0xC0 + c / 64, 0x80 + c % 64]
    else if c < 0x10000 then [0xE0 + c / 4096, 0x80 + c / 64 % 64, 0x80 + c % 64]
    else [0xF0 + c / 262144, 0x80 + c / 4096 % 64, 0x80 + c / 64 % 64, 0x80 + c % 64]
  }

  function EncodePoints(points: seq<int>): seq<int>
    requires forall c <- points :: IsScalar(c)
  {
    if points == [] then [] else Utf8(points[0]) + EncodePoints(points[1..])
  }

  function Encode(s: Text): seq<int>
    requires WellFormed(s)
  {
    EncodePoints(Decode(s))
  }

  /** The first difference of two byte strings, or the difference of their lengths. */
  function ByteDifference(a: seq<int>, b: seq<int>): int {
    if a == [] || b == [] then |a| - |b|
    else if a[0] != b[0] then a[0] - b[0]
    else ByteDifference(a[1..], b[1..])
  }

  /** The comparison of two strings; ill-formed strings are refused. */
  method CompareUtf8(left: Text, right: Text) returns (result: Option<int>)
    ensures result == if WellFormed(left) && WellFormed(right)
                      then Some(ByteDifference(Encode(left), Encode(right))) else None
  {
    var leftOk := RequireWellFormed(left);
    var rightOk := RequireWellFormed(right);
    if !leftOk || !rightOk {
      return None;
    }
    var a, b := Encode(left), Encode(right);
    var length := if |a| <= |b| then |a| else |b|;
    for index := 0 to length
      invariant ByteDifference(a, b) == ByteDifference(a[index..], b[index..])
    {
      var difference := a[index] - b[index];
      if difference != 0 {
        return Some(difference);
      }
      assert a[index..][1..] == a[index + 1..] && b[index..][1..] == b[index + 1..];
    }
    return Some(|a| - |b|);
  }

  // ---------- the order of code points ----------

  /** Lexicographic order of code points. */
  predicate Precedes(a: seq<int>, b: seq<int>) {
    if b == [] then false
    else if a == [] then true
    else a[0] < b[0] || (a[0] == b[0] && Precedes(a[1..], b[1..]))
  }

  lemma ByteDifferenceOfPrefix(p: seq<int>, a: seq<int>, b: seq<int>)
    requires |p| <= 4
    ensures ByteDifference(p + a, p + b) == ByteDifference(a, b)
  {
    if p == [] {
      assert p + a == a && p + b == b;
    } else {
      assert (p + a)[1..] == p[1..] + a && (p + b)[1..] == p[1..] + b;
      ByteDifferenceOfPrefix(p[1..], a, b);
    }
  }

  lemma ByteDifferenceSwaps(a: seq<int>, b: seq<int>)
    ensures ByteDifference(a, b) == -ByteDifference(b, a)
  {}

  /** Smaller scalar values have smaller UTF-8 forms, whatever follows them. */
  lemma Utf8KeepsOrder(c: int, d: int, a: seq<int>, b: seq<int>)
    requires IsScalar(c) && IsScalar(d) && c < d
    ensures ByteDifference(Utf8(c) + a, Utf8(d) + b) < 0
  {
    hide Utf8;
    var x, y := Utf8(c), Utf8(d);
    var i := FirstDifference(c, d);
    assert x + a == x[..i] + (x[i..] + a) && y + b == x[..i] + (y[i..] + b);
    ByteDifferenceOfPrefix(x[..i], x[i..] + a, y[i..] + b);
  }

  /** Where two byte strings first differ, and that the byte of the first is smaller there. */
  predicate DifferAt(x: seq<int>, y: seq<int>, i: nat) { i < |x| && i < |y| && x[..i] == y[..i] && x[i] < y[i] }

  /** A smaller number has a smaller quotient by 64, or the same one and a smaller digit. */
  lemma DigitStep(q: int, r: int, p: int, s: int)
    requires 64 * q + r < 64 * p + s && 0 <= r < 64 && 0 <= s < 64
    ensures q < p || (q == p && r < s)
  {}

  lemma SmallerDigits(c: int, d: int)
    requires c < d
    ensures c / 64 < d / 64 || (c / 64 == d / 64 && c % 64 < d % 64)
  {
    DigitStep(c / 64, c % 64, d / 64, d % 64);
  }

  lemma Quotients(c: int)
    ensures c / 64 / 64 == c / 4096 && c / 4096 / 64 == c / 262144
  {}

  lemma FirstOfTwo(c: int, d: int) returns (i: nat)
    requires 0x80 <= c < d < 0x800
    ensures DifferAt(Utf8(c), Utf8(d), i)
  {
    SmallerDigits(c, d);
    i := if c / 64 < d / 64 then 0 else 1;
  }

  lemma FirstOfThree(c: int, d: int) returns (i: nat)
    requires IsScalar(c) && IsScalar(d) && 0x800 <= c < d < 0x10000
    ensures DifferAt(Utf8(c), Utf8(d), i)
  {
    SmallerDigits(c, d);
    Quotients(c);
    Quotients(d);
    if c / 64 == d / 64 {
      i := 2;
    } else {
      SmallerDigits(c / 64, d / 64);
      i := if c / 4096 < d / 4096 then 0 else 1;
    }
  }

  lemma FirstOfFour(c: int, d: int) returns (i: nat)
    requires 0x10000 <= c < d <= 0x10FFFF
    ensures DifferAt(Utf8(c), Utf8(d), i)
  {
    SmallerDigits(c, d);
    Quotients(c);
    Quotients(d);
    if c / 64 == d / 64 {
      i := 3;
    } else {
      SmallerDigits(c / 64, d / 64);
      if c / 4096 == d / 4096 {
        i := 2;
      } else {
        SmallerDigits(c / 4096, d / 4096);
        i := if c / 262144 < d / 262144 then 0 else 1;
      }
    }
  }

  /** The first byte tells the length of a form apart. */
  lemma FirstByte(c: int)
    requires IsScalar(c)
    ensures c < 0x80 ==> 0 <= Utf8(c)[0] < 0x80
    ensures 0x80 <= c < 0x800 ==> 0xC0 <= Utf8(c)[0] < 0xE0
    ensures 0x800 <= c < 0x10000 ==> 0xE0 <= Utf8(c)[0] < 0xF0
    ensures 0x10000 <= c ==> 0xF0 <= Utf8(c)[0]
  {}

  lemma FirstDifference(c: int, d: int) returns (i: nat)
    requires IsScalar(c) && IsScalar(d) && c < d
    ensures DifferAt(Utf8(c), Utf8(d), i)
  {
    hide Utf8;
    if 0x80 <= c && d < 0x800 {
      i := FirstOfTwo(c, d);
    } else if 0x800 <= c && d < 0x10000 {
      i := FirstOfThree(c, d);
    } else if 0x10000 <= c {
      i := FirstOfFour(c, d);
    } else {
      i := 0;
      FirstByte(c);
      FirstByte(d);
      if d < 0x80 { OneByte(c); OneByte(d); }
    }
  }

  lemma OneByte(c: int)
    requires 0 <= c < 0x80
    ensures Utf8(c) == [c]
  {}

  lemma {:induction false} EncodedOrder(p: seq<int>, q: seq<int>)
    requires (forall c <- p :: IsScalar(c)) && (forall c <- q :: IsScalar(c))
    ensures ByteDifference(EncodePoints(p), EncodePoints(q)) < 0 <==> Precedes(p, q)
    ensures ByteDifference(EncodePoints(p), EncodePoints(q)) == 0 <==> p == q
  {
    if p != [] && q != [] {
      var a, b := EncodePoints(p[1..]), EncodePoints(q[1..]);
      if p[0] == q[0] {
        ByteDifferenceOfPrefix(Utf8(p[0]), a, b);
        EncodedOrder(p[1..], q[1..]);
        assert p == [p[0]] + p[1..] && q == [q[0]] + q[1..];
      } else if p[0] < q[0] {
        Utf8KeepsOrder(p[0], q[0], a, b);
      } else {
        Utf8KeepsOrder(q[0], p[0], b, a);
        ByteDifferenceSwaps(EncodePoints(p), EncodePoints(q));
      }
    }
  }

  /** Distinct well-formed strings have distinct code points. */
  lemma {:induction false} DecodeInjective(s: Text, t: Text)
    requires WellFormed(s) && WellFormed(t) && Decode(s) == Decode(t)
    ensures s == t
  {
    if s != [] && t != [] {
      if IsHigh(s[0]) {
        assert Decode(s)[0] >= 0x10000;
        assert Decode(s)[1..] == Decode(s[2..]) && Decode(t)[1..] == Decode(t[2..]);
        DecodeInjective(s[2..], t[2..]);
        assert s == [s[0], s[1]] + s[2..] && t == [t[0], t[1]] + t[2..];
      } else {
        assert Decode(s)[0] < 0x10000;
        assert Decode(s)[1..] == Decode(s[1..]) && Decode(t)[1..] == Decode(t[1..]);
        DecodeInjective(s[1..], t[1..]);
        assert s == [s[0]] + s[1..] && t == [t[0]] + t[1..];
      }
    }
  }

  /** The sign of comparing two well-formed strings is their code-point order, and the
      comparison is 0 only for equal strings. */
  lemma CompareIsCodePointOrder(s: Text, t: Text)
    requires WellFormed(s) && WellFormed(t)
    ensures ByteDifference(Encode(s), Encode(t)) < 0 <==> Precedes(Decode(s), Decode(t))
    ensures ByteDifference(Encode(s), Encode(t)) > 0 <==> Precedes(Decode(t), Decode(s))
    ensures ByteDifference(Encode(s), Encode(t)) == 0 <==> s == t
  {
    EncodedOrder(Decode(s), Decode(t));
    EncodedOrder(Decode(t), Decode(s));
    ByteDifferenceSwaps(Encode(s), Encode(t));
    if Decode(s) == Decode(t) { DecodeInjective(s, t); }
  }

  /** UTF-8 byte order of strings; false on ill-formed strings. */
  predicate Below(s: Text, t: Text) {
    WellFormed(s) && WellFormed(t) && ByteDifference(Encode(s), Encode(t)) < 0
  }

  lemma {:induction false} PrecedesTransitive(a: seq<int>, b: seq<int>, c: seq<int>)
    requires Precedes(a, b) && Precedes(b, c)
    ensures Precedes(a, c)
  {
    if a != [] && a[0] == b[0] == c[0] { PrecedesTransitive(a[1..], b[1..], c[1..]); }
  }

  lemma BelowTransitive(a: Text, b: Text, c: Text)
    requires Below(a, b) && Below(b, c)
    ensures Below(a, c)
  {
    CompareIsCodePointOrder(a, b);
    CompareIsCodePointOrder(b, c);
    CompareIsCodePointOrder(a, c);
    PrecedesTransitive(Decode(a), Decode(b), Decode(c));
  }

  /** Exactly one of two distinct well-formed strings is below the other. */
  lemma BelowTotal(a: Text, b: Text)
    requires WellFormed(a) && WellFormed(b)
    ensures a == b <==> !Below(a, b) && !Below(b, a)
    ensures !(Below(a, b) && Below(b, a))
  {
    CompareIsCodePointOrder(a, b);
    ByteDifferenceSwaps(Encode(a), Encode(b));
  }

  lemma BelowOneWay(a: Text, b: Text)
    requires Below(a, b)
    ensures !Below(b, a)
  {
    BelowTotal(a, b);
  }

  /** Byte order is not code-unit order: a supplementary character is above a
      full-width one, although its first code unit is smaller. */
  lemma Utf16OrderDiffers()
    ensures var astral, private: Text := [0xD83D, 0xDE00], [0xFF5E];
            Below(private, astral) && astral[0] < private[0]
  {
    var astral, private: Text := [0xD83D, 0xDE00], [0xFF5E];
    assert astral[2..] == [] && private[1..] == [];
    assert Decode(private) == [0xFF5E] && Decode(astral) == [0x1F600];
    CompareIsCodePointOrder(private, astral);
  }
}
