/** Canonical JSON identifies values: a parser undoes it up to key order, and two values
    have one canonical text exactly when they are the same JSON value. */
module CanonicalRoundTrip {
  import opened Wrappers
  import opened Utf8Order
  import opened CanonicalJson

  // ---------- strings and numbers ----------

  lemma ParseEscape(u: Unit, rest: Text)
    ensures ParseUnit(Escape(u) + rest) == Some((u, rest))
    ensures Escape(u) != [] && Escape(u)[0] != QUOTE
  {
    var t := Escape(u) + rest;
    if Escape(u)[0] == BACKSLASH {
      if t[1] == 0x75 { assert t[6..] == rest; } else { assert t[2..] == rest; }
    } else {
      assert t[1..] == rest;
    }
  }

  lemma {:induction false} ParseEscaped(s: Text, rest: Text)
    ensures ParseString(EscapeAll(s) + [QUOTE] + rest) == Some((s, rest))
  {
    var t := EscapeAll(s) + [QUOTE] + rest;
    if s == [] {
      assert t[1..] == rest;
    } else {
      var after := EscapeAll(s[1..]) + [QUOTE] + rest;
      assert t == Escape(s[0]) + after;
      ParseEscape(s[0], after);
      ParseEscaped(s[1..], rest);
      assert [s[0]] + s[1..] == s;
    }
  }

  predicate StartsWithDigit(t: Text) { t != [] && IsDigit(t[0]) }

  lemma {:induction false} CountDigits(digits: Text, rest: Text)
    requires forall u <- digits :: IsDigit(u)
    requires !StartsWithDigit(rest)
    ensures DigitCount(digits + rest) == |digits|
  {
    if digits == [] {
      assert digits + rest == rest;
    } else {
      assert (digits + rest)[1..] == digits[1..] + rest;
      CountDigits(digits[1..], rest);
    }
  }

  lemma {:induction false} DigitsValueOfDigits(n: nat)
    ensures DigitsValue(Digits(n)) == n
  {
    if n < 10 {
      assert Digits(n)[..0] == [];
    } else {
      var digits := Digits(n);
      DigitsValueOfDigits(n / 10);
      assert digits[..|digits| - 1] == Digits(n / 10);
    }
  }

  lemma ParseDecimal(n: int, rest: Text)
    requires EndsNumber(rest)
    ensures ParseNumber(Decimal(n) + rest) == Some((Num(n), rest))
    ensures IsDigit(Decimal(n)[0]) || Decimal(n)[0] == MINUS
  {
    hide Digits, DigitsValue, DigitCount;
    var digits := Digits(if n < 0 then -n else n);
    var t := Decimal(n) + rest;
    assert digits[0] in digits;
    CountDigits(digits, rest);
    DigitsValueOfDigits(if n < 0 then -n else n);
    assert (if n < 0 then t[1..] else t) == digits + rest;
    assert t[..|Decimal(n)|] == Decimal(n) && t[|Decimal(n)|..] == rest;
  }

  /** What follows a number: nothing that would go on with it. */
  predicate EndsNumber(rest: Text) {
    rest == [] || (!IsDigit(rest[0]) && rest[0] != DOT && rest[0] != UPPER_E && rest[0] != LOWER_E)
  }

  /** The digits at the start of a text stay the same when something is added after it. */
  lemma {:induction false} DigitsApart(t: Text, rest: Text)
    requires !StartsWithDigit(rest)
    ensures DigitCount(t + rest) == DigitCount(t)
  {
    if t == [] {
      assert t + rest == rest;
    } else {
      assert (t + rest)[1..] == t[1..] + rest;
      DigitsApart(t[1..], rest);
    }
  }

  lemma IntegerApart(t: Text, rest: Text)
    requires !StartsWithDigit(rest) && (t == [] ==> rest == [] || rest[0] != MINUS)
    ensures IntegerLength(t + rest) == IntegerLength(t)
  {
    hide DigitCount;
    DigitsApart(t, rest);
    if t == [] {
      assert t + rest == rest;
    } else {
      assert (t + rest)[1..] == t[1..] + rest;
      DigitsApart(t[1..], rest);
    }
  }

  lemma PointApart(t: Text, rest: Text)
    requires EndsNumber(rest)
    ensures PointLength(t + rest) == PointLength(t)
  {
    hide DigitCount;
    if t == [] {
      assert t + rest == rest;
    } else {
      assert (t + rest)[1..] == t[1..] + rest;
      DigitsApart(t[1..], rest);
    }
  }

  lemma ExponentApart(t: Text, rest: Text)
    requires EndsNumber(rest) && ExponentLength(t) == |t|
    ensures ExponentLength(t + rest) == |t|
  {
    hide DigitCount;
    if t == [] {
      assert t + rest == rest;
    } else {
      var sign := if |t| > 1 && (t[1] == PLUS || t[1] == MINUS) then 1 else 0;
      assert (t + rest)[1 + sign..] == t[1 + sign..] + rest;
      DigitsApart(t[1 + sign..], rest);
    }
  }

  /** The parser reads a number token back, whatever delimiter follows it. */
  lemma ParseFraction(token: Text, rest: Text)
    requires IsFraction(token) && EndsNumber(rest)
    ensures ParseNumber(token + rest) == Some((Fraction(token), rest))
    ensures token != [] && (IsDigit(token[0]) || token[0] == MINUS)
  {
    hide IntegerLength, PointLength, ExponentLength, LeadingZero;
    var t, n := token + rest, IntegerLength(token);
    var point := PointLength(token[n..]);
    NumberStarts(token);
    IntegerApart(token, rest);
    assert t[n..] == token[n..] + rest;
    PointApart(token[n..], rest);
    assert t[n + point..] == token[n + point..] + rest;
    ExponentApart(token[n + point..], rest);
    assert t[..n] == token[..n] && t[..|token|] == token && t[|token|..] == rest;
  }

  lemma NumberStarts(t: Text)
    requires IntegerLength(t) > 0
    ensures t != [] && (IsDigit(t[0]) || t[0] == MINUS)
  {}

  // ---------- values ----------

  lemma PlainStarts(v: Json)
    requires Printable(v)
    ensures Plain(v) != [] && Plain(v)[0] != CLOSE_ARRAY && Plain(v)[0] != CLOSE_OBJECT
  {
    if v.Num? { ParseDecimal(v.n, []); }
    if v.Fraction? { ParseFraction(v.token, []); }
  }

  /** The parser undoes the text of a value, whatever follows it. */
  lemma {:induction false} ParsePlain(v: Json, rest: Text)
    requires Printable(v)
    requires EndsNumber(rest)
    ensures ParseValue(Plain(v) + rest) == Some((v, rest))
    decreases v
  {
    hide ParseItems, ParseMembers, ParseString, ParseNumber, EscapeAll, Decimal, WellFormed, PlainItems, PlainMembers;
    var t := Plain(v) + rest;
    match v
    case Null => assert t[4..] == rest;
    case Bool(b) => if b { assert t[4..] == rest; } else { assert t[5..] == rest; }
    case Num(n) => ParseDecimal(n, rest);
    case Fraction(token) =>
      ParseFraction(token, rest);
      assert t[0] == token[0];
    case Str(s) =>
      ParseEscaped(s, rest);
      assert t[1..] == EscapeAll(s) + [QUOTE] + rest;
    case Arr(items) => ParseArray(items, rest);
    case Obj(members) => ParseObject(members, rest);
  }

  lemma {:induction false} ParseArray(items: Items, rest: Text)
    requires PrintableItems(items)
    ensures ParseValue(Plain(Arr(items)) + rest) == Some((Arr(items), rest))
    decreases items, 1
  {
    hide ParseItems, ParseMembers, ParseString, ParseNumber, WellFormed, Printable;
    var t := Plain(Arr(items)) + rest;
    if items.NoItem? {
      assert t[2..] == rest;
    } else {
      assert t[1..] == PlainItems(items) + [CLOSE_ARRAY] + rest;
      PlainStarts(items.head);
      assert t[1] == Plain(items.head)[0];
      ParsePlainItems(items, rest);
    }
  }

  lemma {:induction false} ParseObject(members: Members, rest: Text)
    requires PrintableMembers(members)
    ensures ParseValue(Plain(Obj(members)) + rest) == Some((Obj(members), rest))
    decreases members, 1
  {
    hide ParseItems, ParseMembers, ParseString, ParseNumber, WellFormed, Printable;
    var t := Plain(Obj(members)) + rest;
    if members.NoMember? {
      assert t[2..] == rest;
    } else {
      assert t[1..] == PlainMembers(members) + [CLOSE_OBJECT] + rest;
      assert t[1] == QUOTE;
      ParsePlainMembers(members, rest);
    }
  }

  lemma {:induction false} ParsePlainItems(items: Items, rest: Text)
    requires items.Item? && PrintableItems(items)
    ensures ParseItems(PlainItems(items) + [CLOSE_ARRAY] + rest) == Some((items, rest))
    decreases items, 0
  {
    hide ParseValue, Plain, Printable;
    var t := PlainItems(items) + [CLOSE_ARRAY] + rest;
    if items.tail.NoItem? {
      var after := [CLOSE_ARRAY] + rest;
      assert t == Plain(items.head) + after;
      ParsePlain(items.head, after);
      assert after[1..] == rest;
    } else {
      var after := [COMMA] + (PlainItems(items.tail) + [CLOSE_ARRAY] + rest);
      assert t == Plain(items.head) + after;
      ParsePlain(items.head, after);
      assert after[1..] == PlainItems(items.tail) + [CLOSE_ARRAY] + rest;
      ParsePlainItems(items.tail, rest);
    }
  }

  /** The text of an object's members, taken apart. */
  lemma MembersText(ms: Members, rest: Text) returns (after: Text)
    requires ms.Member?
    ensures PlainMembers(ms) + [CLOSE_OBJECT] + rest
         == [QUOTE] + (EscapeAll(ms.key) + [QUOTE] + ([COLON] + (Plain(ms.value) + after)))
    ensures after == if ms.rest.NoMember? then [CLOSE_OBJECT] + rest
                     else [COMMA] + (PlainMembers(ms.rest) + [CLOSE_OBJECT] + rest)
  {
    hide EscapeAll, Plain;
    if ms.rest.NoMember? {
      after := [CLOSE_OBJECT] + rest;
    } else {
      after := [COMMA] + (PlainMembers(ms.rest) + [CLOSE_OBJECT] + rest);
      assert ([COMMA] + PlainMembers(ms.rest)) + [CLOSE_OBJECT] + rest == after;
    }
  }

  lemma {:induction false} ParsePlainMembers(ms: Members, rest: Text)
    requires ms.Member? && PrintableMembers(ms)
    ensures ParseMembers(PlainMembers(ms) + [CLOSE_OBJECT] + rest) == Some((ms, rest))
    decreases ms, 0
  {
    hide ParseValue, ParseString, Plain, PlainMembers, EscapeAll, Printable, WellFormed;
    var t := PlainMembers(ms) + [CLOSE_OBJECT] + rest;
    var after := MembersText(ms, rest);
    var afterKey := [COLON] + (Plain(ms.value) + after);
    assert t[1..] == EscapeAll(ms.key) + [QUOTE] + afterKey;
    ParseEscaped(ms.key, afterKey);
    assert afterKey[1..] == Plain(ms.value) + after;
    ParsePlain(ms.value, after);
    if ms.rest.NoMember? {
      assert after[1..] == rest;
    } else {
      assert after[1..] == PlainMembers(ms.rest) + [CLOSE_OBJECT] + rest;
      ParsePlainMembers(ms.rest, rest);
    }
  }

  // ---------- sorting ----------

  /** Every object has strictly increasing keys. */
  predicate Ordered(v: Json) {
    match v
    case Arr(items) => OrderedItems(items)
    case Obj(members) => OrderedMembers(members)
    case _ => true
  }

  predicate OrderedItems(items: Items) {
    match items case NoItem => true case Item(head, tail) => Ordered(head) && OrderedItems(tail)
  }

  predicate OrderedMembers(ms: Members) {
    match ms
    case NoMember => true
    case Member(key, value, rest) =>
      (forall k <- Keys(rest) :: Below(key, k)) && Ordered(value) && OrderedMembers(rest)
  }

  /** A JSON value in which objects are maps, so that key order is gone. */
  datatype Value = NullValue | BoolValue(b: bool) | NumValue(n: int) | FractionValue(token: Text) | StrValue(s: Text)
                 | ArrValue(items: seq<Value>) | ObjValue(members: map<Text, Value>)

  function Meaning(v: Json): Value {
    match v
    case Null => NullValue
    case Bool(b) => BoolValue(b)
    case Num(n) => NumValue(n)
    case Fraction(token) => FractionValue(token)
    case Str(s) => StrValue(s)
    case Arr(items) => ArrValue(MeaningItems(items))
    case Obj(members) => ObjValue(MeaningMembers(members))
  }

  function MeaningItems(items: Items): seq<Value> {
    match items case NoItem => [] case Item(head, tail) => [Meaning(head)] + MeaningItems(tail)
  }

  function MeaningMembers(ms: Members): (m: map<Text, Value>)
    ensures m.Keys == Keys(ms)
  {
    match ms
    case NoMember => map[]
    case Member(key, value, rest) => MeaningMembers(rest)[key := Meaning(value)]
  }

  /** Inserting a new key keeps the members apart from their order. */
  lemma {:induction false} InsertKeeps(key: Text, value: Json, ms: Members)
    requires key !in Keys(ms) && ProperMembers(ms) && Proper(value)
    requires WellFormed(key) && Printable(value) && PrintableMembers(ms)
    ensures var inserted := Insert(key, value, ms);
            && Keys(inserted) == {key} + Keys(ms)
            && MeaningMembers(inserted) == MeaningMembers(ms)[key := Meaning(value)]
            && PrintableMembers(inserted) && ProperMembers(inserted)
  {
    hide Below, Meaning, Printable, Proper, WellFormed;
    if ms.Member? && !Below(key, ms.key) {
      InsertKeeps(key, value, ms.rest);
      InsertMeaning(key, Meaning(value), ms.key, Meaning(ms.value), MeaningMembers(ms.rest));
    }
  }

  lemma InsertMeaning(a: Text, v: Value, b: Text, w: Value, m: map<Text, Value>)
    requires a != b
    ensures m[a := v][b := w] == m[b := w][a := v]
  {
  }

  lemma {:induction false} InsertOrders(key: Text, value: Json, ms: Members)
    requires key !in Keys(ms) && ProperMembers(ms) && Proper(value)
    requires WellFormed(key) && Printable(value) && PrintableMembers(ms)
    requires Ordered(value) && OrderedMembers(ms)
    ensures OrderedMembers(Insert(key, value, ms))
  {
    hide Below, Ordered, Printable, WellFormed;
    if ms.Member? {
      BelowTotal(key, ms.key);
      if Below(key, ms.key) {
        forall k <- Keys(ms) ensures Below(key, k) {
          if k != ms.key { BelowTransitive(key, ms.key, k); }
        }
      } else {
        InsertOrders(key, value, ms.rest);
        InsertKeeps(key, value, ms.rest);
      }
    }
  }

  /** Sorting a value changes nothing but the order of keys, which becomes increasing. */
  lemma {:induction false} SortingKeeps(v: Json)
    requires Proper(v) && Printable(v)
    ensures var sorted := Sorted(v);
            Meaning(sorted) == Meaning(v) && Ordered(sorted) && Proper(sorted) && Printable(sorted)
  {
    match v
    case Arr(items) => SortingItemsKeeps(items);
    case Obj(members) => SortingMembersKeeps(members);
    case _ =>
  }

  lemma {:induction false} SortingItemsKeeps(items: Items)
    requires ProperItems(items) && PrintableItems(items)
    ensures var sorted := SortedItems(items);
            && MeaningItems(sorted) == MeaningItems(items)
            && OrderedItems(sorted) && ProperItems(sorted) && PrintableItems(sorted)
  {
    if items.Item? {
      SortingKeeps(items.head);
      SortingItemsKeeps(items.tail);
    }
  }

  lemma {:induction false} SortingMembersKeeps(ms: Members)
    requires ProperMembers(ms) && PrintableMembers(ms)
    ensures var sorted := SortedMembers(ms);
            && MeaningMembers(sorted) == MeaningMembers(ms) && Keys(sorted) == Keys(ms)
            && OrderedMembers(sorted) && ProperMembers(sorted) && PrintableMembers(sorted)
  {
    if ms.Member? {
      SortingKeeps(ms.value);
      SortingMembersKeeps(ms.rest);
      InsertKeeps(ms.key, Sorted(ms.value), SortedMembers(ms.rest));
      InsertOrders(ms.key, Sorted(ms.value), SortedMembers(ms.rest));
    }
  }

  /** Values with increasing keys are told apart by their meaning. */
  lemma {:induction false} OrderedUnique(v: Json, w: Json)
    requires Ordered(v) && Ordered(w) && Meaning(v) == Meaning(w)
    ensures v == w
  {
    match v
    case Arr(items) => OrderedItemsUnique(items, w.items);
    case Obj(members) => OrderedMembersUnique(members, w.members);
    case _ =>
  }

  lemma {:induction false} OrderedItemsUnique(xs: Items, ys: Items)
    requires OrderedItems(xs) && OrderedItems(ys) && MeaningItems(xs) == MeaningItems(ys)
    ensures xs == ys
  {
    if xs.Item? && ys.Item? {
      assert MeaningItems(xs)[0] == Meaning(xs.head) && MeaningItems(xs)[1..] == MeaningItems(xs.tail);
      assert MeaningItems(ys)[0] == Meaning(ys.head) && MeaningItems(ys)[1..] == MeaningItems(ys.tail);
      OrderedUnique(xs.head, ys.head);
      OrderedItemsUnique(xs.tail, ys.tail);
    }
  }

  /** The first key of members with increasing keys is below every key of other such
      members that have the same keys and do not start with it. */
  lemma SameFirstKey(xs: Members, ys: Members)
    requires xs.Member? && ys.Member? && OrderedMembers(xs) && OrderedMembers(ys) && Keys(xs) == Keys(ys)
    ensures xs.key == ys.key && xs.key !in Keys(xs.rest) && ys.key !in Keys(ys.rest)
  {
    hide Below, Ordered;
    if xs.key != ys.key {
      assert xs.key in Keys(ys) && ys.key in Keys(xs);
      BelowOneWay(xs.key, ys.key);
      assert false;
    }
    if xs.key in Keys(xs.rest) || ys.key in Keys(ys.rest) {
      BelowOneWay(xs.key, xs.key);
      assert false;
    }
  }

  lemma {:induction false} OrderedMembersUnique(xs: Members, ys: Members)
    requires OrderedMembers(xs) && OrderedMembers(ys) && MeaningMembers(xs) == MeaningMembers(ys)
    ensures xs == ys
  {
    hide Below, Ordered, Meaning;
    assert Keys(xs) == Keys(ys);
    if xs.Member? && ys.Member? {
      SameFirstKey(xs, ys);
      var key := xs.key;
      assert MeaningMembers(xs)[key] == Meaning(xs.value) && MeaningMembers(ys)[key] == Meaning(ys.value);
      OrderedUnique(xs.value, ys.value);
      assert MeaningMembers(xs.rest) == MeaningMembers(xs) - {key} == MeaningMembers(ys.rest);
      OrderedMembersUnique(xs.rest, ys.rest);
    }
  }

  // ---------- main results ----------

  /** The parser recovers a value from its text with sorted keys. */
  lemma ParseUndoesText(v: Json)
    requires Proper(v) && Printable(v)
    ensures Parse(Plain(Sorted(v))) == Some(Sorted(v)) && Meaning(Sorted(v)) == Meaning(v)
  {
    SortingKeeps(v);
    ParsePlain(Sorted(v), []);
    assert Plain(Sorted(v)) + [] == Plain(Sorted(v));
  }

  /** One text with sorted keys, one JSON value; the size of its numbers does not matter. */
  lemma TextIdentifiesValues(v: Json, w: Json)
    requires Proper(v) && Proper(w) && Printable(v) && Printable(w)
    ensures Plain(Sorted(v)) == Plain(Sorted(w)) <==> Meaning(v) == Meaning(w)
  {
    hide Plain, Meaning;
    ParseUndoesText(v);
    ParseUndoesText(w);
    SortingKeeps(v);
    SortingKeeps(w);
    if Meaning(v) == Meaning(w) { OrderedUnique(Sorted(v), Sorted(w)); }
  }

  /** The parser recovers a value from its canonical text, with its keys in byte order;
      nothing else about it is lost. */
  lemma ParseUndoesCanonical(v: Json)
    requires Proper(v) && Renderable(v)
    ensures Canonical(v).Some?
    ensures Parse(Canonical(v).value) == Some(Sorted(v)) && Meaning(Sorted(v)) == Meaning(v)
  {
    ParseUndoesText(v);
  }

  /** One canonical text, one JSON value. */
  lemma CanonicalIdentifiesValues(v: Json, w: Json)
    requires Proper(v) && Proper(w) && Canonical(v).Some? && Canonical(w).Some?
    ensures Canonical(v) == Canonical(w) <==> Meaning(v) == Meaning(w)
  {
    TextIdentifiesValues(v, w);
  }

  lemma {:induction false} SortedInRange(v: Json)
    requires InRange(v)
    ensures InRange(Sorted(v))
  {
    match v
    case Arr(items) => SortedItemsInRange(items);
    case Obj(members) => SortedMembersInRange(members);
    case _ =>
  }

  lemma {:induction false} SortedItemsInRange(items: Items)
    requires InRangeItems(items)
    ensures InRangeItems(SortedItems(items))
  {
    if items.Item? {
      SortedInRange(items.head);
      SortedItemsInRange(items.tail);
    }
  }

  lemma {:induction false} SortedMembersInRange(ms: Members)
    requires InRangeMembers(ms)
    ensures InRangeMembers(SortedMembers(ms))
  {
    if ms.Member? {
      SortedInRange(ms.value);
      SortedMembersInRange(ms.rest);
      InsertInRange(ms.key, Sorted(ms.value), SortedMembers(ms.rest));
    }
  }

  lemma {:induction false} InsertInRange(key: Text, value: Json, ms: Members)
    requires InRange(value) && InRangeMembers(ms)
    ensures InRangeMembers(Insert(key, value, ms))
  {
    hide Below;
    if ms.Member? && !Below(key, ms.key) { InsertInRange(key, value, ms.rest); }
  }

  /** The canonical text is a fixed point: parsing it and rendering again changes nothing. */
  lemma CanonicalIsStable(v: Json)
    requires Proper(v) && Renderable(v)
    ensures var parsed := Parse(Canonical(v).value);
            parsed.Some? && Canonical(parsed.value) == Canonical(v)
  {
    ParseUndoesCanonical(v);
    SortingKeeps(v);
    SortedInRange(v);
    TextIdentifiesValues(Sorted(v), v);
  }

  // ---------- digests ----------

  lemma {:induction false} WellFormedConcat(s: Text, t: Text)
    requires WellFormed(s) && WellFormed(t)
    ensures WellFormed(s + t)
  {
    if s == [] {
      assert s + t == t;
    } else if IsHigh(s[0]) {
      assert (s + t)[2..] == s[2..] + t;
      WellFormedConcat(s[2..], t);
    } else {
      assert (s + t)[1..] == s[1..] + t;
      WellFormedConcat(s[1..], t);
    }
  }

  lemma {:induction false} PlainUnits(s: Text)
    requires forall u <- s :: !IsHigh(u) && !IsLow(u)
    ensures WellFormed(s)
  {
    if s != [] { PlainUnits(s[1..]); }
  }

  lemma {:induction false} EscapeAllWellFormed(s: Text)
    requires WellFormed(s)
    ensures WellFormed(EscapeAll(s))
  {
    if s == [] {
    } else if IsHigh(s[0]) {
      EscapeAllWellFormed(s[2..]);
      EscapePair(s);
    } else {
      EscapeAllWellFormed(s[1..]);
      PlainUnits(Escape(s[0]));
      WellFormedConcat(Escape(s[0]), EscapeAll(s[1..]));
    }
  }

  lemma EscapePair(s: Text)
    requires |s| > 1 && IsHigh(s[0]) && IsLow(s[1]) && WellFormed(EscapeAll(s[2..]))
    ensures WellFormed(EscapeAll(s))
  {
    var pair := [s[0], s[1]];
    assert s[1..][1..] == s[2..];
    assert EscapeAll(s[1..]) == [s[1]] + EscapeAll(s[2..]);
    assert EscapeAll(s) == pair + EscapeAll(s[2..]);
    assert pair[2..] == [];
    WellFormedConcat(pair, EscapeAll(s[2..]));
  }

  /** The canonical text can be encoded as UTF-8. */
  lemma {:induction false} PlainWellFormed(v: Json)
    requires Printable(v)
    ensures WellFormed(Plain(v))
  {
    hide WellFormed, EscapeAll, Digits;
    match v
    case Num(n) => PlainUnits(Plain(v));
    case Fraction(token) => FractionUnits(token);
    case Str(s) => QuotedWellFormed(s);
    case Arr(items) =>
      PlainItemsWellFormed(items);
      WrapWellFormed(OPEN_ARRAY, PlainItems(items), CLOSE_ARRAY);
    case Obj(members) =>
      PlainMembersWellFormed(members);
      WrapWellFormed(OPEN_OBJECT, PlainMembers(members), CLOSE_OBJECT);
    case _ => PlainUnits(Plain(v));
  }

  lemma {:induction false} DigitUnits(t: Text)
    ensures forall u <- t[..DigitCount(t)] :: IsDigit(u)
  {
    if t != [] && IsDigit(t[0]) {
      DigitUnits(t[1..]);
      assert t[..DigitCount(t)] == [t[0]] + t[1..][..DigitCount(t[1..])];
    }
  }

  predicate IsNumberUnit(u: Unit) { IsDigit(u) || u == MINUS || u == PLUS || u == DOT || u == UPPER_E || u == LOWER_E }

  lemma PartUnits(t: Text)
    ensures forall u <- t[..IntegerLength(t)] :: IsNumberUnit(u)
    ensures forall u <- t[..PointLength(t)] :: IsNumberUnit(u)
  {
    hide DigitCount;
    DigitUnits(t);
    if t != [] {
      DigitUnits(t[1..]);
      assert t[..1 + DigitCount(t[1..])] == [t[0]] + t[1..][..DigitCount(t[1..])];
    }
  }

  lemma ExponentUnits(t: Text)
    ensures forall u <- t[..ExponentLength(t)] :: IsNumberUnit(u)
  {
    hide DigitCount;
    if ExponentLength(t) > 0 {
      var sign := if |t| > 1 && (t[1] == PLUS || t[1] == MINUS) then 1 else 0;
      DigitUnits(t[1 + sign..]);
      assert t[..ExponentLength(t)] == t[..1 + sign] + t[1 + sign..][..DigitCount(t[1 + sign..])];
    }
  }

  lemma FractionUnits(token: Text)
    requires IsFraction(token)
    ensures WellFormed(token)
  {
    hide WellFormed, IntegerLength, PointLength, ExponentLength, LeadingZero;
    var n := IntegerLength(token);
    var point := PointLength(token[n..]);
    PartUnits(token);
    PartUnits(token[n..]);
    ExponentUnits(token[n + point..]);
    var last := token[n + point..];
    assert last[..ExponentLength(last)] == last;
    assert token == token[..n] + token[n..][..point] + last;
    forall u <- token ensures !IsHigh(u) && !IsLow(u) {
      assert u in token[..n] || u in token[n..][..point] || u in last;
      assert IsNumberUnit(u);
    }
    PlainUnits(token);
  }

  lemma WrapWellFormed(first: Unit, s: Text, last: Unit)
    requires WellFormed(s) && !IsHigh(first) && !IsLow(first) && !IsHigh(last) && !IsLow(last)
    ensures WellFormed([first] + s + [last])
  {
    hide WellFormed;
    PlainUnits([first]);
    PlainUnits([last]);
    WellFormedConcat([first], s);
    WellFormedConcat([first] + s, [last]);
  }

  lemma QuotedWellFormed(s: Text)
    requires WellFormed(s)
    ensures WellFormed(Quoted(s))
  {
    EscapeAllWellFormed(s);
    WrapWellFormed(QUOTE, EscapeAll(s), QUOTE);
  }

  lemma {:induction false} PlainItemsWellFormed(items: Items)
    requires PrintableItems(items)
    ensures WellFormed(PlainItems(items))
  {
    hide WellFormed, Printable, Plain;
    if items.NoItem? {
      PlainUnits([]);
    } else {
      PlainWellFormed(items.head);
      PlainItemsWellFormed(items.tail);
      PlainUnits([COMMA]);
      WellFormedConcat([COMMA], PlainItems(items.tail));
      PlainUnits([]);
      WellFormedConcat(Plain(items.head), if items.tail.NoItem? then [] else [COMMA] + PlainItems(items.tail));
    }
  }

  lemma {:induction false} PlainMembersWellFormed(ms: Members)
    requires PrintableMembers(ms)
    ensures WellFormed(PlainMembers(ms))
  {
    hide WellFormed, Printable, Plain, Quoted;
    PlainUnits([]);
    if ms.Member? {
      QuotedWellFormed(ms.key);
      PlainUnits([COLON]);
      WellFormedConcat(Quoted(ms.key), [COLON]);
      PlainWellFormed(ms.value);
      WellFormedConcat(Quoted(ms.key) + [COLON], Plain(ms.value));
      PlainMembersWellFormed(ms.rest);
      PlainUnits([COMMA]);
      WellFormedConcat([COMMA], PlainMembers(ms.rest));
      WellFormedConcat(Quoted(ms.key) + [COLON] + Plain(ms.value),
                       if ms.rest.NoMember? then [] else [COMMA] + PlainMembers(ms.rest));
    }
  }

  /** The digest of a value: the hash of the UTF-8 bytes of its canonical text. */
  function Sha256Canonical<D>(hash: seq<int> -> D, v: Json): Option<D> {
    match Canonical(v)
    case None => None
    case Some(text) => if WellFormed(text) then Some(hash(Encode(text))) else None
  }

  /** With a collision-free hash, values have one digest exactly when they are equal. */
  lemma DigestIdentifiesValues<D(!new)>(hash: seq<int> -> D, v: Json, w: Json)
    requires forall a, b :: hash(a) == hash(b) ==> a == b
    requires Proper(v) && Proper(w) && Renderable(v) && Renderable(w)
    ensures Sha256Canonical(hash, v).Some?
    ensures Sha256Canonical(hash, v) == Sha256Canonical(hash, w) <==> Meaning(v) == Meaning(w)
  {
    hide Encode, WellFormed, Meaning, Plain;
    CanonicalIdentifiesValues(v, w);
    SortingKeeps(v);
    SortingKeeps(w);
    var s, t := Canonical(v).value, Canonical(w).value;
    PlainWellFormed(Sorted(v));
    PlainWellFormed(Sorted(w));
    if hash(Encode(s)) == hash(Encode(t)) { SameBytes(s, t); }
  }

  lemma SameBytes(s: Text, t: Text)
    requires WellFormed(s) && WellFormed(t) && Encode(s) == Encode(t)
    ensures s == t
  {
    CompareIsCodePointOrder(s, t);
    ByteDifferenceOfEqual(Encode(s));
  }

  lemma ByteDifferenceOfEqual(a: seq<int>)
    ensures ByteDifference(a, a) == 0
  {}
}
