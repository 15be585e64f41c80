/** Canonical text of values whose objects are maps: written with sorted keys and no white
    space, as the interpreter writes numbers; and the files that hold such a text and a line
    end. */
module CanonicalValues {
  import opened Wrappers
  import opened Utf8Order
  import opened CanonicalJson
  import opened CanonicalRoundTrip

  /** The interpreter: the text it writes for the float it reads from a number token, and
      the most digits of an integer it converts, where zero stands for no limit. */
  datatype Interpreter = Interpreter(floatText: Text -> Text, digitLimit: nat)

  predicate IntegerFits(py: Interpreter, n: int) {
    py.digitLimit == 0 || |Digits(if n < 0 then -n else n)| <= py.digitLimit
  }

  /** Every number is one the interpreter reads and writes back as it was. */
  predicate Readable(py: Interpreter, v: Json) {
    match v
    case Num(n) => IntegerFits(py, n)
    case Fraction(token) => py.floatText(token) == token
    case Arr(items) => ReadableItems(py, items)
    case Obj(members) => ReadableMembers(py, members)
    case _ => true
  }

  predicate ReadableItems(py: Interpreter, items: Items) {
    match items case NoItem => true case Item(head, tail) => Readable(py, head) && ReadableItems(py, tail)
  }

  predicate ReadableMembers(py: Interpreter, ms: Members) {
    match ms
    case NoMember => true
    case Member(_, value, rest) => Readable(py, value) && ReadableMembers(py, rest)
  }

  /** `j` is a way to write the value `v`. */
  predicate Writes(py: Interpreter, j: Json, v: Value) {
    Proper(j) && Printable(j) && Readable(py, j) && Meaning(j) == v
  }

  ghost predicate IsJson(py: Interpreter, v: Value) { exists j :: Writes(py, j, v) }

  /** The text of a value with sorted keys: whichever way it is written. */
  ghost function CanonicalText(py: Interpreter, v: Value): Text
    requires IsJson(py, v)
  {
    var j :| Writes(py, j, v);
    Plain(Sorted(j))
  }

  lemma CanonicalTextOf(py: Interpreter, j: Json, v: Value)
    requires Writes(py, j, v)
    ensures IsJson(py, v) && CanonicalText(py, v) == Plain(Sorted(j))
  {
    hide Plain, Meaning;
    var chosen: Json :| Writes(py, chosen, v) && CanonicalText(py, v) == Plain(Sorted(chosen));
    TextIdentifiesValues(chosen, j);
  }

  /** Different values have different texts. */
  lemma CanonicalTextInjective(py: Interpreter, v: Value, w: Value)
    requires IsJson(py, v) && IsJson(py, w)
    ensures CanonicalText(py, v) == CanonicalText(py, w) <==> v == w
  {
    hide Plain, Meaning;
    var i: Json :| Writes(py, i, v);
    var j: Json :| Writes(py, j, w);
    CanonicalTextOf(py, i, v);
    CanonicalTextOf(py, j, w);
    TextIdentifiesValues(i, j);
  }

  // ---------- sorting keeps the numbers ----------

  lemma {:induction false} InsertReadable(py: Interpreter, key: Text, value: Json, ms: Members)
    requires Readable(py, value) && ReadableMembers(py, ms)
    ensures ReadableMembers(py, Insert(key, value, ms))
  {
    hide Below, Readable;
    if ms.Member? && !Below(key, ms.key) { InsertReadable(py, key, value, ms.rest); }
  }

  lemma {:induction false} SortedReadable(py: Interpreter, v: Json)
    requires Readable(py, v)
    ensures Readable(py, Sorted(v))
  {
    hide IntegerFits;
    match v
    case Arr(items) => SortedItemsReadable(py, items);
    case Obj(members) => SortedMembersReadable(py, members);
    case _ =>
  }

  lemma {:induction false} SortedItemsReadable(py: Interpreter, items: Items)
    requires ReadableItems(py, items)
    ensures ReadableItems(py, SortedItems(items))
  {
    hide Readable;
    if items.Item? {
      SortedReadable(py, items.head);
      SortedItemsReadable(py, items.tail);
    }
  }

  lemma {:induction false} SortedMembersReadable(py: Interpreter, ms: Members)
    requires ReadableMembers(py, ms)
    ensures ReadableMembers(py, SortedMembers(ms))
  {
    hide Readable;
    if ms.Member? {
      SortedReadable(py, ms.value);
      SortedMembersReadable(py, ms.rest);
      InsertReadable(py, ms.key, Sorted(ms.value), SortedMembers(ms.rest));
    }
  }

  // ---------- files ----------

  const LF: Unit := 10

  /** Strict parsing: one object, no key twice, no lone surrogates, a final line end, and
      not a byte away from the canonical text, which holds the numbers as the interpreter
      writes them. */
  function ParseArtifact(py: Interpreter, file: Text): Option<map<Text, Value>> {
    if file == [] || file[|file| - 1] != LF then None
    else match Parse(file[..|file| - 1])
      case Some(Obj(ms)) =>
        if Proper(Obj(ms)) && Printable(Obj(ms)) && Readable(py, Obj(ms)) && file == Plain(Sorted(Obj(ms))) + [LF]
        then Some(MeaningMembers(ms)) else None
      case _ => None
  }

  ghost function FileOf(py: Interpreter, m: map<Text, Value>): Text
    requires IsJson(py, ObjValue(m))
  {
    CanonicalText(py, ObjValue(m)) + [LF]
  }

  lemma WrittenIsParsed(py: Interpreter, m: map<Text, Value>)
    requires IsJson(py, ObjValue(m))
    ensures ParseArtifact(py, FileOf(py, m)) == Some(m)
  {
    hide Plain, Sorted, Parse;
    var j: Json :| Writes(py, j, ObjValue(m));
    CanonicalTextOf(py, j, ObjValue(m));
    ParseUndoesText(j);
    SortingKeeps(j);
    SortedReadable(py, j);
    var file := FileOf(py, m);
    assert file[..|file| - 1] == Plain(Sorted(j));
    TextIdentifiesValues(Sorted(j), j);
    ObjOfMeaning(Sorted(j), m);
  }

  lemma ObjOfMeaning(j: Json, m: map<Text, Value>)
    requires Meaning(j) == ObjValue(m)
    ensures j.Obj? && MeaningMembers(j.members) == m
  {}

  lemma ParsedIsWritten(py: Interpreter, file: Text)
    requires ParseArtifact(py, file).Some?
    ensures var m := ParseArtifact(py, file).value; IsJson(py, ObjValue(m)) && file == FileOf(py, m)
  {
    hide Plain, Sorted, Parse;
    var ms := Parse(file[..|file| - 1]).value.members;
    CanonicalTextOf(py, Obj(ms), ObjValue(MeaningMembers(ms)));
  }

  /** A file is accepted as a value exactly when it is that value's canonical text and a
      line end: every accepted value has one file. */
  lemma AcceptedExactly(py: Interpreter, file: Text, m: map<Text, Value>)
    ensures ParseArtifact(py, file) == Some(m) <==> IsJson(py, ObjValue(m)) && file == FileOf(py, m)
  {
    hide ParseArtifact, FileOf;
    if ParseArtifact(py, file) == Some(m) { ParsedIsWritten(py, file); }
    if IsJson(py, ObjValue(m)) && file == FileOf(py, m) { WrittenIsParsed(py, m); }
  }

  // ---------- which maps are JSON ----------

  lemma {:induction false} MapIsJson(py: Interpreter, m: map<Text, Value>)
    requires forall k <- m :: WellFormed(k) && IsJson(py, m[k])
    ensures IsJson(py, ObjValue(m))
    decreases |m|
  {
    hide Printable, Proper, Meaning, WellFormed;
    if m == map[] {
      EmptyIsJson(py);
    } else {
      var k :| k in m;
      var rest := m - {k};
      assert |rest| < |m| by { assert rest.Keys == m.Keys - {k}; assert |rest| == |rest.Keys| && |m| == |m.Keys|; }
      MapIsJson(py, rest);
      var j: Json :| Writes(py, j, ObjValue(rest));
      var i: Json :| Writes(py, i, m[k]);
      assert rest[k := m[k]] == m;
      AddMember(py, j, rest, k, i, m[k]);
    }
  }

  lemma EmptyIsJson(py: Interpreter)
    ensures IsJson(py, ObjValue(map[]))
  {
    var j := Obj(NoMember);
    assert MeaningMembers(NoMember) == map[] && PrintableMembers(NoMember) && ProperMembers(NoMember);
    assert ReadableMembers(py, NoMember);
    assert Writes(py, j, ObjValue(map[]));
  }

  lemma AddMember(py: Interpreter, j: Json, m: map<Text, Value>, k: Text, i: Json, v: Value)
    requires Writes(py, j, ObjValue(m)) && k !in m && WellFormed(k) && Writes(py, i, v)
    ensures IsJson(py, ObjValue(m[k := v]))
  {
    ObjOfMeaning(j, m);
    var ms := Member(k, i, j.members);
    assert ReadableMembers(py, j.members) && ReadableMembers(py, ms);
    assert ProperMembers(ms) && PrintableMembers(ms) && MeaningMembers(ms) == m[k := v];
    assert Writes(py, Obj(ms), ObjValue(m[k := v]));
  }

  lemma {:induction false} MemberIsJson(py: Interpreter, ms: Members, k: Text)
    requires ProperMembers(ms) && PrintableMembers(ms) && ReadableMembers(py, ms) && k in Keys(ms)
    ensures WellFormed(k) && IsJson(py, MeaningMembers(ms)[k])
  {
    hide WellFormed;
    if k == ms.key {
      assert Writes(py, ms.value, MeaningMembers(ms)[k]);
    } else {
      MemberIsJson(py, ms.rest, k);
    }
  }

  lemma JsonMap(py: Interpreter, m: map<Text, Value>)
    requires IsJson(py, ObjValue(m))
    ensures forall k <- m :: WellFormed(k) && IsJson(py, m[k])
  {
    hide WellFormed;
    var j: Json :| Writes(py, j, ObjValue(m));
    ObjOfMeaning(j, m);
    assert ReadableMembers(py, j.members);
    forall k <- m ensures WellFormed(k) && IsJson(py, m[k]) { MemberIsJson(py, j.members, k); }
  }

  lemma StringIsJson(py: Interpreter, s: Text)
    requires WellFormed(s)
    ensures IsJson(py, StrValue(s))
  {
    assert Writes(py, Str(s), StrValue(s));
  }

  /** Which numbers an artifact can hold: integers within the limit on digits, and every
      fraction that is written as the interpreter writes it. */
  lemma NumbersAreJson(py: Interpreter, n: int, token: Text)
    ensures IsJson(py, NumValue(n)) <==> IntegerFits(py, n)
    ensures IsJson(py, FractionValue(token)) <==> IsFraction(token) && py.floatText(token) == token
  {
    hide IntegerFits, IsFraction;
    if IntegerFits(py, n) { assert Writes(py, Num(n), NumValue(n)); }
    if IsFraction(token) && py.floatText(token) == token { assert Writes(py, Fraction(token), FractionValue(token)); }
    if IsJson(py, FractionValue(token)) {
      var j: Json :| Writes(py, j, FractionValue(token));
      assert j == Fraction(token);
    }
    if IsJson(py, NumValue(n)) {
      var j: Json :| Writes(py, j, NumValue(n));
      assert j == Num(n);
    }
  }

  lemma NullIsJson(py: Interpreter)
    ensures IsJson(py, NullValue)
  {
    assert Writes(py, Null, NullValue);
  }
}
