/** JSON text: objects with their keys in UTF-8 byte order, integers in decimal, other
    numbers by their token, strings escaped as JSON does; the canonical form, which takes
    safe integers only; and a parser that recovers the value. */
module CanonicalJson {
  import opened Wrappers
  import opened Utf8Order

  /** A value; `Fraction` is a number that is not an integer, by its token. */
  datatype Json = Null | Bool(b: bool) | Num(n: int) | Fraction(token: Text) | Str(s: Text) | Arr(items: Items)
                | Obj(members: Members)

  datatype Items = NoItem | Item(head: Json, tail: Items)

  /** The own properties of an object, in the order they were added. */
  datatype Members = NoMember | Member(key: Text, value: Json, rest: Members)

  const MAX_SAFE := 9007199254740991

  function Keys(ms: Members): set<Text> {
    match ms case NoMember => {} case Member(key, _, rest) => {key} + Keys(rest)
  }

  /** An object has each key once. */
  predicate Proper(v: Json) {
    match v
    case Arr(items) => ProperItems(items)
    case Obj(members) => ProperMembers(members)
    case _ => true
  }

  predicate ProperItems(items: Items) {
    match items case NoItem => true case Item(head, tail) => Proper(head) && ProperItems(tail)
  }

  predicate ProperMembers(ms: Members) {
    match ms
    case NoMember => true
    case Member(key, value, rest) => key !in Keys(rest) && Proper(value) && ProperMembers(rest)
  }

  // ---------- number tokens ----------

  const MINUS: Unit := 0x2D
  const PLUS: Unit := 0x2B
  const DOT: Unit := 0x2E
  const UPPER_E: Unit := 0x45
  const LOWER_E: Unit := 0x65

  predicate IsDigit(u: int) { 0x30 <= u <= 0x39 }

  function DigitCount(t: Text): (n: nat)
    ensures n <= |t|
  {
    if t == [] || !IsDigit(t[0]) then 0 else 1 + DigitCount(t[1..])
  }

  /** The length of an integer at the start of the text: a sign and digits. */
  function IntegerLength(t: Text): (n: nat)
    ensures n <= |t|
  {
    if t != [] && t[0] == MINUS then
      if DigitCount(t[1..]) == 0 then 0 else 1 + DigitCount(t[1..])
    else DigitCount(t)
  }

  /** The length of a point with the digits after it. */
  function PointLength(t: Text): (n: nat)
    ensures n <= |t|
  {
    if t == [] || t[0] != DOT || DigitCount(t[1..]) == 0 then 0 else 1 + DigitCount(t[1..])
  }

  /** The length of an exponent. */
  function ExponentLength(t: Text): (n: nat)
    ensures n <= |t|
  {
    if t == [] || (t[0] != UPPER_E && t[0] != LOWER_E) then 0
    else
      var sign := if |t| > 1 && (t[1] == PLUS || t[1] == MINUS) then 1 else 0;
      var digits := DigitCount(t[1 + sign..]);
      if digits == 0 then 0 else 1 + sign + digits
  }

  /** Whether the digits of an integer start with a zero that is not alone. */
  predicate LeadingZero(integer: Text) {
    var digits := if integer != [] && integer[0] == MINUS then integer[1..] else integer;
    |digits| > 1 && digits[0] == 0x30
  }

  /** A number with a point or an exponent, as section 6 of RFC 8259 writes it. */
  predicate IsFraction(token: Text) {
    var n := IntegerLength(token);
    var point := PointLength(token[n..]);
    var exponent := ExponentLength(token[n + point..]);
    n > 0 && !LeadingZero(token[..n]) && point + exponent > 0 && n + point + exponent == |token|
  }

  /** What JSON text can hold: numbers, and well-formed strings and keys. */
  predicate Printable(v: Json) {
    match v
    case Fraction(token) => IsFraction(token)
    case Str(s) => WellFormed(s)
    case Arr(items) => PrintableItems(items)
    case Obj(members) => PrintableMembers(members)
    case _ => true
  }

  predicate PrintableItems(items: Items) {
    match items case NoItem => true case Item(head, tail) => Printable(head) && PrintableItems(tail)
  }

  predicate PrintableMembers(ms: Members) {
    match ms
    case NoMember => true
    case Member(key, value, rest) => WellFormed(key) && Printable(value) && PrintableMembers(rest)
  }

  /** All numbers are safe integers. */
  predicate InRange(v: Json) {
    match v
    case Num(n) => -MAX_SAFE <= n <= MAX_SAFE
    case Fraction(_) => false
    case Arr(items) => InRangeItems(items)
    case Obj(members) => InRangeMembers(members)
    case _ => true
  }

  predicate InRangeItems(items: Items) {
    match items case NoItem => true case Item(head, tail) => InRange(head) && InRangeItems(tail)
  }

  predicate InRangeMembers(ms: Members) {
    match ms case NoMember => true case Member(_, value, rest) => InRange(value) && InRangeMembers(rest)
  }

  /** What the canonical form accepts. */
  predicate Renderable(v: Json) { Printable(v) && InRange(v) }

  // ---------- sorting keys ----------

  function Insert(key: Text, value: Json, ms: Members): Members {
    match ms
    case NoMember => Member(key, value, NoMember)
    case Member(k, v, rest) =>
      if Below(key, k) then Member(key, value, ms) else Member(k, v, Insert(key, value, rest))
  }

  /** The value with every object's keys in byte order. */
  function Sorted(v: Json): Json {
    match v
    case Arr(items) => Arr(SortedItems(items))
    case Obj(members) => Obj(SortedMembers(members))
    case _ => v
  }

  function SortedItems(items: Items): Items {
    match items case NoItem => NoItem case Item(head, tail) => Item(Sorted(head), SortedItems(tail))
  }

  function SortedMembers(ms: Members): Members {
    match ms
    case NoMember => NoMember
    case Member(key, value, rest) => Insert(key, Sorted(value), SortedMembers(rest))
  }

  // ---------- text ----------

  const QUOTE: Unit := 0x22
  const BACKSLASH: Unit := 0x5C
  const COMMA: Unit := 0x2C
  const COLON: Unit := 0x3A
  const OPEN_ARRAY: Unit := 0x5B
  const CLOSE_ARRAY: Unit := 0x5D
  const OPEN_OBJECT: Unit := 0x7B
  const CLOSE_OBJECT: Unit := 0x7D
  const NULL_TEXT: Text := [0x6E, 0x75, 0x6C, 0x6C]
  const TRUE_TEXT: Text := [0x74, 0x72, 0x75, 0x65]
  const FALSE_TEXT: Text := [0x66, 0x61, 0x6C, 0x73, 0x65]

  function HexDigit(n: int): Unit
    requires 0 <= n < 16
  {
    if n < 10 then 0x30 + n else 0x61 + n - 10
  }

  /** The escape of one code unit, as section 7 of RFC 8259 allows it. */
  function Escape(u: Unit): Text {
    if u == QUOTE then [BACKSLASH, QUOTE]
    else if u == BACKSLASH then [BACKSLASH, BACKSLASH]
    else if u == 0x08 then [BACKSLASH, 0x62]
    else if u == 0x09 then [BACKSLASH, 0x74]
    else if u == 0x0A then [BACKSLASH, 0x6E]
    else if u == 0x0C then [BACKSLASH, 0x66]
    else if u == 0x0D then [BACKSLASH, 0x72]
    else if u < 0x20 then [BACKSLASH, 0x75, 0x30, 0x30, HexDigit(u / 16), HexDigit(u % 16)]
    else [u]
  }

  function EscapeAll(s: Text): Text { if s == [] then [] else Escape(s[0]) + EscapeAll(s[1..]) }

  function Quoted(s: Text): Text { [QUOTE] + EscapeAll(s) + [QUOTE] }

  function Digits(n: nat): (digits: Text)
    ensures digits != [] && forall u <- digits :: IsDigit(u)
  {
    if n < 10 then [0x30 + n] else Digits(n / 10) + [0x30 + n % 10]
  }

  function Decimal(n: int): Text { if n < 0 then [MINUS] + Digits(-n) else Digits(n) }

  /** JSON text in the order the value has. */
  function Plain(v: Json): Text {
    match v
    case Null => NULL_TEXT
    case Bool(b) => if b then TRUE_TEXT else FALSE_TEXT
    case Num(n) => Decimal(n)
    case Fraction(token) => token
    case Str(s) => Quoted(s)
    case Arr(items) => [OPEN_ARRAY] + PlainItems(items) + [CLOSE_ARRAY]
    case Obj(members) => [OPEN_OBJECT] + PlainMembers(members) + [CLOSE_OBJECT]
  }

  function PlainItems(items: Items): Text {
    match items
    case NoItem => []
    case Item(head, tail) => Plain(head) + (if tail.NoItem? then [] else [COMMA] + PlainItems(tail))
  }

  function PlainMembers(ms: Members): Text {
    match ms
    case NoMember => []
    case Member(key, value, rest) =>
      Quoted(key) + [COLON] + Plain(value) + (if rest.NoMember? then [] else [COMMA] + PlainMembers(rest))
  }

  /** The canonical text of a value, or none when it is refused. */
  function Canonical(v: Json): Option<Text> {
    if Renderable(v) then Some(Plain(Sorted(v))) else None
  }

  // ---------- parsing ----------

  function HexValue(u: Unit): Option<int> {
    if 0x30 <= u <= 0x39 then Some(u - 0x30)
    else if 0x61 <= u <= 0x66 then Some(u - 0x61 + 10)
    else None
  }

  /** One escaped or plain code unit, and what follows it. */
  function ParseUnit(t: Text): (parsed: Option<(Unit, Text)>)
    ensures parsed.Some? ==> |parsed.value.1| < |t|
  {
    if t == [] || t[0] == QUOTE || t[0] < 0x20 then None
    else if t[0] != BACKSLASH then Some((t[0], t[1..]))
    else if |t| < 2 then None
    else match t[1]
      case 0x22 => Some((QUOTE, t[2..]))
      case 0x5C => Some((BACKSLASH, t[2..]))
      case 0x62 => Some((0x08, t[2..]))
      case 0x74 => Some((0x09, t[2..]))
      case 0x6E => Some((0x0A, t[2..]))
      case 0x66 => Some((0x0C, t[2..]))
      case 0x72 => Some((0x0D, t[2..]))
      case 0x75 =>
        if |t| < 6 then None
        else
          var a, b, c, d := HexValue(t[2]), HexValue(t[3]), HexValue(t[4]), HexValue(t[5]);
          if a.None? || b.None? || c.None? || d.None? then None
          else Some((((a.value * 16 + b.value) * 16 + c.value) * 16 + d.value, t[6..]))
      case _ => None
  }

  /** The rest of a string after its opening quote. */
  function ParseString(t: Text): (parsed: Option<(Text, Text)>)
    ensures parsed.Some? ==> |parsed.value.1| < |t|
    decreases |t|
  {
    if t == [] then None
    else if t[0] == QUOTE then Some(([], t[1..]))
    else match ParseUnit(t)
      case None => None
      case Some((unit, rest)) =>
        match ParseString(rest)
        case None => None
        case Some((s, after)) => Some(([unit] + s, after))
  }

  function DigitsValue(digits: Text): int {
    if digits == [] then 0
    else
      var last: int := digits[|digits| - 1];
      DigitsValue(digits[..|digits| - 1]) * 10 + (last - 0x30)
  }

  function IntegerValue(integer: Text): int {
    if integer != [] && integer[0] == MINUS then -DigitsValue(integer[1..]) else DigitsValue(integer)
  }

  function ParseNumber(t: Text): (parsed: Option<(Json, Text)>)
    ensures parsed.Some? ==> |parsed.value.1| < |t|
  {
    var n := IntegerLength(t);
    var point := PointLength(t[n..]);
    var exponent := ExponentLength(t[n + point..]);
    if n == 0 then None
    else if point + exponent == 0 then Some((Num(IntegerValue(t[..n])), t[n..]))
    else if LeadingZero(t[..n]) then None
    else Some((Fraction(t[..n + point + exponent]), t[n + point + exponent..]))
  }

  function ParseWord(t: Text, word: Text, v: Json): (parsed: Option<(Json, Text)>)
    requires word != []
    ensures parsed.Some? ==> |parsed.value.1| < |t|
  {
    if word <= t then Some((v, t[|word|..])) else None
  }

  function ParseValue(t: Text): (parsed: Option<(Json, Text)>)
    ensures parsed.Some? ==> |parsed.value.1| < |t|
    decreases |t|, 1
  {
    if t == [] then None
    else if t[0] == NULL_TEXT[0] then ParseWord(t, NULL_TEXT, Null)
    else if t[0] == TRUE_TEXT[0] then ParseWord(t, TRUE_TEXT, Bool(true))
    else if t[0] == FALSE_TEXT[0] then ParseWord(t, FALSE_TEXT, Bool(false))
    else if t[0] == QUOTE then
      match ParseString(t[1..])
      case None => None
      case Some((s, rest)) => Some((Str(s), rest))
    else if t[0] == OPEN_ARRAY then
      if |t| > 1 && t[1] == CLOSE_ARRAY then Some((Arr(NoItem), t[2..]))
      else match ParseItems(t[1..])
        case None => None
        case Some((items, rest)) => Some((Arr(items), rest))
    else if t[0] == OPEN_OBJECT then
      if |t| > 1 && t[1] == CLOSE_OBJECT then Some((Obj(NoMember), t[2..]))
      else match ParseMembers(t[1..])
        case None => None
        case Some((members, rest)) => Some((Obj(members), rest))
    else ParseNumber(t)
  }

  /** Values separated by commas, up to the closing bracket. */
  function ParseItems(t: Text): (parsed: Option<(Items, Text)>)
    ensures parsed.Some? ==> |parsed.value.1| < |t|
    decreases |t|, 2
  {
    match ParseValue(t)
    case None => None
    case Some((head, rest)) =>
      if rest == [] then None
      else if rest[0] == CLOSE_ARRAY then Some((Item(head, NoItem), rest[1..]))
      else if rest[0] != COMMA then None
      else match ParseItems(rest[1..])
        case None => None
        case Some((tail, after)) => Some((Item(head, tail), after))
  }

  /** Key and value pairs separated by commas, up to the closing brace. */
  function ParseMembers(t: Text): (parsed: Option<(Members, Text)>)
    ensures parsed.Some? ==> |parsed.value.1| < |t|
    decreases |t|, 0
  {
    if t == [] || t[0] != QUOTE then None
    else match ParseString(t[1..])
      case None => None
      case Some((key, afterKey)) =>
        if afterKey == [] || afterKey[0] != COLON then None
        else match ParseValue(afterKey[1..])
          case None => None
          case Some((value, rest)) =>
            if rest == [] then None
            else if rest[0] == CLOSE_OBJECT then Some((Member(key, value, NoMember), rest[1..]))
            else if rest[0] != COMMA then None
            else match ParseMembers(rest[1..])
              case None => None
              case Some((members, after)) => Some((Member(key, value, members), after))
  }

  function Parse(t: Text): Option<Json> {
    match ParseValue(t)
    case None => None
    case Some((v, rest)) => if rest == [] then Some(v) else None
  }
}
