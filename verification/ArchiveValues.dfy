/** The values of archived events, and the two scans over them: each keeps a stack of
    values to visit, and finds what a recursive definition says. */
module ArchiveValues {
  import opened Wrappers

  datatype Value = Null | Flag(flag: bool) | Whole(n: int) | Fraction(r: real) | NonFinite | Text(text: string)
                 | List(items: seq<Value>) | Object(fields: seq<Field>)

  /** A key of an object and its value; keys do not repeat. */
  datatype Field = Field(key: string, value: Value)

  function Get(fields: seq<Field>, key: string): Option<Value> {
    if fields == [] then None
    else if fields[0].key == key then Some(fields[0].value)
    else Get(fields[1..], key)
  }

  /** Equal to one, as Python compares: true and 1.0 are. */
  predicate IsOne(v: Option<Value>) { v == Some(Whole(1)) || v == Some(Flag(true)) || v == Some(Fraction(1.0)) }

  const OPAQUE_COMMAND_ID := List([Text("langgraph"), Text("types"), Text("Command")])

  /** The object that stands for a command that could not be serialized. */
  predicate IsMarker(fields: seq<Field>) {
    IsOne(Get(fields, "lc")) && Get(fields, "type") == Some(Text("not_implemented"))
    && Get(fields, "id") == Some(OPAQUE_COMMAND_ID)
  }

  /** A marker somewhere in the value, outside what "repr" keys hold. */
  predicate HasMarker(v: Value) {
    match v
    case Object(fields) =>
      IsMarker(fields) || exists i :: 0 <= i < |fields| && fields[i].key != "repr" && HasMarker(fields[i].value)
    case List(items) => exists i :: 0 <= i < |items| && HasMarker(items[i])
    case _ => false
  }

  /** Only plain data: finite numbers, and no keys that mean something to a serializer. */
  predicate Plain(v: Value) {
    match v
    case NonFinite => false
    case Object(fields) =>
      forall i :: 0 <= i < |fields| ==>
          fields[i].key != "lc" && fields[i].key != "__lc_escaped__" && Plain(fields[i].value)
    case List(items) => forall i :: 0 <= i < |items| ==> Plain(items[i])
    case _ => true
  }

  /** The number of values in a value. */
  function Size(v: Value): (n: nat)
    ensures n > 0
  {
    match v
    case Object(fields) => 1 + FieldsSize(fields)
    case List(items) => 1 + StackSize(items)
    case _ => 1
  }

  function FieldsSize(fields: seq<Field>): nat {
    if fields == [] then 0 else Size(fields[0].value) + FieldsSize(fields[1..])
  }

  function StackSize(items: seq<Value>): nat {
    if items == [] then 0 else Size(items[0]) + StackSize(items[1..])
  }

  /** The values of fields, without those of "repr" when `skip` holds. */
  function Values(fields: seq<Field>, skip: bool): seq<Value> {
    if fields == [] then []
    else (if skip && fields[0].key == "repr" then [] else [fields[0].value]) + Values(fields[1..], skip)
  }

  lemma {:induction false} StackSizeConcat(a: seq<Value>, b: seq<Value>)
    ensures StackSize(a + b) == StackSize(a) + StackSize(b)
  {
    if a == [] {
      assert a + b == b;
    } else {
      assert (a + b)[1..] == a[1..] + b;
      StackSizeConcat(a[1..], b);
    }
  }

  lemma {:induction false} ValuesSize(fields: seq<Field>, skip: bool)
    ensures StackSize(Values(fields, skip)) <= FieldsSize(fields)
  {
    if fields != [] {
      ValuesSize(fields[1..], skip);
      var rest := Values(fields[1..], skip);
      assert [] + rest == rest && ([fields[0].value] + rest)[1..] == rest;
    }
  }

  lemma {:induction false} ValuesHold(fields: seq<Field>, skip: bool, v: Value)
    ensures v in Values(fields, skip) <==>
        exists i :: 0 <= i < |fields| && !(skip && fields[i].key == "repr") && fields[i].value == v
  {
    if fields != [] {
      ValuesHold(fields[1..], skip, v);
      if v in Values(fields[1..], skip) {
        var i :| 0 <= i < |fields[1..]| && !(skip && fields[1..][i].key == "repr") && fields[1..][i].value == v;
        assert fields[i + 1].value == v;
      }
      if exists i :: 0 < i < |fields| && !(skip && fields[i].key == "repr") && fields[i].value == v {
        var i :| 0 < i < |fields| && !(skip && fields[i].key == "repr") && fields[i].value == v;
        assert fields[1..][i - 1].value == v;
      }
    }
  }

  /** Taking the last value off a stack and pushing values that weigh less lightens it. */
  lemma {:induction false} StackLightens(stack: seq<Value>, pushed: seq<Value>)
    requires stack != [] && StackSize(pushed) < Size(stack[|stack| - 1])
    ensures StackSize(stack[..|stack| - 1] + pushed) < StackSize(stack)
  {
    var rest, top := stack[..|stack| - 1], stack[|stack| - 1];
    hide Size, StackSize;
    assert StackSize(stack) == StackSize(rest) + Size(top) by {
      assert stack == rest + [top];
      StackSizeConcat(rest, [top]);
      OneSize(top);
    }
    assert StackSize(rest + pushed) == StackSize(rest) + StackSize(pushed) by { StackSizeConcat(rest, pushed); }
  }

  lemma OneSize(v: Value)
    ensures StackSize([v]) == Size(v)
  {
    hide Size;
    assert [v][1..] == [];
  }

  ghost predicate SomeMarked(stack: seq<Value>) { exists i :: 0 <= i < |stack| && HasMarker(stack[i]) }

  ghost predicate AllPlain(stack: seq<Value>) { forall i :: 0 <= i < |stack| ==> Plain(stack[i]) }

  lemma SomeMarkedConcat(a: seq<Value>, b: seq<Value>)
    ensures SomeMarked(a + b) <==> SomeMarked(a) || SomeMarked(b)
  {
    hide HasMarker;
    if SomeMarked(a) {
      var i :| 0 <= i < |a| && HasMarker(a[i]);
      assert (a + b)[i] == a[i];
    }
    if SomeMarked(b) {
      var i :| 0 <= i < |b| && HasMarker(b[i]);
      assert (a + b)[|a| + i] == b[i];
    }
  }

  lemma AllPlainConcat(a: seq<Value>, b: seq<Value>)
    ensures AllPlain(a + b) <==> AllPlain(a) && AllPlain(b)
  {
    hide Plain;
    if AllPlain(a + b) {
      assert forall i :: 0 <= i < |a| ==> (a + b)[i] == a[i];
      assert forall i :: 0 <= i < |b| ==> (a + b)[|a| + i] == b[i];
    }
  }

  lemma MarkedObject(fields: seq<Field>)
    ensures HasMarker(Object(fields)) <==> IsMarker(fields) || SomeMarked(Values(fields, true))
  {
    forall v
      ensures v in Values(fields, true) <==>
          exists i :: 0 <= i < |fields| && fields[i].key != "repr" && fields[i].value == v
    {
      ValuesHold(fields, true, v);
    }
    if SomeMarked(Values(fields, true)) {
      var k :| 0 <= k < |Values(fields, true)| && HasMarker(Values(fields, true)[k]);
      assert Values(fields, true)[k] in Values(fields, true);
    }
    if !IsMarker(fields) && HasMarker(Object(fields)) {
      var i :| 0 <= i < |fields| && fields[i].key != "repr" && HasMarker(fields[i].value);
      assert fields[i].value in Values(fields, true);
    }
  }

  lemma PlainObject(fields: seq<Field>)
    ensures Plain(Object(fields)) <==>
      && (forall i :: 0 <= i < |fields| ==> fields[i].key != "lc" && fields[i].key != "__lc_escaped__")
      && AllPlain(Values(fields, false))
  {
    forall v ensures v in Values(fields, false) <==> exists i :: 0 <= i < |fields| && fields[i].value == v {
      ValuesHold(fields, false, v);
    }
    if AllPlain(Values(fields, false)) {
      forall i | 0 <= i < |fields| ensures Plain(fields[i].value) { assert fields[i].value in Values(fields, false); }
    }
    if Plain(Object(fields)) {
      forall k | 0 <= k < |Values(fields, false)| ensures Plain(Values(fields, false)[k]) {
        assert Values(fields, false)[k] in Values(fields, false);
      }
    }
  }

  method ContainsOpaqueCommandMarker(node: Value) returns (found: bool)
    ensures found == HasMarker(node)
  {
    hide HasMarker, StackSize, IsMarker;
    var stack := [node];
    assert SomeMarked(stack) <==> HasMarker(node) by { assert HasMarker(node) ==> HasMarker(stack[0]); }
    while stack != []
      invariant HasMarker(node) <==> SomeMarked(stack)
      decreases StackSize(stack)
    {
      var rest, current := stack[..|stack| - 1], stack[|stack| - 1];
      assert stack == rest + [current];
      SomeMarkedConcat(rest, [current]);
      OneMarked(current);
      var pushed := [];
      if current.Object? {
        MarkedObject(current.fields);
        if IsMarker(current.fields) {
          return true;
        }
        pushed := Values(current.fields, true);
      } else if current.List? {
        MarkedList(current.items);
        pushed := current.items;
      } else {
        MarkedAtom(current);
      }
      ChildrenWeighLess(current, true);
      SomeMarkedConcat(rest, pushed);
      StackLightens(stack, pushed);
      stack := rest + pushed;
    }
    return false;
  }

  lemma OneMarked(v: Value)
    ensures SomeMarked([v]) <==> HasMarker(v)
  {
    if HasMarker(v) { assert HasMarker([v][0]); }
  }

  lemma MarkedList(items: seq<Value>)
    ensures HasMarker(List(items)) <==> SomeMarked(items)
  {}

  lemma MarkedAtom(v: Value)
    requires !v.Object? && !v.List?
    ensures !HasMarker(v) && !SomeMarked([])
  {}

  lemma ChildrenWeighLess(v: Value, skip: bool)
    ensures v.Object? ==> StackSize(Values(v.fields, skip)) < Size(v)
    ensures v.List? ==> StackSize(v.items) < Size(v)
    ensures StackSize([]) < Size(v)
  {
    if v.Object? { ValuesSize(v.fields, skip); }
  }

  method CheckPlainSubset(node: Value) returns (ok: bool)
    ensures ok == Plain(node)
  {
    hide Plain, StackSize;
    var stack := [node];
    assert AllPlain(stack) <==> Plain(node) by { assert stack[0] == node; }
    while stack != []
      invariant Plain(node) <==> AllPlain(stack)
      decreases StackSize(stack)
    {
      var rest, current := stack[..|stack| - 1], stack[|stack| - 1];
      assert stack == rest + [current];
      AllPlainConcat(rest, [current]);
      assert AllPlain([current]) <==> Plain(current) by { assert [current][0] == current; }
      var pushed := [];
      if current.NonFinite? {
        PlainAtom(current);
        return false;
      } else if current.Object? {
        PlainObject(current.fields);
        for i := 0 to |current.fields|
          invariant forall k :: 0 <= k < i ==>
              current.fields[k].key != "lc" && current.fields[k].key != "__lc_escaped__"
        {
          if current.fields[i].key == "lc" || current.fields[i].key == "__lc_escaped__" {
            return false;
          }
        }
        pushed := Values(current.fields, false);
      } else if current.List? {
        PlainList(current.items);
        pushed := current.items;
      } else {
        PlainAtom(current);
      }
      ChildrenWeighLess(current, false);
      AllPlainConcat(rest, pushed);
      StackLightens(stack, pushed);
      stack := rest + pushed;
    }
    return true;
  }

  lemma PlainList(items: seq<Value>)
    ensures Plain(List(items)) <==> AllPlain(items)
  {}

  lemma PlainAtom(v: Value)
    requires !v.Object? && !v.List?
    ensures Plain(v) <==> !v.NonFinite?
    ensures AllPlain([])
  {}
}
