/** Qualifying an archive of events: one root span, one tool run inside it, a typed success
    at its end, and nothing opaque in a record that matters. */
module ArchiveLifecycle {
  import opened Wrappers
  import opened PythonTexts
  import opened ArchiveValues

  /** An event with a valid envelope; `data` are the fields of its data object, and `raw`
      is the whole record. */
  datatype Event = Event(kind: string, name: string, runId: string, parents: seq<string>, data: seq<Field>, raw: Value)

  const ROOT_START := "on_chain_start"
  const ROOT_END := "on_chain_end"
  const TOOL_START := "on_tool_start"
  const TOOL_END := "on_tool_end"
  const TOOL_ERROR := "on_tool_error"
  const TOOL_MESSAGE_ID := List([Text("langchain"), Text("schema"), Text("messages"), Text("ToolMessage")])

  datatype Code = MissingProvenance | UnsupportedProfile | InvalidSource | IncompleteSource | CorrelationConflict
      | UnsupportedScope
                | UnsupportedSerialization | SourceBindingFailure | OpaqueSourceExcluded

  datatype Rule =
    | RootFirst | SingleInvocation | SingleRootStart | NoSelfParent | NoDuplicateAncestors | ChildBelongsToRoot
    | RootInput
    | RootEndPresent | SingleRootEnd | RootEndName | NoToolError | ToolStartPresent | SingleToolStart | SingleToolRun
    | RunDistinctFromRoot | NestedUnderRoot | InputObject | InputSubset | TerminalPresent | SingleTerminal | RunIdMatch
    | ParentChainMatch | NameConsistency | StartPrecedesTerminal | TypedSuccessOnly | CommandTerminal | TypedToolMessage
    | KwargsObject | KwargsSubset | KwargsType | ToolCallIdPresent | ExplicitStatus | SuccessOnly | TerminalName
    | ContentShape
    | CachedInput | InputConflict | RootEndAfterTerminal | RequiredRecordOpaque | OpaqueCarrierExcluded
    | RequiredFields | EventString | NameNonempty | RunIdNonempty | ParentIdsStrings | DataObject | StableBytes
    | LoaderRule

  datatype Diagnostic = Diagnostic(code: Code, rule: Rule, line: int)

  /** Every code but the report of an exclusion is a refusal. */
  predicate Refuses(d: Diagnostic) { d.code != OpaqueSourceExcluded }

  predicate HasRefusal(ds: seq<Diagnostic>) { exists d <- ds :: Refuses(d) }

  // ---------- what an archive must be ----------

  predicate DistinctTexts(ts: seq<string>) { forall i, j :: 0 <= i < j < |ts| ==> ts[i] != ts[j] }

  predicate ChainOk(root: string, e: Event) {
    && e.runId !in e.parents && DistinctTexts(e.parents)
    && (e.parents != [] ==> e.parents[0] == root)
  }

  /** The archive opens with the root's start; nothing else at top level but ends of that
      root; every chain of parents begins at the root and repeats nothing. */
  predicate AncestryOk(events: seq<Event>) {
    && events != [] && events[0].parents == [] && events[0].kind == ROOT_START
    && (forall i :: 0 < i < |events| && events[i].parents == [] ==>
          events[i].runId == events[0].runId && events[i].kind == ROOT_END)
    && (forall i :: 0 <= i < |events| ==> ChainOk(events[0].runId, events[i]))
    && Get(events[0].data, "input").Some?
  }

  /** `i` is the only event of which `p` holds. */
  predicate Only(events: seq<Event>, p: Event -> bool, i: int) {
    0 <= i < |events| && p(events[i]) && forall j :: 0 <= j < |events| && p(events[j]) ==> j == i
  }

  function IsKind(kind: string): Event -> bool { (e: Event) => e.kind == kind }

  function IsRootEnd(root: string): Event -> bool {
    (e: Event) => e.kind == ROOT_END && e.runId == root && e.parents == []
  }

  predicate TextIs(v: Option<Value>, text: string) { v == Some(Text(text)) }

  /** The keyword arguments of a typed success. */
  predicate SuccessKwargs(kwargs: seq<Field>, name: string) {
    && Plain(Object(kwargs))
    && TextIs(Get(kwargs, "type"), "tool")
    && Get(kwargs, "tool_call_id").Some? && Get(kwargs, "tool_call_id").value.Text?
    && !Blank(Get(kwargs, "tool_call_id").value.text)
    && TextIs(Get(kwargs, "status"), "success")
    && TextIs(Get(kwargs, "name"), name)
    && Get(kwargs, "content").Some? && (Get(kwargs, "content").value.Text? || Get(kwargs, "content").value.List?)
  }

  /** A terminal output that is a typed success of the named tool. */
  predicate TypedSuccess(output: Option<Value>, name: string) {
    && output.Some? && output.value.Object? && !HasMarker(output.value)
    && var fields := output.value.fields;
       && IsOne(Get(fields, "lc")) && TextIs(Get(fields, "type"), "constructor")
       && Get(fields, "id") == Some(TOOL_MESSAGE_ID)
       && Get(fields, "kwargs").Some? && Get(fields, "kwargs").value.Object?
       && SuccessKwargs(Get(fields, "kwargs").value.fields, name)
  }

  predicate IsObject(v: Option<Value>) { v.Some? && v.value.Object? }

  /** The start of a tool run and its end tell of one successful call. */
  predicate RunOk(dumps: Value -> string, root: string, start: Event, end: Event) {
    var input, cached := Get(start.data, "input"), Get(end.data, "input");
    && start.runId != root && start.parents != []
    && IsObject(input) && Plain(input.value)
    && end.runId == start.runId && end.parents == start.parents && end.name == start.name
    && TypedSuccess(Get(end.data, "output"), start.name)
    && IsObject(cached) && dumps(cached.value) == dumps(input.value)
  }

  /** One root end with the root's name; one tool start and one tool end, in order and
      inside the root span; no tool error. */
  predicate LifecycleOk(dumps: Value -> string, events: seq<Event>, start: int, end: int, rootEnd: int) {
    && events != []
    && Only(events, IsRootEnd(events[0].runId), rootEnd) && events[rootEnd].name == events[0].name
    && (forall i :: 0 <= i < |events| ==> events[i].kind != TOOL_ERROR)
    && Only(events, IsKind(TOOL_START), start) && Only(events, IsKind(TOOL_END), end)
    && start < end < rootEnd
    && RunOk(dumps, events[0].runId, events[start], events[end])
  }

  predicate RequiredRecord(e: Event) {
    e.kind == TOOL_START || e.kind == TOOL_END || e.kind == TOOL_ERROR || e.parents == []
  }

  predicate Transparent(events: seq<Event>) {
    forall i :: 0 <= i < |events| && RequiredRecord(events[i]) ==> !HasMarker(events[i].raw)
  }

  /** The archive proves one successful tool call. */
  ghost predicate Qualifies(dumps: Value -> string, events: seq<Event>) {
    && AncestryOk(events) && Transparent(events)
    && exists start, end, rootEnd :: LifecycleOk(dumps, events, start, end, rootEnd)
  }

  // ---------- ancestry ----------

  function IsTopLevel(): Event -> bool { (e: Event) => e.parents == [] }

  /** The lines, counted from 1, of the events of which `p` holds. */
  function Lines(events: seq<Event>, p: Event -> bool): (lines: seq<int>)
    ensures forall k :: 0 <= k < |lines| ==> 1 <= lines[k] <= |events|
  {
    if events == [] then []
    else Lines(events[..|events| - 1], p) + if p(events[|events| - 1]) then [|events|] else []
  }

  lemma {:induction false} LineHolds(events: seq<Event>, p: Event -> bool, k: int)
    requires 0 <= k < |Lines(events, p)|
    ensures p(events[Lines(events, p)[k] - 1])
  {
    var front := events[..|events| - 1];
    if k < |Lines(front, p)| { LineHolds(front, p, k); }
  }

  lemma {:induction false} LineListed(events: seq<Event>, p: Event -> bool, i: int)
    requires 0 <= i < |events| && p(events[i])
    ensures i + 1 in Lines(events, p)
  {
    if i < |events| - 1 { LineListed(events[..|events| - 1], p, i); }
  }

  lemma {:induction false} LinesAscend(events: seq<Event>, p: Event -> bool, a: int, b: int)
    requires 0 <= a < b < |Lines(events, p)|
    ensures Lines(events, p)[a] < Lines(events, p)[b]
  {
    var front := events[..|events| - 1];
    if b < |Lines(front, p)| { LinesAscend(front, p, a, b); }
  }

  lemma OnlyToLine(events: seq<Event>, p: Event -> bool, i: int)
    requires Only(events, p, i)
    ensures Lines(events, p) == [i + 1]
  {
    hide Lines;
    var lines := Lines(events, p);
    LineListed(events, p, i);
    forall k | 0 <= k < |lines| ensures lines[k] == i + 1 { LineHolds(events, p, k); }
    if |lines| > 1 { LinesAscend(events, p, 0, 1); }
  }

  lemma LineToOnly(events: seq<Event>, p: Event -> bool, i: int)
    requires Lines(events, p) == [i + 1]
    ensures Only(events, p, i)
  {
    hide Lines;
    assert Lines(events, p)[0] == i + 1;
    LineHolds(events, p, 0);
    forall j | 0 <= j < |events| && p(events[j]) ensures j == i { LineListed(events, p, j); }
  }

  /** One line exactly when one event. */
  lemma OneLine(events: seq<Event>, p: Event -> bool)
    ensures forall i :: Only(events, p, i) <==> Lines(events, p) == [i + 1]
    ensures Lines(events, p) == [] <==> forall i :: 0 <= i < |events| ==> !p(events[i])
  {
    hide Lines, Only;
    forall i ensures Only(events, p, i) <==> Lines(events, p) == [i + 1] {
      if Only(events, p, i) { OnlyToLine(events, p, i); }
      if Lines(events, p) == [i + 1] { LineToOnly(events, p, i); }
    }
    if Lines(events, p) != [] { LineHolds(events, p, 0); }
    forall i | 0 <= i < |events| && p(events[i]) ensures Lines(events, p) != [] { LineListed(events, p, i); }
  }

  /** The conflict within one chain of parents, if any. */
  function ChainConflict(e: Event, line: int): Option<Diagnostic> {
    if e.runId in e.parents then Some(Diagnostic(CorrelationConflict, NoSelfParent, line))
    else if !DistinctTexts(e.parents) then Some(Diagnostic(CorrelationConflict, NoDuplicateAncestors, line))
    else None
  }

  predicate AllRefuse(ds: seq<Diagnostic>) { forall d <- ds :: Refuses(d) }

  /** Top-level events after the first must be ends of the root. */
  predicate OnlyRootEnds(events: seq<Event>, lines: seq<int>, root: string)
    requires forall k :: 0 <= k < |lines| ==> 1 <= lines[k] <= |events|
  {
    forall j :: 1 <= j < |lines| ==> events[lines[j] - 1].runId == root && events[lines[j] - 1].kind == ROOT_END
  }

  /** What a top-level event after the first is refused for. */
  function TopLevelReport(e: Event, line: int, root: string): seq<Diagnostic> {
    if e.runId != root then [Diagnostic(CorrelationConflict, SingleInvocation, line)]
    else if e.kind == ROOT_START then [Diagnostic(CorrelationConflict, SingleRootStart, line)]
    else if e.kind != ROOT_END then [Diagnostic(CorrelationConflict, SingleInvocation, line)]
    else []
  }

  function TopLevelReports(events: seq<Event>, lines: seq<int>, root: string): seq<Diagnostic>
    requires forall k :: 0 <= k < |lines| ==> 1 <= lines[k] <= |events|
  {
    if |lines| <= 1 then []
    else
      var n := |lines| - 1;
      TopLevelReports(events, lines[..n], root) + TopLevelReport(events[lines[n] - 1], lines[n], root)
  }

  /** Every report refuses, and there is none exactly when all later ones end the root. */
  lemma {:induction false} TopLevelExactly(events: seq<Event>, lines: seq<int>, root: string)
    requires forall k :: 0 <= k < |lines| ==> 1 <= lines[k] <= |events|
    ensures AllRefuse(TopLevelReports(events, lines, root))
    ensures TopLevelReports(events, lines, root) == [] <==> OnlyRootEnds(events, lines, root)
  {
    if |lines| > 1 { TopLevelExactly(events, lines[..|lines| - 1], root); }
  }

  method TopLevelConflicts(events: seq<Event>, lines: seq<int>, root: string) returns (diagnostics: seq<Diagnostic>)
    requires lines != [] && forall k :: 0 <= k < |lines| ==> 1 <= lines[k] <= |events|
    ensures AllRefuse(diagnostics) && (diagnostics == [] <==> OnlyRootEnds(events, lines, root))
    ensures diagnostics == TopLevelReports(events, lines, root)
  {
    hide AllRefuse, OnlyRootEnds, TopLevelReport;
    diagnostics := [];
    for k := 1 to |lines|
      invariant diagnostics == TopLevelReports(events, lines[..k], root)
    {
      assert lines[..k + 1][..k] == lines[..k];
      diagnostics := diagnostics + TopLevelReport(events[lines[k] - 1], lines[k], root);
    }
    assert lines[..|lines|] == lines;
    TopLevelExactly(events, lines, root);
  }

  /** What the chain of parents of one event is refused for. */
  function ChainReport(root: string, e: Event, line: int): seq<Diagnostic> {
    (match ChainConflict(e, line) case Some(d) => [d] case None => [])
    + if e.parents != [] && e.parents[0] != root
      then [Diagnostic(CorrelationConflict, ChildBelongsToRoot, line)] else []
  }

  function ChainReports(events: seq<Event>, root: string): seq<Diagnostic> {
    if events == [] then []
    else
      var n := |events| - 1;
      ChainReports(events[..n], root) + ChainReport(root, events[n], n + 1)
  }

  lemma OneChainExactly(root: string, e: Event, line: int)
    ensures AllRefuse(ChainReport(root, e, line)) && (ChainReport(root, e, line) == [] <==> ChainOk(root, e))
  {
    hide DistinctTexts;
  }

  lemma {:induction false} ChainsExactly(events: seq<Event>, root: string)
    ensures AllRefuse(ChainReports(events, root))
    ensures ChainReports(events, root) == [] <==> forall i :: 0 <= i < |events| ==> ChainOk(root, events[i])
  {
    hide ChainReport, ChainOk;
    if events != [] {
      var n := |events| - 1;
      ChainsExactly(events[..n], root);
      OneChainExactly(root, events[n], n + 1);
    }
  }

  method ChainConflicts(events: seq<Event>, root: string) returns (diagnostics: seq<Diagnostic>)
    ensures AllRefuse(diagnostics)
    ensures (diagnostics == [] <==> forall i :: 0 <= i < |events| ==> ChainOk(root, events[i]))
    ensures diagnostics == ChainReports(events, root)
  {
    hide AllRefuse, ChainOk, ChainConflict;
    diagnostics := [];
    for i := 0 to |events|
      invariant diagnostics == ChainReports(events[..i], root)
    {
      assert events[..i + 1][..i] == events[..i];
      var e := events[i];
      var conflict := ChainConflict(e, i + 1);
      if conflict.Some? {
        diagnostics := diagnostics + [conflict.value];
      }
      if e.parents != [] && e.parents[0] != root {
        diagnostics := diagnostics + [Diagnostic(CorrelationConflict, ChildBelongsToRoot, i + 1)];
      }
    }
    assert events[..|events|] == events;
    ChainsExactly(events, root);
  }

  /** What the ancestry of an archive is refused for. */
  function AncestryReports(events: seq<Event>): seq<Diagnostic> {
    var topLevel := Lines(events, IsTopLevel());
    if topLevel == [] then [Diagnostic(IncompleteSource, RootFirst, 1)]
    else if topLevel[0] != 1 || events[0].kind != ROOT_START then [Diagnostic(InvalidSource, RootFirst, topLevel[0])]
    else
      TopLevelReports(events, topLevel, events[0].runId) + ChainReports(events, events[0].runId)
      + if Get(events[0].data, "input").None? then [Diagnostic(InvalidSource, RootInput, 1)] else []
  }

  method ValidateAncestry(events: seq<Event>) returns (diagnostics: seq<Diagnostic>)
    ensures AllRefuse(diagnostics)
    ensures diagnostics == [] <==> AncestryOk(events)
    ensures diagnostics == AncestryReports(events)
  {
    hide Lines, Get, ChainOk, OnlyRootEnds, TopLevelReports, ChainReports;
    OneLine(events, IsTopLevel());
    var topLevel := Lines(events, IsTopLevel());
    if topLevel == [] {
      assert events != [] ==> !IsTopLevel()(events[0]);
      return [Diagnostic(IncompleteSource, RootFirst, 1)];
    }
    var first := topLevel[0];
    if first != 1 || events[first - 1].kind != ROOT_START {
      FirstTopLevel(events);
      return [Diagnostic(InvalidSource, RootFirst, first)];
    }
    var root := events[0].runId;
    LineHolds(events, IsTopLevel(), 0);
    TopLevelRest(events, root);
    diagnostics := TopLevelConflicts(events, topLevel, root);
    var chains := ChainConflicts(events, root);
    diagnostics := diagnostics + chains;
    if Get(events[0].data, "input").None? {
      diagnostics := diagnostics + [Diagnostic(InvalidSource, RootInput, 1)];
    }
  }

  /** When the first top-level event is not the root's start on line 1, the ancestry fails. */
  lemma FirstTopLevel(events: seq<Event>)
    requires var lines := Lines(events, IsTopLevel());
      lines != [] && (lines[0] != 1 || events[lines[0] - 1].kind != ROOT_START)
    ensures !AncestryOk(events)
  {
    hide Lines, ChainOk, Get;
    if events != [] && events[0].parents == [] {
      var lines := Lines(events, IsTopLevel());
      LineListed(events, IsTopLevel(), 0);
      var k :| 0 <= k < |lines| && lines[k] == 1;
      if k > 0 { LinesAscend(events, IsTopLevel(), 0, k); }
    }
  }

  predicate LaterAreRootEnds(events: seq<Event>, root: string) {
    forall i :: 0 < i < |events| && events[i].parents == [] ==> events[i].runId == root && events[i].kind == ROOT_END
  }

  lemma TopLevelIs(e: Event)
    ensures IsTopLevel()(e) <==> e.parents == []
  {}

  lemma LinesToRest(events: seq<Event>, lines: seq<int>, root: string)
    requires lines == Lines(events, IsTopLevel()) && lines != [] && lines[0] == 1
    requires OnlyRootEnds(events, lines, root)
    ensures LaterAreRootEnds(events, root)
  {
    hide Lines, IsTopLevel;
    forall i | 0 < i < |events| && events[i].parents == []
      ensures events[i].runId == root && events[i].kind == ROOT_END
    {
      TopLevelIs(events[i]);
      LineListed(events, IsTopLevel(), i);
      var j :| 0 <= j < |lines| && lines[j] == i + 1;
    }
  }

  lemma RestToLines(events: seq<Event>, lines: seq<int>, root: string)
    requires lines == Lines(events, IsTopLevel()) && lines != [] && lines[0] == 1
    requires LaterAreRootEnds(events, root)
    ensures OnlyRootEnds(events, lines, root)
  {
    hide Lines, IsTopLevel;
    forall j | 1 <= j < |lines| ensures events[lines[j] - 1].runId == root && events[lines[j] - 1].kind == ROOT_END {
      LinesAscend(events, IsTopLevel(), 0, j);
      LineHolds(events, IsTopLevel(), j);
      TopLevelIs(events[lines[j] - 1]);
    }
  }

  /** Going through the top-level lines after the first is going through all later events. */
  lemma TopLevelRest(events: seq<Event>, root: string)
    requires var lines := Lines(events, IsTopLevel()); lines != [] && lines[0] == 1
    ensures OnlyRootEnds(events, Lines(events, IsTopLevel()), root) <==> LaterAreRootEnds(events, root)
  {
    hide Lines, OnlyRootEnds, LaterAreRootEnds;
    var lines := Lines(events, IsTopLevel());
    if OnlyRootEnds(events, lines, root) { LinesToRest(events, lines, root); }
    if LaterAreRootEnds(events, root) { RestToLines(events, lines, root); }
  }

  // ---------- the lifecycle ----------

  /** The lines of the four records of a match. */
  datatype Matched = Matched(rootEnd: int, start: int, end: int)

  /** The diagnostics of the lines after the first. */
  function Repeated(code: Code, rule: Rule, lines: seq<int>): (ds: seq<Diagnostic>)
    ensures |ds| == if |lines| > 1 then |lines| - 1 else 0
    ensures code != OpaqueSourceExcluded ==> AllRefuse(ds)
  {
    if |lines| <= 1 then []
    else Repeated(code, rule, lines[..|lines| - 1]) + [Diagnostic(code, rule, lines[|lines| - 1])]
  }

  /** The first thing wrong with keyword arguments, in the order they are looked at. */
  function KwargsRefusal(kwargs: seq<Field>, name: string, line: int): Option<Diagnostic> {
    var id, content := Get(kwargs, "tool_call_id"), Get(kwargs, "content");
    if !Plain(Object(kwargs)) then Some(Diagnostic(UnsupportedSerialization, KwargsSubset, line))
    else if !TextIs(Get(kwargs, "type"), "tool") then Some(Diagnostic(UnsupportedSerialization, KwargsType, line))
    else if id.None? || !id.value.Text? || Blank(id.value.text)
      then Some(Diagnostic(UnsupportedSerialization, ToolCallIdPresent, line))
    else if Get(kwargs, "status").None? then Some(Diagnostic(UnsupportedSerialization, ExplicitStatus, line))
    else if !TextIs(Get(kwargs, "status"), "success") then Some(Diagnostic(UnsupportedScope, SuccessOnly, line))
    else if !TextIs(Get(kwargs, "name"), name) then Some(Diagnostic(CorrelationConflict, TerminalName, line))
    else if content.None? || (!content.value.Text? && !content.value.List?)
      then Some(Diagnostic(UnsupportedSerialization, ContentShape, line))
    else None
  }

  /** The first thing wrong with a terminal. */
  function TerminalRefusal(start: Event, end: Event, line: int): Option<Diagnostic> {
    var output := Get(end.data, "output");
    if !IsObject(output) then Some(Diagnostic(UnsupportedScope, TypedSuccessOnly, line))
    else
      var fields := output.value.fields;
      if HasMarker(output.value) then Some(Diagnostic(UnsupportedScope, CommandTerminal, line))
      else if !IsOne(Get(fields, "lc")) || !TextIs(Get(fields, "type"), "constructor")
              || Get(fields, "id") != Some(TOOL_MESSAGE_ID)
        then Some(Diagnostic(UnsupportedSerialization, TypedToolMessage, line))
      else if !IsObject(Get(fields, "kwargs")) then Some(Diagnostic(UnsupportedSerialization, KwargsObject, line))
      else KwargsRefusal(Get(fields, "kwargs").value.fields, start.name, line)
  }

  /** The typed shape of a terminal: the first thing wrong with it, in the order it is
      looked at. */
  method CheckTerminal(start: Event, end: Event, line: int) returns (refusal: Option<Diagnostic>)
    ensures refusal.None? <==> TypedSuccess(Get(end.data, "output"), start.name)
    ensures refusal.Some? ==> Refuses(refusal.value)
    ensures refusal == TerminalRefusal(start, end, line)
  {
    hide Get, HasMarker, Plain, Blank, KwargsRefusal, SuccessKwargs;
    var output := Get(end.data, "output");
    if !IsObject(output) {
      return Some(Diagnostic(UnsupportedScope, TypedSuccessOnly, line));
    }
    var fields := output.value.fields;
    var opaque_ := ContainsOpaqueCommandMarker(output.value);
    if opaque_ {
      return Some(Diagnostic(UnsupportedScope, CommandTerminal, line));
    }
    if !IsOne(Get(fields, "lc")) || !TextIs(Get(fields, "type"), "constructor")
       || Get(fields, "id") != Some(TOOL_MESSAGE_ID)
    {
      return Some(Diagnostic(UnsupportedSerialization, TypedToolMessage, line));
    }
    if !IsObject(Get(fields, "kwargs")) {
      return Some(Diagnostic(UnsupportedSerialization, KwargsObject, line));
    }
    var kwargs := Get(fields, "kwargs").value.fields;
    refusal := CheckKwargs(kwargs, start.name, line);
  }

  method CheckKwargs(kwargs: seq<Field>, name: string, line: int) returns (refusal: Option<Diagnostic>)
    ensures refusal.None? <==> SuccessKwargs(kwargs, name)
    ensures refusal.Some? ==> Refuses(refusal.value)
    ensures refusal == KwargsRefusal(kwargs, name, line)
  {
    hide Get, Plain, Blank;
    var plain := CheckPlainSubset(Object(kwargs));
    if !plain {
      return Some(Diagnostic(UnsupportedSerialization, KwargsSubset, line));
    }
    if !TextIs(Get(kwargs, "type"), "tool") {
      return Some(Diagnostic(UnsupportedSerialization, KwargsType, line));
    }
    var id := Get(kwargs, "tool_call_id");
    if id.None? || !id.value.Text? || Blank(id.value.text) {
      return Some(Diagnostic(UnsupportedSerialization, ToolCallIdPresent, line));
    }
    if Get(kwargs, "status").None? {
      return Some(Diagnostic(UnsupportedSerialization, ExplicitStatus, line));
    }
    if !TextIs(Get(kwargs, "status"), "success") {
      return Some(Diagnostic(UnsupportedScope, SuccessOnly, line));
    }
    if !TextIs(Get(kwargs, "name"), name) {
      return Some(Diagnostic(CorrelationConflict, TerminalName, line));
    }
    var content := Get(kwargs, "content");
    if content.None? || (!content.value.Text? && !content.value.List?) {
      return Some(Diagnostic(UnsupportedSerialization, ContentShape, line));
    }
    return None;
  }

  /** The start of a tool run by itself. */
  predicate StartOk(root: string, start: Event) {
    start.runId != root && start.parents != [] && IsObject(Get(start.data, "input"))
    && Plain(Get(start.data, "input").value)
  }

  /** The first thing wrong with a start by itself. */
  function StartRefusal(root: string, start: Event, line: int): (refusal: Option<Diagnostic>)
    ensures refusal.None? ==> IsObject(Get(start.data, "input"))
  {
    var input := Get(start.data, "input");
    if start.runId == root then Some(Diagnostic(CorrelationConflict, RunDistinctFromRoot, line))
    else if start.parents == [] then Some(Diagnostic(CorrelationConflict, NestedUnderRoot, line))
    else if !IsObject(input) then Some(Diagnostic(UnsupportedSerialization, InputObject, line))
    else if !Plain(input.value) then Some(Diagnostic(UnsupportedSerialization, InputSubset, line))
    else None
  }

  method CheckStart(root: string, start: Event, line: int) returns (refusal: Option<Diagnostic>)
    ensures refusal.None? <==> StartOk(root, start)
    ensures refusal.Some? ==> Refuses(refusal.value)
    ensures refusal == StartRefusal(root, start, line)
  {
    hide Get, Plain;
    if start.runId == root {
      return Some(Diagnostic(CorrelationConflict, RunDistinctFromRoot, line));
    }
    if start.parents == [] {
      return Some(Diagnostic(CorrelationConflict, NestedUnderRoot, line));
    }
    var input := Get(start.data, "input");
    if !IsObject(input) {
      return Some(Diagnostic(UnsupportedSerialization, InputObject, line));
    }
    var plain := CheckPlainSubset(input.value);
    if !plain {
      return Some(Diagnostic(UnsupportedSerialization, InputSubset, line));
    }
    return None;
  }

  /** What a start that is sound by itself and an end must agree on. */
  predicate EndOk(dumps: Value -> string, start: Event, end: Event) {
    && end.runId == start.runId && end.parents == start.parents && end.name == start.name
    && TypedSuccess(Get(end.data, "output"), start.name)
    && IsObject(Get(end.data, "input")) && IsObject(Get(start.data, "input"))
    && dumps(Get(end.data, "input").value) == dumps(Get(start.data, "input").value)
  }

  /** The first thing in which an end disagrees with its start. */
  function EndRefusal(dumps: Value -> string, start: Event, startLine: int, end: Event, endLine: int,
                      rootEnd: int): Option<Diagnostic>
    requires IsObject(Get(start.data, "input"))
  {
    if end.runId != start.runId then Some(Diagnostic(CorrelationConflict, RunIdMatch, endLine))
    else if end.parents != start.parents then Some(Diagnostic(CorrelationConflict, ParentChainMatch, endLine))
    else if end.name != start.name then Some(Diagnostic(CorrelationConflict, NameConsistency, endLine))
    else if endLine <= startLine then Some(Diagnostic(CorrelationConflict, StartPrecedesTerminal, endLine))
    else if TerminalRefusal(start, end, endLine).Some? then TerminalRefusal(start, end, endLine)
    else if !IsObject(Get(end.data, "input")) then Some(Diagnostic(UnsupportedSerialization, CachedInput, endLine))
    else if dumps(Get(end.data, "input").value) != dumps(Get(start.data, "input").value)
      then Some(Diagnostic(CorrelationConflict, InputConflict, endLine))
    else if rootEnd <= endLine then Some(Diagnostic(CorrelationConflict, RootEndAfterTerminal, rootEnd))
    else None
  }

  method CheckEnd(dumps: Value -> string, start: Event, startLine: int, end: Event, endLine: int, rootEnd: int)
    returns (refusal: Option<Diagnostic>)
    requires IsObject(Get(start.data, "input"))
    ensures refusal.None? <==> EndOk(dumps, start, end) && startLine < endLine < rootEnd
    ensures refusal.Some? ==> Refuses(refusal.value)
    ensures refusal == EndRefusal(dumps, start, startLine, end, endLine, rootEnd)
  {
    hide Get, TypedSuccess, TerminalRefusal;
    if end.runId != start.runId {
      return Some(Diagnostic(CorrelationConflict, RunIdMatch, endLine));
    }
    if end.parents != start.parents {
      return Some(Diagnostic(CorrelationConflict, ParentChainMatch, endLine));
    }
    if end.name != start.name {
      return Some(Diagnostic(CorrelationConflict, NameConsistency, endLine));
    }
    if endLine <= startLine {
      return Some(Diagnostic(CorrelationConflict, StartPrecedesTerminal, endLine));
    }
    refusal := CheckTerminal(start, end, endLine);
    if refusal.Some? {
      return;
    }
    if !IsObject(Get(end.data, "input")) {
      return Some(Diagnostic(UnsupportedSerialization, CachedInput, endLine));
    }
    if dumps(Get(end.data, "input").value) != dumps(Get(start.data, "input").value) {
      return Some(Diagnostic(CorrelationConflict, InputConflict, endLine));
    }
    if rootEnd <= endLine {
      return Some(Diagnostic(CorrelationConflict, RootEndAfterTerminal, rootEnd));
    }
    return None;
  }

  /** Exactly one of several lines, or what is wrong. */
  function RequireOne(lines: seq<int>, missing: Diagnostic, code: Code, rule: Rule): (refusals: seq<Diagnostic>)
    requires Refuses(missing) && code != OpaqueSourceExcluded
    ensures AllRefuse(refusals) && (refusals == [] <==> |lines| == 1)
  {
    if lines == [] then [missing] else Repeated(code, rule, lines)
  }

  /** The same for tool records, which are refused differently when runs differ. */
  function RequireOneRun(lines: seq<int>, runs: seq<string>, missing: Diagnostic,
                         rule: Rule): (refusals: seq<Diagnostic>)
    requires Refuses(missing)
    ensures AllRefuse(refusals) && (refusals == [] <==> |lines| == 1)
  {
    if lines == [] then [missing]
    else if |lines| > 1 && exists run <- runs :: run != runs[0]
      then [Diagnostic(UnsupportedScope, SingleToolRun, lines[1])]
    else Repeated(CorrelationConflict, rule, lines)
  }

  function RunIds(events: seq<Event>, lines: seq<int>): (runs: seq<string>)
    requires forall k :: 0 <= k < |lines| ==> 1 <= lines[k] <= |events|
    ensures |runs| == |lines| && forall i :: 0 <= i < |lines| ==> runs[i] == events[lines[i] - 1].runId
  {
    seq(|lines|, i requires 0 <= i < |lines| => events[lines[i] - 1].runId)
  }

  lemma RunOkSplits(dumps: Value -> string, root: string, start: Event, end: Event)
    ensures RunOk(dumps, root, start, end) <==> StartOk(root, start) && EndOk(dumps, start, end)
  {
    hide Get, Plain, TypedSuccess;
  }

  predicate RootEndAt(events: seq<Event>, r: int)
    requires events != []
  {
    Only(events, IsRootEnd(events[0].runId), r) && events[r].name == events[0].name
  }

  predicate StartAt(events: seq<Event>, s: int)
    requires events != []
  {
    Only(events, IsKind(TOOL_START), s) && StartOk(events[0].runId, events[s])
  }

  predicate EndAt(dumps: Value -> string, events: seq<Event>, s: int, e: int) {
    0 <= s < |events| && Only(events, IsKind(TOOL_END), e) && EndOk(dumps, events[s], events[e])
  }

  predicate NoToolErrors(events: seq<Event>) { forall i :: 0 <= i < |events| ==> events[i].kind != TOOL_ERROR }

  function Reported(refusal: Option<Diagnostic>): seq<Diagnostic> {
    if refusal.Some? then [refusal.value] else []
  }

  /** What the end of the root is refused for. */
  function RootEndRefusals(events: seq<Event>): seq<Diagnostic>
    requires events != []
  {
    var lines := Lines(events, IsRootEnd(events[0].runId));
    var refusals := RequireOne(lines, Diagnostic(IncompleteSource, RootEndPresent, 0), CorrelationConflict,
                               SingleRootEnd);
    if refusals != [] then refusals
    else if events[lines[0] - 1].name != events[0].name then [Diagnostic(CorrelationConflict, RootEndName, lines[0])]
    else []
  }

  /** The line of the root's one end. */
  method MatchRootEnd(events: seq<Event>) returns (line: int, refusals: seq<Diagnostic>)
    requires events != []
    ensures AllRefuse(refusals) && (refusals == [] <==> exists r :: RootEndAt(events, r))
    ensures refusals == [] ==> RootEndAt(events, line - 1) && Lines(events, IsRootEnd(events[0].runId)) == [line]
    ensures refusals == RootEndRefusals(events)
  {
    hide Lines, Only, RequireOne;
    var isEnd := IsRootEnd(events[0].runId);
    OneLine(events, isEnd);
    line := 0;
    var lines := Lines(events, isEnd);
    refusals := RequireOne(lines, Diagnostic(IncompleteSource, RootEndPresent, 0), CorrelationConflict, SingleRootEnd);
    if refusals == [] {
      line := lines[0];
      assert lines == [line - 1 + 1];
      OnlyOne(events, isEnd, line - 1);
      if events[line - 1].name != events[0].name {
        refusals := [Diagnostic(CorrelationConflict, RootEndName, line)];
      } else {
        assert RootEndAt(events, line - 1);
      }
    }
  }

  /** What the one tool start is refused for. */
  function StartRefusals(events: seq<Event>): (refusals: seq<Diagnostic>)
    requires events != []
    ensures refusals == [] ==>
              && |Lines(events, IsKind(TOOL_START))| == 1
              && IsObject(Get(events[Lines(events, IsKind(TOOL_START))[0] - 1].data, "input"))
  {
    var lines := Lines(events, IsKind(TOOL_START));
    var refusals := RequireOneRun(lines, RunIds(events, lines), Diagnostic(IncompleteSource, ToolStartPresent, 0),
                                  SingleToolStart);
    if refusals != [] then refusals
    else Reported(StartRefusal(events[0].runId, events[lines[0] - 1], lines[0]))
  }

  /** The line of the one tool start. */
  method MatchStart(events: seq<Event>) returns (line: int, refusals: seq<Diagnostic>)
    requires events != []
    ensures AllRefuse(refusals) && (refusals == [] <==> exists s :: StartAt(events, s))
    ensures refusals == [] ==> StartAt(events, line - 1) && Lines(events, IsKind(TOOL_START)) == [line]
    ensures refusals == StartRefusals(events)
  {
    hide Lines, Only, StartOk, StartRefusal, RequireOneRun;
    OneLine(events, IsKind(TOOL_START));
    line := 0;
    var lines := Lines(events, IsKind(TOOL_START));
    refusals := RequireOneRun(lines, RunIds(events, lines), Diagnostic(IncompleteSource, ToolStartPresent, 0),
                              SingleToolStart);
    if refusals == [] {
      line := lines[0];
      assert lines == [line - 1 + 1];
      OnlyOne(events, IsKind(TOOL_START), line - 1);
      var refusal := CheckStart(events[0].runId, events[line - 1], line);
      refusals := Reported(refusal);
      assert refusal.None? ==> StartAt(events, line - 1);
    }
  }

  /** What the one terminal of a run is refused for. */
  function EndRefusals(dumps: Value -> string, events: seq<Event>, start: int, rootEnd: int): seq<Diagnostic>
    requires 0 <= start < |events| && IsObject(Get(events[start].data, "input"))
  {
    var ends := Lines(events, IsKind(TOOL_END));
    var refusals := RequireOneRun(ends, [events[start].runId] + RunIds(events, ends),
                                  Diagnostic(IncompleteSource, TerminalPresent, 0), SingleTerminal);
    if refusals != [] then refusals
    else Reported(EndRefusal(dumps, events[start], start + 1, events[ends[0] - 1], ends[0], rootEnd + 1))
  }

  function ToolErrorReports(errors: seq<int>): seq<Diagnostic> {
    seq(|errors|, i requires 0 <= i < |errors| => Diagnostic(UnsupportedScope, NoToolError, errors[i]))
  }

  /** What the stages find: the diagnostics, the match, and the lines left out. */
  datatype Diagnosis = Diagnosis(diagnostics: seq<Diagnostic>, matched: Option<Matched>, excluded: seq<int>)

  /** What the lifecycle of an archive is refused for, and its match. */
  function LifecycleDiagnosis(dumps: Value -> string, events: seq<Event>): Diagnosis
    requires events != []
  {
    var rootEndRefusals, startRefusals := RootEndRefusals(events), StartRefusals(events);
    var errors := ToolErrorReports(Lines(events, IsKind(TOOL_ERROR)));
    if rootEndRefusals != [] then Diagnosis(rootEndRefusals, None, [])
    else if startRefusals != [] then Diagnosis(errors + startRefusals, None, [])
    else
      var rootEnd, start := Lines(events, IsRootEnd(events[0].runId))[0], Lines(events, IsKind(TOOL_START))[0];
      var endRefusals := EndRefusals(dumps, events, start - 1, rootEnd - 1);
      if endRefusals != [] then Diagnosis(errors + endRefusals, None, [])
      else Diagnosis(errors, Some(Matched(rootEnd, start, Lines(events, IsKind(TOOL_END))[0])), [])
  }

  /** No refusal exactly when the lifecycle is sound; then the match names its records. */
  method MatchLifecycle(dumps: Value -> string, events: seq<Event>)
    returns (matched: Option<Matched>, diagnostics: seq<Diagnostic>)
    requires events != []
    ensures AllRefuse(diagnostics)
    ensures diagnostics == [] <==> exists start, end, rootEnd :: LifecycleOk(dumps, events, start, end, rootEnd)
    ensures diagnostics == [] ==>
              matched.Some? && LifecycleOk(dumps, events, matched.value.start - 1, matched.value.end - 1,
                                           matched.value.rootEnd - 1)
    ensures Diagnosis(diagnostics, matched, []) == LifecycleDiagnosis(dumps, events)
  {
    hide Lines, RootEndAt, StartAt, EndAt, NoToolErrors, LifecycleOk, RootEndRefusals, StartRefusals, EndRefusals,
         ToolErrorReports;
    LifecycleSplits(dumps, events);
    matched := None;
    var rootEnd: int;
    rootEnd, diagnostics := MatchRootEnd(events);
    if diagnostics != [] {
      return;
    }
    NoErrorLines(events);
    diagnostics := ToolErrors(Lines(events, IsKind(TOOL_ERROR)));
    var start, refusals := MatchStart(events);
    if refusals != [] {
      diagnostics := diagnostics + refusals;
      return;
    }
    StartIsOk(events, start - 1);
    var end: int;
    end, refusals := MatchTerminal(dumps, events, start - 1, rootEnd - 1);
    OneOfEach(dumps, events, rootEnd - 1, start - 1);
    if refusals != [] {
      diagnostics := diagnostics + refusals;
      return;
    }
    matched := Some(Matched(rootEnd, start, end + 1));
  }

  lemma NoErrorLines(events: seq<Event>)
    ensures Lines(events, IsKind(TOOL_ERROR)) == [] <==> NoToolErrors(events)
  {
    hide Lines;
    OneLine(events, IsKind(TOOL_ERROR));
    if NoToolErrors(events) {
      assert forall i :: 0 <= i < |events| ==> !IsKind(TOOL_ERROR)(events[i]);
    } else {
      var i :| 0 <= i < |events| && events[i].kind == TOOL_ERROR;
      assert IsKind(TOOL_ERROR)(events[i]);
    }
  }

  lemma StartIsOk(events: seq<Event>, s: int)
    requires events != [] && StartAt(events, s)
    ensures 0 <= s < |events| && StartOk(events[0].runId, events[s])
  {}

  lemma OneOfEach(dumps: Value -> string, events: seq<Event>, r: int, s: int)
    requires events != [] && RootEndAt(events, r) && StartAt(events, s)
    ensures forall x :: RootEndAt(events, x) ==> x == r
    ensures forall x :: StartAt(events, x) ==> x == s
  {
    hide StartOk;
  }

  lemma LifecycleSplits(dumps: Value -> string, events: seq<Event>)
    requires events != []
    ensures forall s, e, r ::
              (LifecycleOk(dumps, events, s, e, r)
               <==>
                   RootEndAt(events, r) && NoToolErrors(events) && StartAt(events, s) && EndAt(dumps, events, s, e)
                   && s < e < r)
  {
    hide StartOk, EndOk, RunOk;
    forall s, e, r ensures LifecycleOk(dumps, events, s, e, r)
       <==>
           RootEndAt(events, r) && NoToolErrors(events) && StartAt(events, s) && EndAt(dumps, events, s, e) && s < e < r
    {
      if 0 <= s < |events| && 0 <= e < |events| { RunOkSplits(dumps, events[0].runId, events[s], events[e]); }
    }
  }

  /** The one terminal of the run that starts at a line. */
  method MatchTerminal(dumps: Value -> string, events: seq<Event>, start: int, rootEnd: int)
    returns (end: int, refusals: seq<Diagnostic>)
    requires 0 <= start < |events| && StartOk(events[0].runId, events[start])
    ensures AllRefuse(refusals)
    ensures refusals == [] <==> exists i :: EndAt(dumps, events, start, i) && start < i < rootEnd
    ensures refusals == [] ==>
              EndAt(dumps, events, start, end) && start < end < rootEnd && Lines(events, IsKind(TOOL_END)) == [end + 1]
    ensures IsObject(Get(events[start].data, "input")) && refusals == EndRefusals(dumps, events, start, rootEnd)
  {
    hide Lines, Only, RunOk, StartOk, EndOk, Get, EndRefusal, RequireOneRun;
    StartHasInput(events[0].runId, events[start]);
    OneLine(events, IsKind(TOOL_END));
    OnlyInRange(events, IsKind(TOOL_END));
    end := 0;
    var ends := Lines(events, IsKind(TOOL_END));
    refusals := RequireOneRun(ends, [events[start].runId] + RunIds(events, ends),
                              Diagnostic(IncompleteSource, TerminalPresent, 0), SingleTerminal);
    if refusals != [] {
      return;
    }
    end := ends[0] - 1;
    assert ends == [end + 1];
    OnlyOne(events, IsKind(TOOL_END), end);
    var refusal := CheckEnd(dumps, events[start], start + 1, events[end], end + 1, rootEnd + 1);
    refusals := Reported(refusal);
    assert refusal.None? ==> EndAt(dumps, events, start, end);
  }

  lemma OnlyInRange(events: seq<Event>, p: Event -> bool)
    ensures forall i :: Only(events, p, i) ==> 0 <= i < |events|
  {}

  lemma StartHasInput(root: string, start: Event)
    requires StartOk(root, start)
    ensures IsObject(Get(start.data, "input"))
  {}

  lemma OnlyOne(events: seq<Event>, p: Event -> bool, i: int)
    requires Only(events, p, i)
    ensures forall j :: Only(events, p, j) ==> j == i
  {}

  method ToolErrors(errors: seq<int>) returns (diagnostics: seq<Diagnostic>)
    ensures AllRefuse(diagnostics) && (diagnostics == [] <==> errors == [])
    ensures diagnostics == ToolErrorReports(errors)
  {
    diagnostics := [];
    for i := 0 to |errors|
      invariant AllRefuse(diagnostics) && |diagnostics| == i
      invariant forall k :: 0 <= k < i ==> diagnostics[k] == Diagnostic(UnsupportedScope, NoToolError, errors[k])
    {
      diagnostics := diagnostics + [Diagnostic(UnsupportedScope, NoToolError, errors[i])];
    }
  }

  // ---------- opaque records ----------

  function IsOpaqueCarrier(): Event -> bool { (e: Event) => HasMarker(e.raw) && !RequiredRecord(e) }

  /** What is reported of the records that hold a marker. */
  function OpaqueReports(events: seq<Event>): seq<Diagnostic> {
    if events == [] then []
    else
      var n := |events| - 1;
      OpaqueReports(events[..n])
      + if !HasMarker(events[n].raw) then []
        else if RequiredRecord(events[n]) then [Diagnostic(UnsupportedSerialization, RequiredRecordOpaque, n + 1)]
        else [Diagnostic(OpaqueSourceExcluded, OpaqueCarrierExcluded, n + 1)]
  }

  /** Refuse opaque markers in required records; report, and leave out, the other records
      that carry one. */
  method EnforceOpaqueExclusions(events: seq<Event>) returns (diagnostics: seq<Diagnostic>, excluded: seq<int>)
    ensures HasRefusal(diagnostics) <==> !Transparent(events)
    ensures diagnostics == OpaqueReports(events)
    ensures excluded == Lines(events, IsOpaqueCarrier())
  {
    hide HasMarker, RequiredRecord;
    diagnostics, excluded := [], [];
    for i := 0 to |events|
      invariant HasRefusal(diagnostics) <==>
          exists j :: 0 <= j < i && RequiredRecord(events[j]) && HasMarker(events[j].raw)
      invariant diagnostics == OpaqueReports(events[..i])
      invariant excluded == Lines(events[..i], IsOpaqueCarrier())
    {
      var e := events[i];
      assert events[..i + 1][..i] == events[..i];
      var marked := ContainsOpaqueCommandMarker(e.raw);
      if marked {
        var d := if RequiredRecord(e) then Diagnostic(UnsupportedSerialization, RequiredRecordOpaque, i + 1)
                 else Diagnostic(OpaqueSourceExcluded, OpaqueCarrierExcluded, i + 1);
        RefusalSnoc(diagnostics, d);
        diagnostics := diagnostics + [d];
        if !RequiredRecord(e) {
          excluded := excluded + [i + 1];
        }
      }
    }
    assert events[..|events|] == events;
  }

  lemma RefusalSnoc(ds: seq<Diagnostic>, d: Diagnostic)
    ensures HasRefusal(ds + [d]) <==> HasRefusal(ds) || Refuses(d)
  {
    assert d in ds + [d] && forall x <- ds :: x in ds + [d];
  }

  lemma RefusalConcat(a: seq<Diagnostic>, b: seq<Diagnostic>)
    ensures HasRefusal(a + b) <==> HasRefusal(a) || HasRefusal(b)
  {
    assert (forall x <- a :: x in a + b) && forall x <- b :: x in a + b;
  }

  // ---------- the pipeline ----------

  /** What the stages find in events with valid envelopes. */
  function EventDiagnosis(dumps: Value -> string, events: seq<Event>): Diagnosis {
    var ancestry := AncestryReports(events);
    if ancestry != [] then Diagnosis(ancestry, None, [])
    else
      assert events != [];
      var lifecycle := LifecycleDiagnosis(dumps, events);
      Diagnosis(lifecycle.diagnostics + OpaqueReports(events), lifecycle.matched, Lines(events, IsOpaqueCarrier()))
  }

  /** The stages in order, each run only when no earlier one refused; the scan for opaque
      records runs beside the lifecycle. Nothing is refused exactly when the archive
      qualifies. */
  method ValidateEvents(dumps: Value -> string, events: seq<Event>)
    returns (matched: Option<Matched>, diagnostics: seq<Diagnostic>, excluded: seq<int>)
    ensures !HasRefusal(diagnostics) <==> Qualifies(dumps, events)
    ensures !HasRefusal(diagnostics) ==>
              && matched.Some?
              && LifecycleOk(dumps, events, matched.value.start - 1, matched.value.end - 1, matched.value.rootEnd - 1)
              && excluded == Lines(events, IsOpaqueCarrier()) && diagnostics == OpaqueReports(events)
    ensures Diagnosis(diagnostics, matched, excluded) == EventDiagnosis(dumps, events)
  {
    hide AncestryOk, LifecycleOk, Transparent, HasRefusal, Lines, OpaqueReports, AncestryReports, LifecycleDiagnosis;
    matched, excluded := None, [];
    diagnostics := ValidateAncestry(events);
    RefusalsShow(diagnostics);
    if !HasRefusal(diagnostics) {
      assert events != [] by { AncestryNotEmpty(events); }
      var more: seq<Diagnostic>;
      matched, more := MatchLifecycle(dumps, events);
      RefusalsShow(more);
      var exclusions: seq<Diagnostic>;
      exclusions, excluded := EnforceOpaqueExclusions(events);
      RefusalConcat(diagnostics + more, exclusions);
      RefusalConcat(diagnostics, more);
      diagnostics := diagnostics + more + exclusions;
    }
  }

  /** A lifecycle names its records. */
  lemma LifecycleUnique(dumps: Value -> string, events: seq<Event>, s: int, e: int, r: int, s2: int, e2: int, r2: int)
    requires LifecycleOk(dumps, events, s, e, r) && LifecycleOk(dumps, events, s2, e2, r2)
    ensures s == s2 && e == e2 && r == r2
  {
    hide RunOk;
  }

  lemma AncestryNotEmpty(events: seq<Event>)
    requires AncestryOk(events)
    ensures events != []
  {}

  lemma RefusalsShow(ds: seq<Diagnostic>)
    requires AllRefuse(ds)
    ensures HasRefusal(ds) <==> ds != []
  {
    if ds != [] { assert ds[0] in ds; }
  }

  // ---------- the result of a validation ----------

  /** The results a validation may have, the gravest first. */
  datatype Outcome = ValidationError | UnsupportedSource | CorrelationUnproven | SourceIncomplete | Passed

  function Rank(o: Outcome): nat {
    match o
    case ValidationError => 0
    case UnsupportedSource => 1
    case CorrelationUnproven => 2
    case SourceIncomplete => 3
    case Passed => 4
  }

  /** The result a refusal code leads to. */
  function CodeOutcome(code: Code): Outcome {
    match code
    case MissingProvenance => UnsupportedSource
    case UnsupportedProfile => UnsupportedSource
    case InvalidSource => SourceIncomplete
    case IncompleteSource => SourceIncomplete
    case UnsupportedSerialization => SourceIncomplete
    case CorrelationConflict => CorrelationUnproven
    case UnsupportedScope => CorrelationUnproven
    case SourceBindingFailure => ValidationError
    case OpaqueSourceExcluded => Passed
  }

  predicate Leads(ds: seq<Diagnostic>, o: Outcome) { exists d <- ds :: Refuses(d) && CodeOutcome(d.code) == o }

  /** The first result in priority order that some code leads to. */
  function SelectResult(ds: seq<Diagnostic>): Outcome {
    if !HasRefusal(ds) then Passed
    else if Leads(ds, ValidationError) then ValidationError
    else if Leads(ds, UnsupportedSource) then UnsupportedSource
    else if Leads(ds, CorrelationUnproven) then CorrelationUnproven
    else if Leads(ds, SourceIncomplete) then SourceIncomplete
    else ValidationError
  }

  /** The result is a pass exactly when nothing refuses; otherwise it is the gravest that a
      diagnostic leads to. */
  lemma ResultIsGravest(ds: seq<Diagnostic>)
    ensures SelectResult(ds) == Passed <==> !HasRefusal(ds)
    ensures HasRefusal(ds) ==> Leads(ds, SelectResult(ds))
    ensures forall d <- ds :: Rank(SelectResult(ds)) <= Rank(CodeOutcome(d.code))
  {
    if HasRefusal(ds) {
      var d :| d in ds && Refuses(d);
      assert Leads(ds, CodeOutcome(d.code));
      forall x <- ds ensures Rank(SelectResult(ds)) <= Rank(CodeOutcome(x.code)) {
        if Refuses(x) { assert Leads(ds, CodeOutcome(x.code)); }
      }
    }
  }
}
