/**
 * The tool registry of tools.go: the `Tool` capability (describe + run), the
 * `toolManager` name-to-tool map with duplicate rejection, and the `serper`
 * web-search tool's descriptor and argument validation.
 */
module Registry {
  import opened Wrappers
  import opened Errors
  import Api
  import Schema

  // ---------------------------------------------------------------------
  // serper
  // ---------------------------------------------------------------------

  const SearchTerm := "search_term"

  /** The search service (`serp.Serper.Define`) and the HTML-to-markdown converter, as oracles. */
  type Search = string -> Result<string, Error>
  type ToMarkdown = string -> Result<string, Error>

  /** `serper.Description`: one required string parameter `search_term`. */
  function SerperDescription(): (d: Api.Tool)
    ensures d.typ == "function" && d.fn.name == "web_search"
    ensures d.fn.parameters.typ == "object" && d.fn.parameters.required == [SearchTerm]
    ensures d.fn.parameters.properties.Keys == {SearchTerm}
    ensures d.fn.parameters.properties[SearchTerm].typ == "string"
    ensures d.fn.parameters.properties[SearchTerm].enum == []
  {
    Schema.Function("web_search",
      "Perform web search for provided search_term and return response as markdown.",
      Schema.Parameters("object", [SearchTerm],
        map[SearchTerm := Schema.Property("string", "term to search for web results", [])])).Tool()
  }

  /**
   * `serper.Run` as written: the type error's format string has a `%v` verb
   * but no operand, so the message never reports the offending value.
   */
  function SerperRunAsWritten(search: Search, toMarkdown: ToMarkdown, call: Api.ToolCallFunction): (r: Result<Api.Message, Error>)
    ensures SearchTerm !in call.arguments ==> r == Failure(ArgumentMissing(SearchTerm))
    ensures SearchTerm in call.arguments && !call.arguments[SearchTerm].Str? ==>
      r == Failure(ArgumentNotString(SearchTerm, None))
    ensures SearchTerm in call.arguments && call.arguments[SearchTerm].Str? ==>
      var term := call.arguments[SearchTerm].s;
      && (search(term).Failure? ==> r == Failure(search(term).error))
      && (search(term).Success? && toMarkdown(search(term).value).Failure? ==>
            r == Failure(toMarkdown(search(term).value).error))
      && (search(term).Success? && toMarkdown(search(term).value).Success? ==>
            r == Success(Api.Message(call.name, toMarkdown(search(term).value).value, [])))
    ensures r.Success? ==>
      && SearchTerm in call.arguments && call.arguments[SearchTerm].Str?
      && search(call.arguments[SearchTerm].s).Success?
      && toMarkdown(search(call.arguments[SearchTerm].s).value) == Success(r.value.content)
      && r.value.role == call.name
      && r.value.toolCalls == []
  {
    if SearchTerm !in call.arguments then Failure(ArgumentMissing(SearchTerm))
    else if !call.arguments[SearchTerm].Str? then Failure(ArgumentNotString(SearchTerm, None))
    else match search(call.arguments[SearchTerm].s)
      case Failure(e) => Failure(e)
      case Success(html) =>
        match toMarkdown(html)
        case Failure(e) => Failure(e)
        case Success(md) => Success(Api.Message(call.name, md, []))
  }

  /** `serper.Run` with the type error reporting the value it got. */
  function SerperRun(search: Search, toMarkdown: ToMarkdown, call: Api.ToolCallFunction): (r: Result<Api.Message, Error>)
    ensures SearchTerm !in call.arguments ==> r == Failure(ArgumentMissing(SearchTerm))
    ensures SearchTerm in call.arguments && !call.arguments[SearchTerm].Str? ==>
      r == Failure(ArgumentNotString(SearchTerm, Some(call.arguments[SearchTerm])))
    ensures SearchTerm in call.arguments && call.arguments[SearchTerm].Str? ==>
      var term := call.arguments[SearchTerm].s;
      && (search(term).Failure? ==> r == Failure(search(term).error))
      && (search(term).Success? && toMarkdown(search(term).value).Failure? ==>
            r == Failure(toMarkdown(search(term).value).error))
      && (search(term).Success? && toMarkdown(search(term).value).Success? ==>
            r == Success(Api.Message(call.name, toMarkdown(search(term).value).value, [])))
    ensures r.Success? ==>
      && SearchTerm in call.arguments && call.arguments[SearchTerm].Str?
      && search(call.arguments[SearchTerm].s).Success?
      && toMarkdown(search(call.arguments[SearchTerm].s).value) == Success(r.value.content)
      && r.value.role == call.name
      && r.value.toolCalls == []
  {
    if SearchTerm !in call.arguments then Failure(ArgumentMissing(SearchTerm))
    else
      var val := call.arguments[SearchTerm];
      if !val.Str? then Failure(ArgumentNotString(SearchTerm, Some(val)))
      else match search(val.s)
        case Failure(e) => Failure(e)
        case Success(html) =>
          match toMarkdown(html)
          case Failure(e) => Failure(e)
          case Success(md) => Success(Api.Message(call.name, md, []))
  }

  /** A JSON value matches a declared schema type name. */
  predicate HasType(v: Api.Value, typ: string) {
    match v
    case Str(_) => typ == "string"
    case Num(_) => typ == "number" || typ == "integer"
    case Bool(_) => typ == "boolean"
    case Null => typ == "null"
  }

  /** Every required parameter of the descriptor is present in `args` with its declared type. */
  predicate Conforms(d: Api.Tool, args: map<string, Api.Value>) {
    forall i :: 0 <= i < |d.fn.parameters.required| ==>
      var p := d.fn.parameters.required[i];
      && p in d.fn.parameters.properties
      && p in args
      && HasType(args[p], d.fn.parameters.properties[p].typ)
  }

  /** The search tool's validation agrees with its descriptor: it runs only on conforming arguments. */
  lemma SerperRunConformsToDescription(search: Search, toMarkdown: ToMarkdown, call: Api.ToolCallFunction)
    requires SerperRun(search, toMarkdown, call).Success?
    ensures Conforms(SerperDescription(), call.arguments)
  {
    var d := SerperDescription();
    assert d.fn.parameters.required == [SearchTerm];
    assert d.fn.parameters.properties[SearchTerm].typ == "string";
  }

  /**
   * As written, two different offending values produce the very same error,
   * so the message cannot tell them apart; the corrected tool's errors differ.
   */
  lemma SerperAsWrittenHidesValue(search: Search, toMarkdown: ToMarkdown)
    ensures var number := Api.ToolCallFunction("web_search", map[SearchTerm := Api.Num(1)]);
      var flag := Api.ToolCallFunction("web_search", map[SearchTerm := Api.Bool(true)]);
      && SerperRunAsWritten(search, toMarkdown, number) == Failure(ArgumentNotString(SearchTerm, None))
      && SerperRunAsWritten(search, toMarkdown, number) == SerperRunAsWritten(search, toMarkdown, flag)
      && SerperRun(search, toMarkdown, number) == Failure(ArgumentNotString(SearchTerm, Some(Api.Num(1))))
      && SerperRun(search, toMarkdown, number) != SerperRun(search, toMarkdown, flag)
  {
  }

  /** The two differ only in the type error, where the corrected one reports the offending value. */
  lemma SerperRunOnlyReportsValue(search: Search, toMarkdown: ToMarkdown, call: Api.ToolCallFunction)
    ensures SearchTerm in call.arguments && !call.arguments[SearchTerm].Str? ==>
      && SerperRunAsWritten(search, toMarkdown, call) == Failure(ArgumentNotString(SearchTerm, None))
      && SerperRun(search, toMarkdown, call) == Failure(ArgumentNotString(SearchTerm, Some(call.arguments[SearchTerm])))
    ensures !(SearchTerm in call.arguments && !call.arguments[SearchTerm].Str?) ==>
      SerperRunAsWritten(search, toMarkdown, call) == SerperRun(search, toMarkdown, call)
  {
  }

  // ---------------------------------------------------------------------
  // Tools and the registry
  // ---------------------------------------------------------------------

  /**
   * A callable capability: the search tool, or any other tool given by its
   * descriptor and its `Run` as an oracle.
   */
  datatype Tool =
    | Serper(search: Search, toMarkdown: ToMarkdown)
    | Provided(descriptor: Api.Tool, run: Api.ToolCallFunction -> Result<Api.Message, Error>)
  {
    function Description(): Api.Tool {
      match this
      case Serper(_, _) => SerperDescription()
      case Provided(d, _) => d
    }

    /** The name the registry files a tool under. */
    function Name(): string {
      Description().fn.name
    }

    function Run(call: Api.ToolCallFunction): Result<Api.Message, Error> {
      match this
      case Serper(search, toMarkdown) => SerperRun(search, toMarkdown, call)
      case Provided(_, run) => run(call)
    }
  }

  /** The registry: tool name to tool. */
  type Tools = map<string, Tool>

  /** Every tool is filed under its own name. */
  ghost predicate Keyed(tools: Tools) {
    forall k :: k in tools ==> tools[k].Name() == k
  }

  /** Resolve a call by name and run it: an unregistered name is an error, and no tool runs. */
  function Invoke(tools: Tools, call: Api.ToolCallFunction): (r: Result<Api.Message, Error>)
    ensures call.name !in tools ==> r == Failure(NoSuchTool(call.name))
    ensures call.name in tools ==> r == tools[call.name].Run(call)
  {
    if call.name in tools then tools[call.name].Run(call) else Failure(NoSuchTool(call.name))
  }

  /** `AddTool` on a batch: insert in order, stop at the first name already present. */
  function AddAll(tools: Tools, batch: seq<Tool>): (Tools, Outcome<Error>)
    decreases |batch|
  {
    if batch == [] then (tools, Pass)
    else
      var name := batch[0].Name();
      if name in tools then (tools, Fail(DuplicateTool(name)))
      else AddAll(tools[name := batch[0]], batch[1..])
  }

  /** No tool of the batch clashes with the registry or with an earlier tool of the batch. */
  predicate Fresh(tools: Tools, batch: seq<Tool>) {
    forall i :: 0 <= i < |batch| ==>
      && batch[i].Name() !in tools
      && forall j :: 0 <= j < i ==> batch[j].Name() != batch[i].Name()
  }

  function Names(batch: seq<Tool>): set<string> {
    set i | 0 <= i < |batch| :: batch[i].Name()
  }

  lemma FreshTail(tools: Tools, batch: seq<Tool>)
    requires batch != [] && Fresh(tools, batch)
    ensures Fresh(tools[batch[0].Name() := batch[0]], batch[1..])
  {
    var t := tools[batch[0].Name() := batch[0]];
    forall i | 0 <= i < |batch[1..]|
      ensures batch[1..][i].Name() !in t
    {
      assert batch[1..][i] == batch[i + 1];
    }
  }

  lemma NamesCons(batch: seq<Tool>)
    requires batch != []
    ensures Names(batch) == {batch[0].Name()} + Names(batch[1..])
  {
    forall x | x in Names(batch) ensures x in {batch[0].Name()} + Names(batch[1..]) {
      var i :| 0 <= i < |batch| && batch[i].Name() == x;
      if i > 0 { assert batch[1..][i - 1] == batch[i]; }
    }
    forall x | x in Names(batch[1..]) ensures x in Names(batch) {
      var i :| 0 <= i < |batch[1..]| && batch[1..][i].Name() == x;
      assert batch[1..][i] == batch[i + 1];
    }
  }

  /** A batch of distinct new names is inserted whole: the registry grows by exactly those names. */
  lemma {:induction false} AddAllFresh(tools: Tools, batch: seq<Tool>)
    requires Fresh(tools, batch)
    ensures AddAll(tools, batch).1 == Pass
    ensures AddAll(tools, batch).0.Keys == tools.Keys + Names(batch)
    ensures |AddAll(tools, batch).0| == |tools| + |batch|
    decreases |batch|
  {
    if batch != [] {
      var name := batch[0].Name();
      assert name !in tools;
      var t := tools[name := batch[0]];
      FreshTail(tools, batch);
      AddAllFresh(t, batch[1..]);
      NamesCons(batch);
    }
  }

  /** Each tool of a fresh batch is filed under its name. */
  lemma {:induction false} AddAllFreshFiles(tools: Tools, batch: seq<Tool>)
    requires Fresh(tools, batch)
    ensures forall i :: 0 <= i < |batch| ==> 
      batch[i].Name() in AddAll(tools, batch).0 && AddAll(tools, batch).0[batch[i].Name()] == batch[i]
    decreases |batch|
  {
    if batch != [] {
      var name := batch[0].Name();
      var t := tools[name := batch[0]];
      FreshTail(tools, batch);
      AddAllFreshFiles(t, batch[1..]);
      AddAllKeepsEntries(t, batch[1..]);
      var m := AddAll(t, batch[1..]).0;
      forall i | 0 <= i < |batch| ensures batch[i].Name() in m && m[batch[i].Name()] == batch[i] {
        if i > 0 { assert batch[1..][i - 1] == batch[i]; }
      }
    }
  }

  /** Inserting a batch never removes or overwrites an existing entry, whatever the outcome. */
  lemma {:induction false} AddAllKeepsEntries(tools: Tools, batch: seq<Tool>)
    ensures forall k :: k in tools ==> k in AddAll(tools, batch).0 && AddAll(tools, batch).0[k] == tools[k]
    ensures AddAll(tools, batch).0.Keys <= tools.Keys + Names(batch)
    decreases |batch|
  {
    if batch != [] && batch[0].Name() !in tools {
      AddAllKeepsEntries(tools[batch[0].Name() := batch[0]], batch[1..]);
      forall x | x in Names(batch[1..]) ensures x in Names(batch) {
        var i :| 0 <= i < |batch[1..]| && batch[1..][i].Name() == x;
        assert batch[1..][i] == batch[i + 1];
      }
      assert batch[0].Name() in Names(batch);
    }
  }

  /**
   * At the first clash (index `i`), the batch fails with a duplicate-name
   * error naming it, and the tools before it stay inserted.
   */
  lemma {:induction false} AddAllStopsAtClash(tools: Tools, batch: seq<Tool>, i: nat)
    requires i < |batch| && Fresh(tools, batch[..i])
    requires batch[i].Name() in tools || exists j :: 0 <= j < i && batch[j].Name() == batch[i].Name()
    ensures AddAll(tools, batch) == (AddAll(tools, batch[..i]).0, Fail(DuplicateTool(batch[i].Name())))
    decreases i
  {
    if i == 0 {
      assert batch[..0] == [];
    } else {
      var name := batch[0].Name();
      assert batch[..i][0] == batch[0];
      assert name !in tools;
      var t := tools[name := batch[0]];
      FreshTail(tools, batch[..i]);
      assert batch[..i][1..] == batch[1..][..i - 1];
      if batch[i].Name() in tools {
        assert batch[1..][i - 1].Name() in t;
      } else {
        var j :| 0 <= j < i && batch[j].Name() == batch[i].Name();
        if j == 0 {
          assert batch[1..][i - 1].Name() in t;
        } else {
          assert batch[1..][j - 1].Name() == batch[1..][i - 1].Name();
        }
      }
      AddAllStopsAtClash(t, batch[1..], i - 1);
    }
  }

  /** The batch succeeds only when it is fresh; together with AddAllFresh, an if-and-only-if. */
  lemma {:induction false} AddAllPassIsFresh(tools: Tools, batch: seq<Tool>)
    requires AddAll(tools, batch).1 == Pass
    ensures Fresh(tools, batch)
    decreases |batch|
  {
    if batch != [] {
      var name := batch[0].Name();
      var t := tools[name := batch[0]];
      AddAllPassIsFresh(t, batch[1..]);
      forall i | 0 <= i < |batch|
        ensures batch[i].Name() !in tools && forall j :: 0 <= j < i ==> batch[j].Name() != batch[i].Name()
      {
        if i > 0 {
          assert batch[1..][i - 1] == batch[i];
          forall j | 0 < j < i ensures batch[j].Name() != batch[i].Name() {
            assert batch[1..][j - 1] == batch[j];
          }
        }
      }
    }
  }

  /** Inserting a batch keeps every tool filed under its own name. */
  lemma {:induction false} AddAllKeyed(tools: Tools, batch: seq<Tool>)
    requires Keyed(tools)
    ensures Keyed(AddAll(tools, batch).0)
    decreases |batch|
  {
    if batch != [] && batch[0].Name() !in tools {
      AddAllKeyed(tools[batch[0].Name() := batch[0]], batch[1..]);
    }
  }

  /** `ts` lists one descriptor per registered tool, in the order `names` gives. */
  ghost predicate Enumerates(tools: Tools, names: seq<string>, ts: seq<Api.Tool>) {
    && |names| == |ts|
    && (forall i, j :: 0 <= i < j < |names| ==> names[i] != names[j])
    && (forall i :: 0 <= i < |names| ==> names[i] in tools && ts[i] == tools[names[i]].Description())
    && (forall k :: k in tools ==> k in names)
  }

  /**
   * The descriptor list of `List` and of the chat request: one per
   * registered tool, in map-iteration order (unspecified).
   */
  method Describe(tools: Tools) returns (ts: seq<Api.Tool>, ghost names: seq<string>)
    ensures Enumerates(tools, names, ts)
    ensures |ts| == |tools|
    ensures Keyed(tools) ==> forall i, j :: 0 <= i < j < |ts| ==> ts[i].fn.name != ts[j].fn.name
  {
    ts, names := [], [];
    var pending := tools.Keys;
    while pending != {}
      invariant pending <= tools.Keys
      invariant |names| == |ts| && |names| + |pending| == |tools|
      invariant forall i :: 0 <= i < |names| ==> names[i] in tools && names[i] !in pending
      invariant forall i, j :: 0 <= i < j < |names| ==> names[i] != names[j]
      invariant forall i :: 0 <= i < |names| ==> ts[i] == tools[names[i]].Description()
      invariant forall k :: k in tools ==> k in pending || k in names
      decreases |pending|
    {
      var name :| name in pending;
      ts := ts + [tools[name].Description()];
      names := names + [name];
      pending := pending - {name};
    }
  }

  /** `toolManager`: a registry that is filled by `AddTool` and read by `List` and `Call`. */
  class ToolManager {
    var tools: Tools

    ghost predicate Valid()
      reads this
    {
      Keyed(tools)
    }

    /** `NewToolManager`: an empty registry. */
    constructor ()
      ensures Valid() && tools == map[]
    {
      tools := map[];
    }

    /**
     * `AddTool`: inserts the batch in order and stops at the first name that
     * is already present; the tools inserted before it stay.
     */
    method AddTool(batch: seq<Tool>) returns (r: Outcome<Error>)
      requires Valid()
      modifies this
      ensures Valid()
      ensures (tools, r) == AddAll(old(tools), batch)
    {
      AddAllKeyed(tools, batch);
      var i := 0;
      while i < |batch|
        invariant 0 <= i <= |batch|
        invariant AddAll(old(tools), batch) == AddAll(tools, batch[i..])
      {
        var name := batch[i].Name();
        assert batch[i..][0] == batch[i] && batch[i..][1..] == batch[i + 1..];
        if name in tools {
          return Fail(DuplicateTool(name));
        }
        tools := tools[name := batch[i]];
        i := i + 1;
      }
      assert batch[i..] == [];
      r := Pass;
    }

    /** `List`: one descriptor per registered tool, with distinct names. */
    method List() returns (ts: seq<Api.Tool>, ghost names: seq<string>)
      requires Valid()
      ensures Enumerates(tools, names, ts)
      ensures |ts| == |tools|
      ensures forall i, j :: 0 <= i < j < |ts| ==> ts[i].fn.name != ts[j].fn.name
    {
      ts, names := Describe(tools);
    }

    /** `Call`: an unknown name is an error; otherwise whatever the tool's `Run` returns. */
    method Call(c: Api.ToolCall) returns (r: Result<Api.Message, Error>)
      ensures c.fn.name !in tools ==> r == Failure(NoSuchTool(c.fn.name))
      ensures c.fn.name in tools ==> r == tools[c.fn.name].Run(c.fn)
    {
      if c.fn.name !in tools {
        return Failure(NoSuchTool(c.fn.name));
      }
      r := tools[c.fn.name].Run(c.fn);
    }
  }

  /** Starting empty, a batch of distinct names lists exactly one descriptor per added tool. */
  lemma DistinctBatchIsListed(batch: seq<Tool>, names: seq<string>, ts: seq<Api.Tool>)
    requires Fresh(map[], batch)
    requires Enumerates(AddAll(map[], batch).0, names, ts)
    ensures |ts| == |batch|
    ensures forall i :: 0 <= i < |batch| ==> batch[i].Description() in ts
  {
    var m := AddAll(map[], batch).0;
    AddAllFresh(map[], batch);
    AddAllFreshFiles(map[], batch);
    AddAllKeyed(map[], batch);
    EnumeratesSize(m, names, ts);
    forall i | 0 <= i < |batch| ensures batch[i].Description() in ts {
      var k := batch[i].Name();
      assert k in names;
      var j :| 0 <= j < |names| && names[j] == k;
      assert ts[j] == batch[i].Description();
    }
  }

  /** An enumeration has exactly as many descriptors as the registry has tools. */
  lemma EnumeratesSize(tools: Tools, names: seq<string>, ts: seq<Api.Tool>)
    requires Enumerates(tools, names, ts)
    ensures |ts| == |tools|
  {
    DistinctCard(names);
    assert (set i | 0 <= i < |names| :: names[i]) == tools.Keys by {
      forall k | k in tools.Keys ensures k in (set i | 0 <= i < |names| :: names[i]) {
        var i :| 0 <= i < |names| && names[i] == k;
      }
    }
  }

  lemma {:induction false} DistinctCard(s: seq<string>)
    requires forall i, j :: 0 <= i < j < |s| ==> s[i] != s[j]
    ensures |set i | 0 <= i < |s| :: s[i]| == |s|
    decreases |s|
  {
    if s != [] {
      var init := s[..|s| - 1];
      DistinctCard(init);
      var a := set i | 0 <= i < |init| :: init[i];
      var b := set i | 0 <= i < |s| :: s[i];
      assert b == a + {s[|s| - 1]} by {
        forall x | x in b ensures x in a + {s[|s| - 1]} {
          var i :| 0 <= i < |s| && s[i] == x;
          if i < |s| - 1 { assert init[i] == x; }
        }
      }
      assert s[|s| - 1] !in a;
    }
  }
}
