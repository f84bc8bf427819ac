/**
 * Tool descriptors and their translation from the remote tool-provider
 * protocol (tools.go): the local `Function`/`Parameters`/`Property` shapes,
 * `fromMCPTool`, which normalises one remote schema, and `FromMCPClient`,
 * which follows the provider's pagination cursors.
 */
module Schema {
  import opened Wrappers
  import opened Errors
  import Api

  // ---------------------------------------------------------------------
  // Local descriptor shapes and their JSON round trip into the backend's
  // shape, modelled as a field-for-field mapping.
  // ---------------------------------------------------------------------

  datatype Property = Property(typ: string, description: string, enum: seq<string>)

  datatype Parameters = Parameters(typ: string, required: seq<string>, properties: map<string, Property>)

  datatype Function = Function(name: string, description: string, parameters: Parameters) {

    /** `Function.ToolFunction`: marshal to JSON and unmarshal as `api.ToolFunction`. */
    function ToolFunction(): (f: Api.ToolFunction)
      ensures f.name == name && f.description == description
      ensures f.parameters.typ == parameters.typ && f.parameters.required == parameters.required
      ensures f.parameters.properties.Keys == parameters.properties.Keys
      ensures forall k :: k in parameters.properties ==>
        && f.parameters.properties[k].typ == parameters.properties[k].typ
        && f.parameters.properties[k].description == parameters.properties[k].description
        && f.parameters.properties[k].enum == parameters.properties[k].enum
    {
      Api.ToolFunction(name, description,
        Api.ToolParameters(parameters.typ, parameters.required,
          map k | k in parameters.properties :: ToApiProperty(parameters.properties[k])))
    }

    /** `Function.Tool`: a descriptor of type "function". */
    function Tool(): (t: Api.Tool)
      ensures t.typ == "function" && t.fn == ToolFunction()
    {
      Api.Tool("function", ToolFunction())
    }
  }

  function ToApiProperty(p: Property): Api.ToolProperty {
    Api.ToolProperty(p.typ, p.description, p.enum)
  }

  /** The reverse mapping: the descriptor read back as a local `Function`. */
  function FromToolFunction(f: Api.ToolFunction): Function {
    Function(f.name, f.description,
      Parameters(f.parameters.typ, f.parameters.required,
        map k | k in f.parameters.properties ::
          Property(f.parameters.properties[k].typ, f.parameters.properties[k].description,
                   f.parameters.properties[k].enum)))
  }

  /** The JSON mapping loses nothing: reading the descriptor back gives the original function. */
  lemma ToolFunctionRoundTrip(f: Function)
    ensures FromToolFunction(f.ToolFunction()) == f
  {
    var back := FromToolFunction(f.ToolFunction()).parameters.properties;
    assert back.Keys == f.parameters.properties.Keys;
    forall k | k in back ensures back[k] == f.parameters.properties[k] { }
    assert back == f.parameters.properties;
  }

  // ---------------------------------------------------------------------
  // Remote tool-provider schemas.
  // ---------------------------------------------------------------------

  /** One parameter of a remote input schema; enum entries are untyped. */
  datatype McpProperty = McpProperty(typ: string, description: string, enum: seq<Api.Value>)

  datatype McpSchema = McpSchema(required: seq<string>, properties: map<string, McpProperty>)

  datatype McpTool = McpTool(name: string, description: string, inputSchema: McpSchema)

  predicate AllStrings(es: seq<Api.Value>) {
    forall i :: 0 <= i < |es| ==> es[i].Str?
  }

  /** A remote tool translates exactly when every enum entry of every parameter is a string. */
  predicate Convertible(t: McpTool) {
    forall k :: k in t.inputSchema.properties ==> AllStrings(t.inputSchema.properties[k].enum)
  }

  /** Entry `i` is the first enum entry of `p` that is not a string. */
  predicate FirstBadEnum(p: McpProperty, i: int) {
    0 <= i < |p.enum| && !p.enum[i].Str? && AllStrings(p.enum[..i])
  }

  /** `err` is the error for an entry that is the first non-string entry of some parameter's enum. */
  ghost predicate RejectsWith(t: McpTool, err: Error) {
    exists k, i :: k in t.inputSchema.properties && FirstBadEnum(t.inputSchema.properties[k], i)
      && err == EnumNotString(t.inputSchema.properties[k].enum[i])
  }

  /** The strings of an all-string enum, in order. */
  function EnumText(es: seq<Api.Value>): seq<string>
    requires AllStrings(es)
    decreases |es|
  {
    if es == [] then [] else EnumText(es[..|es| - 1]) + [es[|es| - 1].s]
  }

  lemma {:induction false} EnumTextKeepsOrder(es: seq<Api.Value>)
    requires AllStrings(es)
    ensures |EnumText(es)| == |es|
    ensures forall i :: 0 <= i < |es| ==> Api.Str(EnumText(es)[i]) == es[i]
    decreases |es|
  {
    if es != [] {
      var init := es[..|es| - 1];
      assert AllStrings(init) by {
        forall i | 0 <= i < |init| ensures init[i].Str? { assert init[i] == es[i]; }
      }
      EnumTextKeepsOrder(init);
      forall i | 0 <= i < |es| ensures Api.Str(EnumText(es)[i]) == es[i] {
        if i < |es| - 1 { assert es[i] == init[i]; }
      }
    }
  }

  function ConvertProperty(p: McpProperty): Property
    requires AllStrings(p.enum)
  {
    Property(p.typ, p.description, EnumText(p.enum))
  }

  /**
   * The descriptor `fromMCPTool` produces, or None when it rejects the schema.
   * `Parameters.Type` is never set, so it stays empty.
   */
  function Translate(t: McpTool): Option<Api.Tool> {
    if Convertible(t) then
      var props := t.inputSchema.properties;
      Some(Function(t.name, t.description,
        Parameters("", t.inputSchema.required,
          map k | k in props :: ConvertProperty(props[k]))).Tool())
    else
      None
  }

  /** What the translation keeps: name, description, required list, keys, types, descriptions, enum order. */
  lemma TranslateKeepsSchema(t: McpTool)
    requires Convertible(t)
    ensures Translate(t).Some?
    ensures var d := Translate(t).value;
      && d.typ == "function"
      && d.fn.name == t.name
      && d.fn.description == t.description
      && d.fn.parameters.typ == ""
      && d.fn.parameters.required == t.inputSchema.required
      && d.fn.parameters.properties.Keys == t.inputSchema.properties.Keys
      && forall k :: k in t.inputSchema.properties ==>
           var src, dst := t.inputSchema.properties[k], d.fn.parameters.properties[k];
           && dst.typ == src.typ
           && dst.description == src.description
           && |dst.enum| == |src.enum|
           && forall i :: 0 <= i < |src.enum| ==> Api.Str(dst.enum[i]) == src.enum[i]
  {
    var d := Translate(t).value;
    forall k | k in t.inputSchema.properties
      ensures var src, dst := t.inputSchema.properties[k], d.fn.parameters.properties[k];
        |dst.enum| == |src.enum| && forall i :: 0 <= i < |src.enum| ==> Api.Str(dst.enum[i]) == src.enum[i]
    {
      EnumTextKeepsOrder(t.inputSchema.properties[k].enum);
    }
  }

  /**
   * `fromMCPTool`: builds each parameter's enum list and the properties map,
   * failing at the first enum entry that is not a string. Parameters are
   * visited in an unspecified order, as Go's map iteration does.
   */
  method FromMcpTool(tool: McpTool) returns (r: Result<Api.Tool, Error>)
    ensures r.Success? <==> Convertible(tool)
    ensures r.Success? ==> Translate(tool) == Some(r.value)
    ensures r.Failure? ==> RejectsWith(tool, r.error)
  {
    var schema := tool.inputSchema;
    var properties: map<string, Property> := map[];
    var pending := schema.properties.Keys;
    while pending != {}
      invariant pending <= schema.properties.Keys
      invariant properties.Keys == schema.properties.Keys - pending
      invariant forall k :: k in properties ==>
        AllStrings(schema.properties[k].enum) && properties[k] == ConvertProperty(schema.properties[k])
      decreases |pending|
    {
      var name :| name in pending;
      var param := schema.properties[name];
      var enums: seq<string> := [];
      var j := 0;
      while j < |param.enum|
        invariant 0 <= j <= |param.enum|
        invariant AllStrings(param.enum[..j])
        invariant enums == EnumText(param.enum[..j])
      {
        var e := param.enum[j];
        if !e.Str? {
          assert FirstBadEnum(param, j);
          return Failure(EnumNotString(e));
        }
        assert param.enum[..j + 1][..j] == param.enum[..j];
        enums := enums + [e.s];
        j := j + 1;
      }
      assert param.enum[..j] == param.enum;
      properties := properties[name := Property(param.typ, param.description, enums)];
      pending := pending - {name};
    }
    assert properties == map k | k in schema.properties :: ConvertProperty(schema.properties[k]);
    r := Success(Function(tool.name, tool.description, Parameters("", schema.required, properties)).Tool());
  }

  // ---------------------------------------------------------------------
  // Pagination over the remote tool provider.
  // ---------------------------------------------------------------------

  /** One page of a tool listing; an empty `nextCursor` ends the listing. */
  datatype Page = Page(tools: seq<McpTool>, nextCursor: string)

  /** The provider's `ListTools` call, as a function from cursor to page or error. */
  type Provider = string -> Result<Page, Error>

  predicate PageConvertible(p: Page) {
    forall i :: 0 <= i < |p.tools| ==> Convertible(p.tools[i])
  }

  /**
   * Following cursors from `cursor` stops (at a failed fetch, a rejected
   * page or a page with an empty next cursor) within `n` further pages.
   */
  predicate EndsWithin(list: Provider, cursor: string, n: nat)
    decreases n
  {
    match list(cursor)
    case Failure(_) => true
    case Success(page) =>
      page.nextCursor == "" || !PageConvertible(page) || (n > 0 && EndsWithin(list, page.nextCursor, n - 1))
  }

  /** The translated tools of an all-convertible page, in order. */
  function TranslateAll(tools: seq<McpTool>): seq<Api.Tool>
    requires forall i :: 0 <= i < |tools| ==> Convertible(tools[i])
    decreases |tools|
  {
    if tools == [] then []
    else
      var init := tools[..|tools| - 1];
      assert forall i :: 0 <= i < |init| ==> init[i] == tools[i];
      TranslateAll(init) + [Translate(tools[|tools| - 1]).value]
  }

  /** The three ways a listing ends. */
  datatype Listing = Listed(tools: seq<Api.Tool>) | FetchFailed(error: Error) | Rejected

  function Prepend(ts: seq<Api.Tool>, l: Listing): Listing {
    if l.Listed? then Listed(ts + l.tools) else l
  }

  /** The listing obtained by following cursors from `cursor`. */
  function ListFrom(list: Provider, cursor: string, n: nat): Listing
    requires EndsWithin(list, cursor, n)
    decreases n
  {
    match list(cursor)
    case Failure(e) => FetchFailed(e)
    case Success(page) =>
      if !PageConvertible(page) then Rejected
      else if page.nextCursor == "" then Listed(TranslateAll(page.tools))
      else Prepend(TranslateAll(page.tools), ListFrom(list, page.nextCursor, n - 1))
  }

  /** The bound is only a termination witness: any two bounds give the same listing. */
  lemma {:induction false} ListFromBoundIrrelevant(list: Provider, cursor: string, n: nat, m: nat)
    requires EndsWithin(list, cursor, n) && EndsWithin(list, cursor, m)
    ensures ListFrom(list, cursor, n) == ListFrom(list, cursor, m)
    decreases n
  {
    match list(cursor)
    case Failure(_) =>
    case Success(page) =>
      if PageConvertible(page) && page.nextCursor != "" {
        ListFromBoundIrrelevant(list, page.nextCursor, n - 1, m - 1);
      }
  }

  lemma PrependAssoc(a: seq<Api.Tool>, b: seq<Api.Tool>, l: Listing)
    ensures Prepend(a, Prepend(b, l)) == Prepend(a + b, l)
  {
    if l.Listed? { assert a + (b + l.tools) == (a + b) + l.tools; }
  }

  /** Unfolds `ListFrom` across one convertible page that has a next cursor. */
  lemma ListFromNext(list: Provider, cursor: string, n: nat)
    requires EndsWithin(list, cursor, n)
    requires list(cursor).Success? && PageConvertible(list(cursor).value) && list(cursor).value.nextCursor != ""
    ensures n > 0 && EndsWithin(list, list(cursor).value.nextCursor, n - 1)
    ensures ListFrom(list, cursor, n)
      == Prepend(TranslateAll(list(cursor).value.tools), ListFrom(list, list(cursor).value.nextCursor, n - 1))
  {
  }

  /** The inner loop of `FromMCPClient`: translates one page's tools in order, stopping at the first rejection. */
  method TranslatePage(tools: seq<McpTool>) returns (r: Result<seq<Api.Tool>, Error>)
    ensures r.Success? <==> forall i :: 0 <= i < |tools| ==> Convertible(tools[i])
    ensures r.Success? ==> r.value == TranslateAll(tools)
    ensures r.Failure? ==>
      exists i :: && 0 <= i < |tools| && !Convertible(tools[i])
                  && (forall j :: 0 <= j < i ==> Convertible(tools[j]))
                  && RejectsWith(tools[i], r.error)
  {
    var out: seq<Api.Tool> := [];
    var i := 0;
    while i < |tools|
      invariant 0 <= i <= |tools|
      invariant forall j :: 0 <= j < i ==> Convertible(tools[j])
      invariant out == TranslateAll(tools[..i])
    {
      var t := FromMcpTool(tools[i]);
      if t.Failure? {
        return Failure(t.error);
      }
      assert tools[..i + 1][..i] == tools[..i];
      out := out + [t.value];
      i := i + 1;
    }
    assert tools[..i] == tools;
    r := Success(out);
  }

  /**
   * `FromMCPClient`: the first request uses the empty cursor, each later one
   * the previous page's next cursor; the tools of every page are translated
   * and accumulated in page order. Any fetch or translation failure returns
   * the error and no tools. `bound` witnesses that the provider's cursor
   * chain ends.
   */
  method FromMcpClient(list: Provider, ghost bound: nat) returns (r: Result<seq<Api.Tool>, Error>)
    requires EndsWithin(list, "", bound)
    ensures match ListFrom(list, "", bound)
      case Listed(ts) => r == Success(ts)
      case FetchFailed(e) => r == Failure(e)
      case Rejected => r.Failure? && r.error.EnumNotString?
  {
    var tools: seq<Api.Tool> := [];
    var cursor := "";
    ghost var n := bound;
    while true
      invariant EndsWithin(list, cursor, n)
      invariant Prepend(tools, ListFrom(list, cursor, n)) == ListFrom(list, "", bound)
      decreases n
    {
      var res := list(cursor);
      if res.Failure? {
        return Failure(res.error);
      }
      var page := res.value;
      var converted := TranslatePage(page.tools);
      if converted.Failure? {
        return Failure(converted.error);
      }
      if page.nextCursor == "" {
        return Success(tools + converted.value);
      }
      ListFromNext(list, cursor, n);
      PrependAssoc(tools, converted.value, ListFrom(list, page.nextCursor, n - 1));
      tools := tools + converted.value;
      cursor := page.nextCursor;
      n := n - 1;
    }
  }

  /** The pages reached from `cursor`, each fetched with the previous one's next cursor; the last ends the chain. */
  predicate ChainFrom(list: Provider, cursor: string, pages: seq<Page>)
    decreases |pages|
  {
    && |pages| > 0
    && list(cursor) == Success(pages[0])
    && if |pages| == 1 then pages[0].nextCursor == ""
       else pages[0].nextCursor != "" && ChainFrom(list, pages[0].nextCursor, pages[1..])
  }

  predicate AllPagesConvertible(pages: seq<Page>) {
    forall i :: 0 <= i < |pages| ==> PageConvertible(pages[i])
  }

  /** The translated tools of all pages, concatenated in page order. */
  function Concat(pages: seq<Page>): seq<Api.Tool>
    requires AllPagesConvertible(pages)
    decreases |pages|
  {
    if pages == [] then []
    else
      assert PageConvertible(pages[0]);
      assert forall i :: 0 <= i < |pages[1..]| ==> pages[1..][i] == pages[i + 1];
      TranslateAll(pages[0].tools) + Concat(pages[1..])
  }

  /** A provider serving a cursor chain of convertible pages is listed as their concatenation. */
  lemma {:induction false} ChainIsListed(list: Provider, cursor: string, pages: seq<Page>)
    requires ChainFrom(list, cursor, pages) && AllPagesConvertible(pages)
    ensures EndsWithin(list, cursor, |pages| - 1)
    ensures ListFrom(list, cursor, |pages| - 1) == Listed(Concat(pages))
    decreases |pages|
  {
    assert PageConvertible(pages[0]);
    if |pages| > 1 {
      var rest := pages[1..];
      assert AllPagesConvertible(rest) by {
        forall i | 0 <= i < |rest| ensures PageConvertible(rest[i]) { assert rest[i] == pages[i + 1]; }
      }
      ChainIsListed(list, pages[0].nextCursor, rest);
    }
  }

  /** A listing whose first fetch fails reports that error. */
  lemma FirstFetchFailure(list: Provider, bound: nat)
    requires list("").Failure?
    ensures EndsWithin(list, "", bound)
    ensures ListFrom(list, "", bound) == FetchFailed(list("").error)
  {
  }

  /** Three pages of sizes 2, 2 and 1 linked by cursors A, B, "" list five tools in page order. */
  lemma ThreePages(list: Provider, t1: McpTool, t2: McpTool, t3: McpTool, t4: McpTool, t5: McpTool)
    requires Convertible(t1) && Convertible(t2) && Convertible(t3) && Convertible(t4) && Convertible(t5)
    requires list("") == Success(Page([t1, t2], "A"))
    requires list("A") == Success(Page([t3, t4], "B"))
    requires list("B") == Success(Page([t5], ""))
    ensures EndsWithin(list, "", 2)
    ensures ListFrom(list, "", 2) == Listed([Translate(t1).value, Translate(t2).value,
      Translate(t3).value, Translate(t4).value, Translate(t5).value])
  {
    var pages := [Page([t1, t2], "A"), Page([t3, t4], "B"), Page([t5], "")];
    assert pages[1..][1..] == [Page([t5], "")];
    assert ChainFrom(list, "", pages);
    ChainIsListed(list, "", pages);
    assert [t1, t2][..1] == [t1] && [t3, t4][..1] == [t3];
    assert [t1][..0] == [] && [t3][..0] == [] && [t5][..0] == [];
    assert TranslateAll([t1]) == [Translate(t1).value];
    assert TranslateAll([t3]) == [Translate(t3).value];
    assert TranslateAll([t1, t2]) == [Translate(t1).value, Translate(t2).value];
    assert TranslateAll([t3, t4]) == [Translate(t3).value, Translate(t4).value];
    assert TranslateAll([t5]) == [Translate(t5).value];
    assert Concat(pages) == TranslateAll([t1, t2]) + (TranslateAll([t3, t4]) + (TranslateAll([t5]) + Concat([])));
  }
}
