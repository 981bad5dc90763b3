/**
 * The tool catalog (the files under src/tools and `allTools` in src/index.ts) and its
 * registration with the protocol server (`allTools.forEach(registerTool)`).
 * Each tool is a declarative record; its handler is one call into the remote
 * query service and is not modelled, apart from how the two chapter tools
 * build their envelope.
 */
module Tools {
  import opened Wrappers
  import opened JsValues
  import opened Helper

  /** The primitive kind a top-level input field is declared with. */
  datatype FieldKind = NumberField | StringField | ObjectField

  /** A top-level input field: `required` is false for `.optional()` ones. */
  datatype Field = Field(name: string, kind: FieldKind, required: bool)

  datatype ToolSpec = ToolSpec(name: string, description: string, inputs: seq<Field>)

  const Options := Field("options", ObjectField, false)

  const ChaptersAll := ToolSpec("all_chapters", "Get all information about Quran chapters", [Options])
  const ChaptersById := ToolSpec("chapter_by_id", "Get information about a Quran chapter by id",
    [Field("id", NumberField, true), Options])
  /** The options object of verse_by_key is declared without `.optional()`. */
  const VerseByKey := ToolSpec("verse_by_key", "Get a verse by chapter:verse key (e.g., 1:1)",
    [Field("key", StringField, true), Field("options", ObjectField, true)])
  const VersesByChapter := ToolSpec("verses_by_chapter", "Get verses by chapter ID",
    [Field("chapterId", NumberField, true), Options])
  const VersesByPage := ToolSpec("verses_by_page", "Get verses by page number",
    [Field("page", NumberField, true), Options])
  const VersesByJuz := ToolSpec("verses_by_juz", "Get verses by juz number",
    [Field("juz", NumberField, true), Options])
  const VersesByHizb := ToolSpec("verses_by_hizb", "Get verses by hizb number",
    [Field("hizb", NumberField, true), Options])
  const VersesByRub := ToolSpec("verses_by_rub", "Get verses by rub number",
    [Field("rub", NumberField, true), Options])
  const RandomVerse := ToolSpec("random_verse", "Get a random verse from the Quran", [Options])
  const SearchQuran := ToolSpec("search_quran", "Search the Quran for specific text",
    [Field("query", StringField, true), Options])
  const JuzsAll := ToolSpec("all_juzs", "Get all juzs (parts) of the Quran", [])

  /** `allTools`, in registration order. */
  const AllTools: seq<ToolSpec> := [
    ChaptersAll, ChaptersById, VerseByKey, VersesByChapter, VersesByPage,
    VersesByJuz, VersesByHizb, VersesByRub, RandomVerse, SearchQuran, JuzsAll
  ]

  predicate DistinctNames(catalog: seq<ToolSpec>) {
    forall i, j :: 0 <= i < j < |catalog| ==> catalog[i].name != catalog[j].name
  }

  function NameSet(catalog: seq<ToolSpec>): set<string> {
    set t | t in catalog :: t.name
  }

  /** The catalog holds eleven tools with pairwise distinct names. */
  lemma AllToolNamesDistinct()
    ensures |AllTools| == 11
    ensures DistinctNames(AllTools)
    ensures NameSet(AllTools) == {"all_chapters", "chapter_by_id", "verse_by_key", "verses_by_chapter",
      "verses_by_page", "verses_by_juz", "verses_by_hizb", "verses_by_rub", "random_verse",
      "search_quran", "all_juzs"}
  {
  }

  // ---------------------------------------------------------------------------
  // Top-level argument shapes
  // ---------------------------------------------------------------------------

  predicate HasKind(v: JsValue, kind: FieldKind) {
    match kind
    case NumberField => v.Number?
    case StringField => v.Str?
    case ObjectField => v.Obj?
  }

  predicate FieldAccepts(f: Field, args: map<string, JsValue>) {
    (f.required ==> f.name in args) && (f.name in args ==> HasKind(args[f.name], f.kind))
  }

  /** The top-level check a tool's schema makes of its arguments: every
      required field present, every present field of its declared kind, extra
      fields ignored. Ranges named only in descriptions are not checked. */
  predicate Accepts(tool: ToolSpec, args: map<string, JsValue>) {
    forall i :: 0 <= i < |tool.inputs| ==> FieldAccepts(tool.inputs[i], args)
  }

  /** A missing required field fails the check. */
  lemma MissingRequiredFieldRejected(tool: ToolSpec, args: map<string, JsValue>, i: nat)
    requires i < |tool.inputs| && tool.inputs[i].required && tool.inputs[i].name !in args
    ensures !Accepts(tool, args)
  {
  }

  /** Fields the schema does not declare do not change the verdict. */
  lemma UndeclaredFieldsIgnored(tool: ToolSpec, args: map<string, JsValue>, k: string, v: JsValue)
    requires forall i :: 0 <= i < |tool.inputs| ==> tool.inputs[i].name != k
    ensures Accepts(tool, args[k := v]) <==> Accepts(tool, args)
  {
  }

  /** verse_by_key requires its options object: `{key: "1:1"}` alone is
      refused, and accepted once an options object is given. */
  lemma VerseByKeyNeedsOptions()
    ensures !Accepts(VerseByKey, map["key" := Str("1:1")])
    ensures Accepts(VerseByKey, map["key" := Str("1:1"), "options" := Obj([])])
  {
  }

  /** A juz outside 1..30 passes the schema and reaches the remote service. */
  lemma OutOfRangeJuzPassesThrough()
    ensures Accepts(VersesByJuz, map["juz" := Number(31)])
  {
  }

  // ---------------------------------------------------------------------------
  // Envelopes of the chapter tools
  // ---------------------------------------------------------------------------

  /** all_chapters and chapter_by_id build their envelope themselves and
      always print the result with `stringify`, strings included. */
  function ChapterToolEnvelope(stringify: JsValue -> Option<string>, result: JsValue): (r: Envelope)
    ensures SingleTextItem(r)
    ensures TextOf(r) == stringify(result)
  {
    Envelope([ContentItem(TextKind, stringify(result))])
  }

  /** The chapter tools agree with formatMcpResponse on every non-string
      result, and on a string result give its JSON literal instead of the
      string itself. */
  lemma ChapterEnvelopeDiffersOnlyOnStrings(stringify: JsValue -> Option<string>, result: JsValue)
    requires BehavesLikeJsonStringify(stringify)
    ensures !result.Str? ==> ChapterToolEnvelope(stringify, result) == FormatMcpResponse(stringify, result)
    ensures result.Str? ==> TextOf(ChapterToolEnvelope(stringify, result)) == Some(Quote(result.s))
    ensures result.Str? ==> ChapterToolEnvelope(stringify, result) != FormatMcpResponse(stringify, result)
  {
    if result.Str? {
      QuoteChangesEveryString(result.s);
      assert TextOf(FormatMcpResponse(stringify, result)) == Some(result.s);
    }
  }

  // ---------------------------------------------------------------------------
  // Registration
  // ---------------------------------------------------------------------------

  /** The dispatch table that registering `catalog` in order produces. */
  function Table(catalog: seq<ToolSpec>): map<string, ToolSpec> {
    if catalog == [] then map[] else Table(catalog[..|catalog| - 1])[catalog[|catalog| - 1].name := catalog[|catalog| - 1]]
  }

  lemma {:induction false} TableKeys(catalog: seq<ToolSpec>)
    ensures Table(catalog).Keys == NameSet(catalog)
  {
    if catalog != [] {
      var init := catalog[..|catalog| - 1];
      TableKeys(init);
      assert catalog == init + [catalog[|catalog| - 1]];
      assert NameSet(catalog) == NameSet(init) + {catalog[|catalog| - 1].name};
    }
  }

  /** With distinct names every tool is found under its own name. */
  lemma {:induction false} TableFindsEveryTool(catalog: seq<ToolSpec>)
    requires DistinctNames(catalog)
    ensures Table(catalog).Keys == NameSet(catalog) && |Table(catalog)| == |catalog|
    ensures forall i :: 0 <= i < |catalog| ==> Table(catalog)[catalog[i].name] == catalog[i]
  {
    TableKeys(catalog);
    if catalog != [] {
      var init := catalog[..|catalog| - 1];
      TableFindsEveryTool(init);
      forall i | 0 <= i < |catalog|
        ensures Table(catalog)[catalog[i].name] == catalog[i]
      {
        if i < |catalog| - 1 {
          assert init[i] == catalog[i];
        }
      }
    }
  }

  /** The protocol server's tool registry. */
  class ToolServer {
    var registered: map<string, ToolSpec>

    constructor ()
      ensures registered == map[]
    {
      registered := map[];
    }

    /** registerTool: the protocol server refuses (throws on) a name that is
        already registered. */
    method RegisterTool(tool: ToolSpec) returns (ok: bool)
      modifies this
      ensures ok == (tool.name !in old(registered))
      ensures registered == if ok then old(registered)[tool.name := tool] else old(registered)
    {
      ok := tool.name !in registered;
      if ok {
        registered := registered[tool.name := tool];
      }
    }

    /** `catalog.forEach(registerTool)` on a fresh server: it gets through
        exactly when the names are distinct, and then every tool is registered
        under its name. A refusal stops the loop. */
    method RegisterAll(catalog: seq<ToolSpec>) returns (ok: bool)
      requires registered == map[]
      modifies this
      ensures ok <==> DistinctNames(catalog)
      ensures ok ==> registered == Table(catalog)
    {
      var i := 0;
      ok := true;
      while i < |catalog| && ok
        invariant 0 <= i <= |catalog|
        invariant ok ==> registered == Table(catalog[..i]) && DistinctNames(catalog[..i])
        invariant !ok ==> !DistinctNames(catalog)
      {
        TableKeys(catalog[..i]);
        assert catalog[..i + 1][..i] == catalog[..i];
        ok := RegisterTool(catalog[i]);
        if !ok {
          var t :| t in catalog[..i] && t.name == catalog[i].name;
          var j :| 0 <= j < i && catalog[..i][j] == t;
          assert catalog[j].name == catalog[i].name;
        } else {
          forall j | 0 <= j < i ensures catalog[j].name != catalog[i].name {
            assert catalog[j] in catalog[..i];
          }
        }
        i := i + 1;
      }
      if ok {
        assert catalog[..i] == catalog;
      }
    }
  }

  /** Registering `allTools` succeeds and serves each of the eleven tools
      under its own name. */
  method RegisterCatalog() returns (server: ToolServer)
    ensures fresh(server)
    ensures server.registered.Keys == NameSet(AllTools) && |server.registered| == 11
    ensures forall i :: 0 <= i < |AllTools| ==> server.registered[AllTools[i].name] == AllTools[i]
  {
    server := new ToolServer();
    AllToolNamesDistinct();
    var ok := server.RegisterAll(AllTools);
    TableFindsEveryTool(AllTools);
  }
}
