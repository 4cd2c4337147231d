/** The chat log (chatnerd/tools/chat_logger.py): how a question, its
    answer, the documents it was answered from and the project
    configuration are written as one entry of the day's chat log. The clock
    and the file append are outside the model: the timestamp is a
    parameter and the entry is returned as text. */
module ChatLogging {
  import opened Wrappers
  import opened Python
  import opened Text
  import Stores

  /** The configuration keys a log entry records. */
  const LoggedKeys: seq<string> := ["default_model", "retriever", "chat_chain"]

  /** The default line prefix of `format_config` and `format_documents`. */
  const DefaultPrefix: string := "  - "

  /** A string with neither line feeds nor carriage returns. */
  predicate SingleLine(s: string) {
    forall k :: 0 <= k < |s| ==> s[k] != '\n' && s[k] != '\r'
  }

  /** `ChatLogger.one_line`: line breaks become spaces and surrounding
      whitespace is removed. */
  function OneLine(text: string): (r: string)
    ensures IsStripOf(r, ReplaceChar(ReplaceChar(text, '\n', ' '), '\r', ' '), Whitespace)
    ensures SingleLine(r)
    ensures r != [] ==> r[0] !in Whitespace && r[|r| - 1] !in Whitespace
    ensures |r| <= |text|
  {
    var spaced := ReplaceChar(ReplaceChar(text, '\n', ' '), '\r', ' ');
    StripSingleLine(spaced, Whitespace);
    Strip(spaced, Whitespace)
  }

  /** Stripping characters from the ends keeps a text on one line. */
  lemma {:induction false} StripSingleLine(s: string, cs: set<char>)
    requires SingleLine(s)
    ensures SingleLine(Strip(s, cs))
  {
    SubstringAvoids(Strip(s, cs), s, {'\n', '\r'});
  }

  /** A text already on one line, without surrounding whitespace, is kept
      as it is. */
  lemma {:induction false} OneLineOfSingleLine(s: string)
    requires SingleLine(s)
    requires s != [] ==> s[0] !in Whitespace && s[|s| - 1] !in Whitespace
    ensures OneLine(s) == s
  {
    assert ReplaceChar(s, '\n', ' ') == s;
    assert ReplaceChar(s, '\r', ' ') == s;
    StripClean(s, Whitespace);
  }

  /** Applying `one_line` twice is applying it once. */
  lemma {:induction false} OneLineIdempotent(text: string)
    ensures OneLine(OneLine(text)) == OneLine(text)
  {
    OneLineOfSingleLine(OneLine(text));
  }

  /** The `page_content` of a reduced document, defaulting to the empty
      string, is a string. */
  predicate HasTextContent(doc: seq<Entry>) {
    GetOr(doc, "page_content", Str("")).Str?
  }

  /** The two lines `format_documents` writes for one document: its
      `source` (the empty string by default), then its content on one
      line. */
  function BlockText(doc: seq<Entry>, prefix: string): string
    requires HasTextContent(doc)
  {
    var source := GetOr(doc, "source", Str(""));
    var content := GetOr(doc, "page_content", Str("")).s;
    prefix + StrOf(source) + "\n" + prefix + OneLine(content) + "\n"
  }

  /** The blocks of all the documents, in order. */
  function Blocks(docs: seq<seq<Entry>>, prefix: string): (r: seq<string>)
    requires forall i :: 0 <= i < |docs| ==> HasTextContent(docs[i])
    ensures |r| == |docs|
  {
    seq(|docs|, i requires 0 <= i < |docs| => BlockText(docs[i], prefix))
  }

  /** `format_documents`: the blocks of the documents, concatenated. A
      content that is present but not a string (a `None` kept under the
      key) has no `replace`. */
  function FormattedDocuments(docs: seq<seq<Entry>>, prefix: string): (r: Result<string, Error>)
    ensures r.Ok? <==> forall i :: 0 <= i < |docs| ==> HasTextContent(docs[i])
    ensures r.Err? ==> r.error == AttributeError("replace")
    ensures docs == [] ==> r == Ok("")
  {
    if forall i :: 0 <= i < |docs| ==> HasTextContent(docs[i]) then Ok(Concat(Blocks(docs, prefix)))
    else Err(AttributeError("replace"))
  }

  /** `ChatLogger.format_documents`. */
  method FormatDocuments(docs: seq<seq<Entry>>, prefix: string) returns (r: Result<string, Error>)
    ensures r == FormattedDocuments(docs, prefix)
  {
    var text := "";
    var i := 0;
    while i < |docs|
      invariant 0 <= i <= |docs|
      invariant forall k :: 0 <= k < i ==> HasTextContent(docs[k])
      invariant text == Concat(Blocks(docs[..i], prefix))
    {
      if !HasTextContent(docs[i]) {
        return Err(AttributeError("replace"));
      }
      BlocksStep(docs, i, prefix);
      text := text + BlockText(docs[i], prefix);
      i := i + 1;
    }
    assert docs[..|docs|] == docs;
    r := Ok(text);
  }

  lemma {:induction false} BlocksStep(docs: seq<seq<Entry>>, i: nat, prefix: string)
    requires i < |docs|
    requires forall k :: 0 <= k <= i ==> HasTextContent(docs[k])
    ensures Concat(Blocks(docs[..i + 1], prefix)) == Concat(Blocks(docs[..i], prefix)) + BlockText(docs[i], prefix)
  {
    var b := Blocks(docs[..i + 1], prefix);
    assert b[..i] == Blocks(docs[..i], prefix);
    assert b[i] == BlockText(docs[i], prefix);
  }

  /** Formatting two lists of documents one after the other is formatting
      them together. */
  lemma {:induction false} FormattedDocumentsAppend(a: seq<seq<Entry>>, b: seq<seq<Entry>>, prefix: string)
    requires FormattedDocuments(a, prefix).Ok? && FormattedDocuments(b, prefix).Ok?
    ensures FormattedDocuments(a + b, prefix) == Ok(FormattedDocuments(a, prefix).value + FormattedDocuments(b, prefix).value)
  {
    TextContentAppend(a, b);
    BlocksAppend(a, b, prefix);
    ConcatAppend(Blocks(a, prefix), Blocks(b, prefix));
  }

  lemma {:induction false} TextContentAppend(a: seq<seq<Entry>>, b: seq<seq<Entry>>)
    requires forall i :: 0 <= i < |a| ==> HasTextContent(a[i])
    requires forall i :: 0 <= i < |b| ==> HasTextContent(b[i])
    ensures forall i :: 0 <= i < |a + b| ==> HasTextContent((a + b)[i])
  {
    forall i | 0 <= i < |a + b| ensures HasTextContent((a + b)[i]) {
      if i < |a| { assert (a + b)[i] == a[i]; } else { assert (a + b)[i] == b[i - |a|]; }
    }
  }

  lemma {:induction false} BlocksAppend(a: seq<seq<Entry>>, b: seq<seq<Entry>>, prefix: string)
    requires forall i :: 0 <= i < |a| ==> HasTextContent(a[i])
    requires forall i :: 0 <= i < |b| ==> HasTextContent(b[i])
    requires forall i :: 0 <= i < |a + b| ==> HasTextContent((a + b)[i])
    ensures Blocks(a + b, prefix) == Blocks(a, prefix) + Blocks(b, prefix)
  {
    var ab, ba, bb := Blocks(a + b, prefix), Blocks(a, prefix), Blocks(b, prefix);
    forall i | 0 <= i < |ab| ensures ab[i] == (ba + bb)[i] {
      var d := (a + b)[i];
      assert ab[i] == BlockText(d, prefix);
      if i < |a| {
        assert d == a[i];
        assert (ba + bb)[i] == ba[i] == BlockText(a[i], prefix);
      } else {
        assert d == b[i - |a|];
        assert (ba + bb)[i] == bb[i - |a|] == BlockText(b[i - |a|], prefix);
      }
    }
  }

  /** A document without content or source still gives its two lines, made
      of the prefix alone. */
  lemma {:induction false} EmptyDocumentBlock(prefix: string)
    ensures HasTextContent([])
    ensures BlockText([], prefix) == prefix + "\n" + prefix + "\n"
  {
    var none: seq<Entry> := [];
    assert Get(none, "page_content") == None;
    OneLineOfSingleLine("");
    EmptyDocumentText(prefix);
  }

  /** The rendering step of `EmptyDocumentBlock`, kept apart from the facts
      about `one_line` it rests on. */
  lemma {:induction false} EmptyDocumentText(prefix: string)
    requires HasTextContent([])
    requires OneLine("") == ""
    ensures BlockText([], prefix) == prefix + "\n" + prefix + "\n"
  {
    var none: seq<Entry> := [];
    var source := GetOr(none, "source", Str(""));
    var content := GetOr(none, "page_content", Str(""));
    assert source == Str("") && content == Str("");
    assert StrOf(source) == "";
    assert BlockText(none, prefix) == prefix + "" + "\n" + prefix + "" + "\n";
    assert prefix + "" == prefix;
    assert prefix + "\n" + prefix + "" == prefix + "\n" + prefix;
  }

  /** One `name: value` line of `format_config`. */
  function ConfigLine(prefix: string, name: string, v: Value): string {
    prefix + name + ": " + StrOf(v) + "\n"
  }

  /** The line for `name` when its value is truthy, and nothing otherwise. */
  function OptionalLine(prefix: string, name: string, v: Value): string {
    if Truthy(v) then ConfigLine(prefix, name, v) else ""
  }

  /** The header line of the retriever block. */
  function RetrieverHeader(prefix: string): string {
    prefix + "retriever:\n"
  }

  /** The lines under the retriever header: `search_type`, then
      `search_kwargs`, indented by two more spaces. */
  function RetrieverLines(prefix: string, searchType: Value, searchKwargs: Value): string {
    ConfigLine("  " + prefix, "search_type", searchType) + ConfigLine("  " + prefix, "search_kwargs", searchKwargs)
  }

  /** `ChatLogger.format_config`: a `default_model` line, a `retriever`
      header with its `search_type` and `search_kwargs` lines, and a
      `chat_chain` line, each only when the configuration holds a truthy
      value for it. A truthy retriever must be a dictionary with both keys. */
  function FormatConfig(config: seq<Entry>, prefix: string): (r: Result<string, Error>)
    ensures var retriever := GetOr(config, "retriever", Null);
            r.Err? <==> Truthy(retriever) &&
                         !(retriever.Dict? && HasKey(retriever.entries, "search_type") && HasKey(retriever.entries, "search_kwargs"))
    ensures var retriever := GetOr(config, "retriever", Null);
            Truthy(retriever) && !retriever.Dict? ==> r.Err? && r.error.TypeError?
    ensures var retriever := GetOr(config, "retriever", Null);
            Truthy(retriever) && retriever.Dict? && !HasKey(retriever.entries, "search_type") ==>
              r == Err(KeyError("search_type"))
    ensures var retriever := GetOr(config, "retriever", Null);
            Truthy(retriever) && retriever.Dict? && HasKey(retriever.entries, "search_type")
            && !HasKey(retriever.entries, "search_kwargs") ==>
              r == Err(KeyError("search_kwargs"))
    ensures var retriever := GetOr(config, "retriever", Null);
            r.Ok? && !Truthy(retriever) ==>
              r.value == OptionalLine(prefix, "default_model", GetOr(config, "default_model", Null))
                         + OptionalLine(prefix, "chat_chain", GetOr(config, "chat_chain", Null))
    ensures var retriever := GetOr(config, "retriever", Null);
            r.Ok? && Truthy(retriever) ==>
              && retriever.Dict? && HasKey(retriever.entries, "search_type") && HasKey(retriever.entries, "search_kwargs")
              && r.value == OptionalLine(prefix, "default_model", GetOr(config, "default_model", Null))
                            + RetrieverHeader(prefix)
                            + RetrieverLines(prefix, Get(retriever.entries, "search_type").value,
                                             Get(retriever.entries, "search_kwargs").value)
                            + OptionalLine(prefix, "chat_chain", GetOr(config, "chat_chain", Null))
    ensures var model := GetOr(config, "default_model", Null);
            r.Ok? && Truthy(model) ==> StartsWith(r.value, ConfigLine(prefix, "default_model", model))
    ensures var chain := GetOr(config, "chat_chain", Null);
            r.Ok? && Truthy(chain) ==> EndsWith(r.value, ConfigLine(prefix, "chat_chain", chain))
    ensures r.Ok? && Truthy(GetOr(config, "retriever", Null)) ==> Contains(r.value, RetrieverHeader(prefix))
    ensures (r.Ok? && !Truthy(GetOr(config, "default_model", Null)) && !Truthy(GetOr(config, "retriever", Null))
             && !Truthy(GetOr(config, "chat_chain", Null))) ==> r.value == ""
  {
    var model := GetOr(config, "default_model", Null);
    var retriever := GetOr(config, "retriever", Null);
    var chain := GetOr(config, "chat_chain", Null);
    var first := OptionalLine(prefix, "default_model", model);
    var last := OptionalLine(prefix, "chat_chain", chain);
    if !Truthy(retriever) then
      Parts2(first, last);
      Ok(first + last)
    else if !retriever.Dict? then Err(TypeError("indices must be integers or slices, not str"))
    else
      var searchType := Get(retriever.entries, "search_type");
      var searchKwargs := Get(retriever.entries, "search_kwargs");
      if searchType.None? then Err(KeyError("search_type"))
      else if searchKwargs.None? then Err(KeyError("search_kwargs"))
      else
        var header := RetrieverHeader(prefix);
        var lines := RetrieverLines(prefix, searchType.value, searchKwargs.value);
        Parts4(first, header, lines, last);
        Ok(first + header + lines + last)
  }

  /** The dictionary comprehension of `log`: only the keys in `LoggedKeys`
      are kept, in their order in the configuration. */
  function FilterLoggedKeys(config: seq<Entry>): (r: seq<Entry>)
    ensures forall k :: Get(r, k) == if k in LoggedKeys then Get(config, k) else None
    ensures |r| <= |config|
    ensures forall i :: 0 <= i < |r| ==> r[i].key in LoggedKeys && r[i] in config
  {
    if config == [] then []
    else
      var rest := FilterLoggedKeys(config[1..]);
      var e := config[0];
      if e.key in LoggedKeys then
        var r := [e] + rest;
        assert r[1..] == rest;
        r
      else rest
  }

  /** Only the logged keys reach `format_config`, so filtering first
      changes nothing in the formatted configuration. */
  lemma {:induction false} FilteringKeepsFormat(config: seq<Entry>, prefix: string)
    ensures FormatConfig(FilterLoggedKeys(config), prefix) == FormatConfig(config, prefix)
  {
    var f := FilterLoggedKeys(config);
    assert Get(f, "default_model") == Get(config, "default_model");
    assert Get(f, "retriever") == Get(config, "retriever");
    assert Get(f, "chat_chain") == Get(config, "chat_chain");
  }

  /** The separator line that opens every log entry. */
  const EntryRule: string := " ------------------------------------"

  /** The document as `log` reduces it: its metadata `source`, which must
      be present, and its content (`None` when it has none). */
  function ReducedDocument(doc: Stores.DocValue): (r: Result<seq<Entry>, Error>)
    ensures r.Err? <==> "source" !in doc.metadata
    ensures r.Err? ==> r.error == KeyError("source")
    ensures r.Ok? ==> Get(r.value, "source") == Some(doc.metadata["source"])
    ensures r.Ok? ==> Get(r.value, "page_content") == Some(if doc.content.Some? then Str(doc.content.value) else Null)
  {
    if "source" !in doc.metadata then Err(KeyError("source"))
    else Ok([Entry("source", doc.metadata["source"]),
             Entry("page_content", if doc.content.Some? then Str(doc.content.value) else Null)])
  }

  /** The reduced documents, or the error of the first one without a
      source. */
  function ReducedDocuments(docs: seq<Stores.DocValue>): (r: Result<seq<seq<Entry>>, Error>)
    ensures r.Err? <==> exists i :: 0 <= i < |docs| && "source" !in docs[i].metadata
    ensures r.Err? ==> r.error == KeyError("source")
    ensures r.Ok? ==> |r.value| == |docs| && forall i :: 0 <= i < |docs| ==> Ok(r.value[i]) == ReducedDocument(docs[i])
  {
    if docs == [] then Ok([])
    else
      MissingSourceCons(docs);
      match ReducedDocument(docs[0])
      case Err(e) => Err(e)
      case Ok(d) =>
        match ReducedDocuments(docs[1..])
        case Err(e) => Err(e)
        case Ok(rest) =>
          ReducedCons(docs, d, rest);
          Ok([d] + rest)
  }

  /** The first reduced document before the rest, reduced one by one. */
  lemma {:induction false} ReducedCons(docs: seq<Stores.DocValue>, d: seq<Entry>, rest: seq<seq<Entry>>)
    requires docs != [] && Ok(d) == ReducedDocument(docs[0])
    requires |rest| == |docs| - 1
    requires forall i :: 0 <= i < |rest| ==> Ok(rest[i]) == ReducedDocument(docs[1..][i])
    ensures forall i :: 0 <= i < |docs| ==> Ok(([d] + rest)[i]) == ReducedDocument(docs[i])
  {
    forall i | 0 <= i < |docs|
      ensures Ok(([d] + rest)[i]) == ReducedDocument(docs[i])
    {
      if i > 0 {
        assert ([d] + rest)[i] == rest[i - 1];
        assert docs[1..][i - 1] == docs[i];
      }
    }
  }

  /** A document without a source is either the first or one of the rest. */
  lemma {:induction false} MissingSourceCons(docs: seq<Stores.DocValue>)
    requires docs != []
    ensures (exists i :: 0 <= i < |docs| && "source" !in docs[i].metadata) <==>
            "source" !in docs[0].metadata || exists i :: 0 <= i < |docs[1..]| && "source" !in docs[1..][i].metadata
  {
    if exists i :: 0 <= i < |docs[1..]| && "source" !in docs[1..][i].metadata {
      var i :| 0 <= i < |docs[1..]| && "source" !in docs[1..][i].metadata;
      assert docs[i + 1] == docs[1..][i];
    }
    if exists i :: 0 <= i < |docs| && "source" !in docs[i].metadata {
      var i :| 0 <= i < |docs| && "source" !in docs[i].metadata;
      if i > 0 {
        assert docs[1..][i - 1] == docs[i];
      }
    }
  }

  /** The lines of an entry before the configuration: a blank line, the
      timestamp with its rule, then the question and the answer. */
  function EntryHead(timestamp: string, question: string, answer: string): string {
    "\n" + timestamp + EntryRule + "\nQ: \n" + question + "\nA: \n" + answer + "\n"
  }

  /** The rest of an entry: the formatted configuration, then the formatted
      documents, each under its heading. */
  function EntryBody(configText: string, documentsText: string): string {
    "project_config:\n" + configText + "\ndocuments:\n" + documentsText
  }

  /** Documents whose reduced forms all have text content all have
      content. */
  lemma {:induction false} ReducedContentPresent(documents: seq<Stores.DocValue>, reduced: seq<seq<Entry>>)
    requires |reduced| == |documents|
    requires forall i :: 0 <= i < |documents| ==> Ok(reduced[i]) == ReducedDocument(documents[i])
    requires forall i :: 0 <= i < |reduced| ==> HasTextContent(reduced[i])
    ensures forall i :: 0 <= i < |documents| ==> documents[i].content.Some?
  {
    forall i | 0 <= i < |documents|
      ensures documents[i].content.Some?
    {
      assert HasTextContent(reduced[i]);
    }
  }

  /** `ChatLogger.log`: the text of one log entry, or the error that is
      printed instead of writing it. `projectConfig` is what reading the
      project configuration gave. The documents are reduced first, then
      the configuration is read, filtered and formatted, then the
      documents are formatted. */
  function LogEntry(
    timestamp: string, question: string, answer: string,
    documents: seq<Stores.DocValue>, projectConfig: Result<seq<Entry>, Error>): (r: Result<string, Error>)
    ensures ReducedDocuments(documents).Err? ==> r == Err(KeyError("source"))
    ensures ReducedDocuments(documents).Ok? && projectConfig.Err? ==> r == Err(projectConfig.error)
    ensures ReducedDocuments(documents).Ok? && projectConfig.Ok?
            && FormatConfig(FilterLoggedKeys(projectConfig.value), DefaultPrefix).Err? ==>
              r == Err(FormatConfig(FilterLoggedKeys(projectConfig.value), DefaultPrefix).error)
    ensures ReducedDocuments(documents).Ok? && projectConfig.Ok?
            && FormatConfig(FilterLoggedKeys(projectConfig.value), DefaultPrefix).Ok?
            && FormattedDocuments(ReducedDocuments(documents).value, DefaultPrefix).Err? ==>
              r == Err(AttributeError("replace"))
    ensures ReducedDocuments(documents).Ok? && projectConfig.Ok?
            && FormatConfig(FilterLoggedKeys(projectConfig.value), DefaultPrefix).Ok?
            && FormattedDocuments(ReducedDocuments(documents).value, DefaultPrefix).Ok? ==>
              r.Ok?
    ensures r.Ok? ==>
              && ReducedDocuments(documents).Ok? && projectConfig.Ok?
              && FormatConfig(FilterLoggedKeys(projectConfig.value), DefaultPrefix).Ok?
              && FormattedDocuments(ReducedDocuments(documents).value, DefaultPrefix).Ok?
              && r.value == EntryHead(timestamp, question, answer)
                            + EntryBody(FormatConfig(FilterLoggedKeys(projectConfig.value), DefaultPrefix).value,
                                        FormattedDocuments(ReducedDocuments(documents).value, DefaultPrefix).value)
    ensures r.Ok? ==> StartsWith(r.value, EntryHead(timestamp, question, answer))
    ensures r.Ok? ==> forall i :: 0 <= i < |documents| ==> documents[i].content.Some?
  {
    match ReducedDocuments(documents)
    case Err(e) => Err(e)
    case Ok(reduced) =>
      match projectConfig
      case Err(e) => Err(e)
      case Ok(config) =>
        match FormatConfig(FilterLoggedKeys(config), DefaultPrefix)
        case Err(e) => Err(e)
        case Ok(configText) =>
          match FormattedDocuments(reduced, DefaultPrefix)
          case Err(e) => Err(e)
          case Ok(documentsText) =>
            ReducedContentPresent(documents, reduced);
            var head := EntryHead(timestamp, question, answer);
            var body := EntryBody(configText, documentsText);
            Parts2(head, body);
            Ok(head + body)
  }
}
