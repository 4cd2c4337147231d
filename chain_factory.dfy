/** The configuration rules of the chain factory
    (chatnerd/langchain/chain_factory.py): which chain configuration a chat or
    retrieve chain is built from, the checks that reject a configuration, the
    shape of question expansion and the normalisation of the system prompt.
    The runnables themselves, the language model, the stores and the prompt
    templates are library code outside the model. */
module Chains {
  import opened Wrappers
  import opened Python
  import opened Text

  /** `config.get(key, None)`, with Python's `None` as `Null`. */
  function Lookup(config: seq<Entry>, key: string): Value {
    GetOr(config, key, Null)
  }

  /** The chain configuration named by `key` (`chat_chain` or
      `retrieve_chain`): when its value is a string naming another top-level
      key, that key's value is used instead (once, not transitively); the
      result must be a dictionary, otherwise `ValueError`. */
  function ResolveChainConfig(config: seq<Entry>, key: string): (r: Result<seq<Entry>, Error>)
    ensures var v := Lookup(config, key);
            var resolved := if v.Str? && HasKey(config, v.s) then Lookup(config, v.s) else v;
            && (r.Ok? <==> resolved.Dict?)
            && (r.Ok? ==> r.value == resolved.entries)
            && (r.Err? ==> r.error.ValueError?)
  {
    var v := Lookup(config, key);
    var resolved := if v.Str? && HasKey(config, v.s) then Lookup(config, v.s) else v;
    if resolved.Dict? then Ok(resolved.entries)
    else Err(ValueError("Invalid value in '" + key + "' configuration: " + StrOf(resolved)))
  }

  /** A dictionary given directly is used as it is. */
  lemma {:induction false} DirectChainConfig(config: seq<Entry>, key: string, entries: seq<Entry>)
    requires Get(config, key) == Some(Dict(entries))
    ensures ResolveChainConfig(config, key) == Ok(entries)
  {
  }

  /** A string naming a key that holds a dictionary resolves to that
      dictionary. */
  lemma {:induction false} NamedChainConfig(config: seq<Entry>, key: string, name: string, entries: seq<Entry>)
    requires Get(config, key) == Some(Str(name))
    requires Get(config, name) == Some(Dict(entries))
    ensures ResolveChainConfig(config, key) == Ok(entries)
  {
  }

  /** The indirection is followed once: a name that leads to another name is
      rejected, even when that second name holds a dictionary. */
  lemma {:induction false} ChainConfigIndirectionIsOneLevel(config: seq<Entry>, key: string, name: string, name2: string)
    requires Get(config, key) == Some(Str(name))
    requires Get(config, name) == Some(Str(name2))
    ensures ResolveChainConfig(config, key).Err?
    ensures ResolveChainConfig(config, key).error.ValueError?
  {
  }

  /** The `reranker` section, which must be a dictionary. */
  function RerankerConfig(config: seq<Entry>): (r: Result<seq<Entry>, Error>)
    ensures r.Ok? <==> Lookup(config, "reranker").Dict?
    ensures r.Ok? ==> r.value == Lookup(config, "reranker").entries
    ensures r.Err? ==> r.error.ValueError?
  {
    var v := Lookup(config, "reranker");
    if v.Dict? then Ok(v.entries)
    else Err(ValueError("Invalid value in 'reranker' configuration: " + StrOf(v)))
  }

  /** `self.config["prompts"].get(name, default)`: a configuration without a
      `prompts` section raises `KeyError`; a section that is not a dictionary
      has no `get` and raises `AttributeError`. */
  function PromptLookup(config: seq<Entry>, name: string, default: Value): (r: Result<Value, Error>)
    ensures !HasKey(config, "prompts") ==> r == Err(KeyError("prompts"))
    ensures HasKey(config, "prompts") && !Get(config, "prompts").value.Dict? ==> r == Err(AttributeError("get"))
    ensures HasKey(config, "prompts") && Get(config, "prompts").value.Dict? ==>
              r == Ok(GetOr(Get(config, "prompts").value.entries, name, default))
  {
    var prompts := Get(config, "prompts");
    if prompts.None? then Err(KeyError("prompts"))
    else if !prompts.value.Dict? then Err(AttributeError("get"))
    else Ok(GetOr(prompts.value.entries, name, default))
  }

  /** What question expansion does with a question: pass it on alone, or
      ask the model for `count` more with `prompt`. */
  datatype ExpansionPlan = PassThrough | Expand(count: Value, prompt: Value)

  /** `get_question_expansion_chain`. The chain configuration is checked
      first: an empty one, or one that is not a dictionary, raises
      `ValueError`. A missing, falsy or less-than-one `n_expanded_questions`
      turns expansion off; one that cannot be compared with 1 raises
      `TypeError`. When expansion is on, the prompt
      `find_expanded_questions_prompt` must be present and truthy, otherwise
      `ValueError`. */
  function QuestionExpansion(config: seq<Entry>, chainConfig: Value): (r: Result<ExpansionPlan, Error>)
    ensures !Truthy(chainConfig) ==> r == Err(ValueError("No chain_config provided"))
    ensures Truthy(chainConfig) && !chainConfig.Dict? ==> r.Err? && r.error.ValueError?
    ensures chainConfig.Dict? && Truthy(chainConfig) ==>
              var n := Lookup(chainConfig.entries, "n_expanded_questions");
              && (!Truthy(n) || (IsNumber(n) && NumberOf(n) < 1) ==> r == Ok(PassThrough))
              && (Truthy(n) && !IsNumber(n) ==> r.Err? && r.error.TypeError?)
              && (Truthy(n) && IsNumber(n) && NumberOf(n) >= 1 ==>
                    match PromptLookup(config, "find_expanded_questions_prompt", Null)
                    case Err(e) => r == Err(e)
                    case Ok(prompt) =>
                      && (Truthy(prompt) ==> r == Ok(Expand(n, prompt)))
                      && (!Truthy(prompt) ==> r.Err? && r.error.ValueError?))
  {
    if !Truthy(chainConfig) then Err(ValueError("No chain_config provided"))
    else if !chainConfig.Dict? then Err(ValueError("Invalid chain_config received: " + StrOf(chainConfig)))
    else
      var n := Lookup(chainConfig.entries, "n_expanded_questions");
      if !Truthy(n) then Ok(PassThrough)
      else if !IsNumber(n) then Err(TypeError("'<' not supported between instances of a non-number and 'int'"))
      else if NumberOf(n) < 1 then Ok(PassThrough)
      else
        match PromptLookup(config, "find_expanded_questions_prompt", Null)
        case Err(e) => Err(e)
        case Ok(prompt) =>
          if !Truthy(prompt) then Err(ValueError("Invalid value in 'find_expanded_questions_prompt' configuration"))
          else Ok(Expand(n, prompt))
  }

  /** The questions the retriever is asked: the original question first,
      then, when expansion is on, the questions the model's numbered list
      was parsed into, in order. */
  function ExpandedQuestions(plan: ExpansionPlan, question: string, parsed: seq<string>): (r: seq<string>)
    ensures r != [] && r[0] == question
    ensures plan.PassThrough? ==> r == [question]
    ensures plan.Expand? ==> |r| == 1 + |parsed| && r[1..] == parsed
  {
    if plan.PassThrough? then [question] else [question] + parsed
  }

  /** The system prompt as the chat chain uses it: newlines become spaces,
      then dots and spaces are stripped from both ends. */
  function NormalizeSystemPrompt(prompt: string): (r: string)
    ensures IsStripOf(r, ReplaceChar(prompt, '\n', ' '), {'.', ' '})
    ensures forall k :: 0 <= k < |r| ==> r[k] != '\n'
    ensures r != [] ==> r[0] !in {'.', ' '} && r[|r| - 1] !in {'.', ' '}
    ensures |r| <= |prompt|
  {
    var s := ReplaceChar(prompt, '\n', ' ');
    var r := Strip(s, {'.', ' '});
    SubstringAvoids(r, s, {'\n'});
    r
  }

  /** Normalising twice is normalising once. */
  lemma {:induction false} NormalizeSystemPromptIdempotent(prompt: string)
    ensures NormalizeSystemPrompt(NormalizeSystemPrompt(prompt)) == NormalizeSystemPrompt(prompt)
  {
    var r := NormalizeSystemPrompt(prompt);
    ReplaceAbsentChar(r, '\n', ' ');
    StripClean(r, {'.', ' '});
  }

  /** A one-line prompt that neither starts nor ends with '.' or ' ' is used
      as it is. */
  lemma {:induction false} NormalizeSystemPromptOfClean(prompt: string)
    requires forall k :: 0 <= k < |prompt| ==> prompt[k] != '\n'
    requires prompt != [] ==> prompt[0] !in {'.', ' '} && prompt[|prompt| - 1] !in {'.', ' '}
    ensures NormalizeSystemPrompt(prompt) == prompt
  {
    ReplaceAbsentChar(prompt, '\n', ' ');
    StripClean(prompt, {'.', ' '});
  }

  /** The `use_cross_encoding_rerank` flag handed to the reranker: on unless
      the chain configuration says otherwise. */
  function UseCrossEncodingRerank(chainConfig: seq<Entry>): (r: Value)
    ensures !HasKey(chainConfig, "use_cross_encoding_rerank") ==> r == Bool(true)
    ensures HasKey(chainConfig, "use_cross_encoding_rerank") ==> Some(r) == Get(chainConfig, "use_cross_encoding_rerank")
  {
    GetOr(chainConfig, "use_cross_encoding_rerank", Bool(true))
  }

  /** `self.config["retriever"]`, unpacked as keyword arguments: it must
      exist (`KeyError`) and be a mapping (`TypeError`). */
  function RetrieverConfig(config: seq<Entry>): (r: Result<seq<Entry>, Error>)
    ensures !HasKey(config, "retriever") <==> r == Err(KeyError("retriever"))
    ensures r.Ok? <==> HasKey(config, "retriever") && Get(config, "retriever").value.Dict?
    ensures r.Ok? ==> r.value == Get(config, "retriever").value.entries
  {
    var v := Get(config, "retriever");
    if v.None? then Err(KeyError("retriever"))
    else if !v.value.Dict? then Err(TypeError("argument after ** must be a mapping"))
    else Ok(v.value.entries)
  }

  /** The default human prompt of the chat chain. */
  const DefaultChatPrompt: string := "\n<context>\n{context}\n</context>\n\nQuestion: {question}\n"

  /** The chat system prompt, normalised; a missing or non-string prompt has
      no `replace` and raises `AttributeError`. */
  function SystemPrompt(config: seq<Entry>): (r: Result<string, Error>)
    ensures PromptLookup(config, "chat_system_prompt", Null).Err? ==>
              r == Err(PromptLookup(config, "chat_system_prompt", Null).error)
    ensures r.Ok? <==> PromptLookup(config, "chat_system_prompt", Null).Ok?
                       && PromptLookup(config, "chat_system_prompt", Null).value.Str?
    ensures r.Ok? ==> r.value == NormalizeSystemPrompt(PromptLookup(config, "chat_system_prompt", Null).value.s)
    ensures r.Err? && PromptLookup(config, "chat_system_prompt", Null).Ok? ==> r == Err(AttributeError("replace"))
  {
    match PromptLookup(config, "chat_system_prompt", Null)
    case Err(e) => Err(e)
    case Ok(system) =>
      if system.Str? then Ok(NormalizeSystemPrompt(system.s)) else Err(AttributeError("replace"))
  }

  /** The sections both chains take from the configuration. */
  datatype Sections = Sections(
    chainConfig: seq<Entry>,
    reranker: seq<Entry>,
    expansion: ExpansionPlan,
    useCrossEncodingRerank: Value)

  /** The chain configuration under `key`, then the reranker section, then
      question expansion, checked in that order: the first that fails
      decides the error. */
  function ChainSections(config: seq<Entry>, key: string): (r: Result<Sections, Error>)
    ensures ResolveChainConfig(config, key).Err? ==> r == Err(ResolveChainConfig(config, key).error)
    ensures ResolveChainConfig(config, key).Ok? && RerankerConfig(config).Err? ==>
              r == Err(RerankerConfig(config).error)
    ensures ResolveChainConfig(config, key).Ok? && RerankerConfig(config).Ok?
            && QuestionExpansion(config, Dict(ResolveChainConfig(config, key).value)).Err? ==>
              r == Err(QuestionExpansion(config, Dict(ResolveChainConfig(config, key).value)).error)
    ensures r.Ok? <==> && ResolveChainConfig(config, key).Ok?
                       && RerankerConfig(config).Ok?
                       && QuestionExpansion(config, Dict(ResolveChainConfig(config, key).value)).Ok?
    ensures r.Ok? ==>
              && r.value.chainConfig == ResolveChainConfig(config, key).value
              && r.value.reranker == RerankerConfig(config).value
              && r.value.expansion == QuestionExpansion(config, Dict(r.value.chainConfig)).value
              && r.value.useCrossEncodingRerank == UseCrossEncodingRerank(r.value.chainConfig)
  {
    var chain := ResolveChainConfig(config, key);
    if chain.Err? then Err(chain.error)
    else
      var reranker := RerankerConfig(config);
      if reranker.Err? then Err(reranker.error)
      else
        var expansion := QuestionExpansion(config, Dict(chain.value));
        if expansion.Err? then Err(expansion.error)
        else Ok(Sections(chain.value, reranker.value, expansion.value, UseCrossEncodingRerank(chain.value)))
  }

  /** An empty chain configuration is rejected by question expansion, so
      every chain needs a non-empty one. */
  lemma {:induction false} EmptyChainConfigRejected(config: seq<Entry>, key: string)
    requires ResolveChainConfig(config, key) == Ok([])
    requires RerankerConfig(config).Ok?
    ensures ChainSections(config, key) == Err(ValueError("No chain_config provided"))
  {
  }

  /** The `TypeError` Python raises for a call that passes the keyword
      `name` both explicitly and inside an unpacked `**` dictionary. */
  function MultipleValues(name: string): Error {
    TypeError("bind() got multiple values for keyword argument '" + name + "'")
  }

  /** The `bind` calls that wire the retrieval runnables, in the order
      Python evaluates them: `retriever=` beside the unpacked chain
      configuration, `use_cross_encoding_rerank=` beside the unpacked
      reranker section, `store=` beside the chain configuration and, for a
      retrieve chain with a summary, `store_factory=` beside it again. The
      first keyword that its unpacked dictionary also holds raises. */
  function BindError(sections: Sections, withSummary: bool): (r: Option<Error>)
    ensures r.None? <==> && !HasKey(sections.chainConfig, "retriever")
                         && !HasKey(sections.reranker, "use_cross_encoding_rerank")
                         && !HasKey(sections.chainConfig, "store")
                         && (withSummary ==> !HasKey(sections.chainConfig, "store_factory"))
    ensures HasKey(sections.chainConfig, "retriever") ==> r == Some(MultipleValues("retriever"))
    ensures !HasKey(sections.chainConfig, "retriever") && HasKey(sections.reranker, "use_cross_encoding_rerank") ==>
              r == Some(MultipleValues("use_cross_encoding_rerank"))
    ensures r.Some? ==> r.value.TypeError?
  {
    if HasKey(sections.chainConfig, "retriever") then Some(MultipleValues("retriever"))
    else if HasKey(sections.reranker, "use_cross_encoding_rerank") then Some(MultipleValues("use_cross_encoding_rerank"))
    else if HasKey(sections.chainConfig, "store") then Some(MultipleValues("store"))
    else if withSummary && HasKey(sections.chainConfig, "store_factory") then Some(MultipleValues("store_factory"))
    else None
  }

  /** Everything `get_chat_chain` decides from the configuration. */
  datatype ChatSetup = ChatSetup(
    retriever: seq<Entry>,
    systemPrompt: string,
    humanPrompt: Value,
    sections: Sections)

  /** `get_chat_chain`, as far as the configuration goes: the retriever
      section, the system prompt, the human prompt (by default
      `DefaultChatPrompt`), then the chat chain's sections, then the keyword
      arguments of its `bind` calls. */
  function ChatChain(config: seq<Entry>): (r: Result<ChatSetup, Error>)
    ensures RetrieverConfig(config).Err? ==> r == Err(RetrieverConfig(config).error)
    ensures RetrieverConfig(config).Ok? && SystemPrompt(config).Err? ==> r == Err(SystemPrompt(config).error)
    ensures RetrieverConfig(config).Ok? && SystemPrompt(config).Ok? && ChainSections(config, "chat_chain").Err? ==>
              r == Err(ChainSections(config, "chat_chain").error)
    ensures RetrieverConfig(config).Ok? && SystemPrompt(config).Ok? && ChainSections(config, "chat_chain").Ok?
            && BindError(ChainSections(config, "chat_chain").value, false).Some? ==>
              r == Err(BindError(ChainSections(config, "chat_chain").value, false).value)
    ensures r.Ok? <==> && RetrieverConfig(config).Ok? && SystemPrompt(config).Ok?
                       && ChainSections(config, "chat_chain").Ok?
                       && BindError(ChainSections(config, "chat_chain").value, false).None?
    ensures r.Ok? ==>
              && r.value.retriever == RetrieverConfig(config).value
              && r.value.systemPrompt == SystemPrompt(config).value
              && r.value.sections == ChainSections(config, "chat_chain").value
              && Some(r.value.humanPrompt) ==
                   if HasKey(Get(config, "prompts").value.entries, "chat_human_prompt")
                   then Get(Get(config, "prompts").value.entries, "chat_human_prompt")
                   else Some(Str(DefaultChatPrompt))
  {
    var retriever := RetrieverConfig(config);
    if retriever.Err? then Err(retriever.error)
    else
      var system := SystemPrompt(config);
      if system.Err? then Err(system.error)
      else
        var human := PromptLookup(config, "chat_human_prompt", Str(DefaultChatPrompt)).value;
        var sections := ChainSections(config, "chat_chain");
        if sections.Err? then Err(sections.error)
        else
          match BindError(sections.value, false)
          case Some(e) => Err(e)
          case None => Ok(ChatSetup(retriever.value, system.value, human, sections.value))
  }

  /** Everything `get_retrieve_chain` decides from the configuration. */
  datatype RetrieveSetup = RetrieveSetup(retriever: seq<Entry>, sections: Sections)

  /** `get_retrieve_chain`, as far as the configuration goes: the retriever
      section, then the retrieve chain's sections, then the keyword
      arguments of its `bind` calls, with `store_factory=` only when a
      summary is asked for; no prompt is read. */
  function RetrieveChain(config: seq<Entry>, withSummary: bool): (r: Result<RetrieveSetup, Error>)
    ensures RetrieverConfig(config).Err? ==> r == Err(RetrieverConfig(config).error)
    ensures RetrieverConfig(config).Ok? && ChainSections(config, "retrieve_chain").Err? ==>
              r == Err(ChainSections(config, "retrieve_chain").error)
    ensures RetrieverConfig(config).Ok? && ChainSections(config, "retrieve_chain").Ok?
            && BindError(ChainSections(config, "retrieve_chain").value, withSummary).Some? ==>
              r == Err(BindError(ChainSections(config, "retrieve_chain").value, withSummary).value)
    ensures r.Ok? <==> && RetrieverConfig(config).Ok? && ChainSections(config, "retrieve_chain").Ok?
                       && BindError(ChainSections(config, "retrieve_chain").value, withSummary).None?
    ensures r.Ok? ==> r == Ok(RetrieveSetup(RetrieverConfig(config).value, ChainSections(config, "retrieve_chain").value))
  {
    var retriever := RetrieverConfig(config);
    if retriever.Err? then Err(retriever.error)
    else
      var sections := ChainSections(config, "retrieve_chain");
      if sections.Err? then Err(sections.error)
      else
        match BindError(sections.value, withSummary)
        case Some(e) => Err(e)
        case None => Ok(RetrieveSetup(retriever.value, sections.value))
  }

  /** Asking for a summary only adds the `store_factory=` binding: every
      configuration it accepts is accepted without one, with the same
      result. */
  lemma {:induction false} SummaryOnlyAddsBinding(config: seq<Entry>)
    requires RetrieveChain(config, true).Ok?
    ensures RetrieveChain(config, false) == RetrieveChain(config, true)
  {
    var sections := ChainSections(config, "retrieve_chain");
    assert sections.Ok?;
    assert BindError(sections.value, true).None?;
    assert BindError(sections.value, false).None?;
  }

  /** A chain configuration holding a `retriever` key collides with the
      retriever the chain binds explicitly, whatever else it holds. */
  lemma {:induction false} RetrieverKeyCollides(config: seq<Entry>, withSummary: bool)
    requires RetrieverConfig(config).Ok? && ChainSections(config, "retrieve_chain").Ok?
    requires HasKey(ChainSections(config, "retrieve_chain").value.chainConfig, "retriever")
    ensures RetrieveChain(config, withSummary) == Err(MultipleValues("retriever"))
  {
  }

  /** When `chat_chain` and `retrieve_chain` name the same section, a
      configuration accepted by the chat chain is accepted by the retrieve
      chain, which then retrieves, reranks and expands questions alike. */
  lemma {:induction false} SharedSectionAgrees(config: seq<Entry>, name: string, entries: seq<Entry>)
    requires Get(config, "chat_chain") == Some(Str(name))
    requires Get(config, "retrieve_chain") == Some(Str(name))
    requires Get(config, name) == Some(Dict(entries))
    requires ChatChain(config).Ok?
    ensures RetrieveChain(config, false).Ok?
    ensures RetrieveChain(config, false).value.sections == ChatChain(config).value.sections
    ensures RetrieveChain(config, false).value.retriever == ChatChain(config).value.retriever
  {
    NamedChainConfig(config, "chat_chain", name, entries);
    NamedChainConfig(config, "retrieve_chain", name, entries);
  }
}
