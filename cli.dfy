/** The top-level commands: the review score stored by `review`, the
    section shown by `config`, and the order of the two stages of `study`. */
module Cli {
  import opened Wrappers
  import opened Python
  import opened Text
  import CliUtils

  // ---------------------------------------------------------------------
  // review
  // ---------------------------------------------------------------------

  /** A review value brought into the range [1, 5]. */
  function Clamp(v: int): (r: int)
    ensures 1 <= r <= 5
    ensures 1 <= v <= 5 ==> r == v
    ensures v < 1 ==> r == 1
    ensures v > 5 ==> r == 5
  {
    if v < 1 then 1 else if v > 5 then 5 else v
  }

  /** The review `review_command(review_value)` appends to the chat log: a
      missing or zero argument is replaced by the integer the user answers
      at the prompt, and the value is then clamped. */
  function StoredReview(argument: Option<int>, answered: int): (r: int)
    ensures 1 <= r <= 5
    ensures argument.None? || argument.value == 0 ==> r == Clamp(answered)
    ensures argument.Some? && argument.value != 0 ==> r == Clamp(argument.value)
    ensures argument.Some? && 1 <= argument.value <= 5 ==> r == argument.value
  {
    var v := if argument.None? || argument.value == 0 then answered else argument.value;
    Clamp(v)
  }

  // ---------------------------------------------------------------------
  // config
  // ---------------------------------------------------------------------

  /** What `config_command(section)` prints: a heading naming the section,
      and the configuration it dumps. */
  datatype Shown = Shown(heading: string, config: seq<Entry>)

  function Heading(section: Option<string>): string {
    "# Active configuration " + (if section.Some? && section.value != [] then " - " + section.value else "")
  }

  /** The output of `config_command(section)`: the whole project
      configuration without a section, a dictionary of that one section when
      it exists, and nothing (an error is logged) when it does not. */
  function ConfigCommand(projectConfig: seq<Entry>, section: Option<string>): (r: Option<Shown>)
    ensures r.Some? ==> r.value.heading == Heading(section)
    ensures section.None? || section.value == [] ==> r == Some(Shown(Heading(section), projectConfig))
    ensures section.Some? && section.value != [] ==> (r.Some? <==> HasKey(projectConfig, section.value))
    ensures section.Some? && section.value != [] && r.Some? ==>
              |r.value.config| == 1 && r.value.config[0].key == section.value &&
              Get(r.value.config, section.value) == Get(projectConfig, section.value)
  {
    if section.None? || section.value == [] then Some(Shown(Heading(section), projectConfig))
    else
      match Get(projectConfig, section.value)
      case None => None
      case Some(v) => Some(Shown(Heading(section), [Entry(section.value, v)]))
  }

  /** The heading names the section exactly when one is asked for. */
  lemma {:induction false} HeadingNamesSection(section: string)
    requires section != []
    ensures EndsWith(Heading(Some(section)), " - " + section)
    ensures Heading(None) == "# Active configuration "
  {
    Parts2("# Active configuration ", " - " + section);
  }

  // ---------------------------------------------------------------------
  // study
  // ---------------------------------------------------------------------

  /** How `study` ends: stopped by the project guard, stopped after loading
      with the first loading error, or after embedding what was loaded. */
  datatype Study<R> =
    | Aborted
    | LoadingFailed(firstError: Error, loaded: nat)
    | Embedded(results: seq<R>, errors: seq<Error>)

  /** `study_command`: the project guard runs first; the documents are then
      loaded, and the embedder runs only when loading raised no error. The
      loader's results and errors are parameters, and so is the embedder. */
  function StudyCommand<D, R>(
    guard: CliUtils.Guard, loaded: seq<D>, loadErrors: seq<Error>,
    embed: seq<D> -> (seq<R>, seq<Error>)): (r: Study<R>)
    ensures guard.outcome.Fail? <==> r.Aborted?
    ensures guard.outcome.Pass? && loadErrors != [] ==> r == LoadingFailed(loadErrors[0], |loaded|)
    ensures r.Embedded? <==> guard.outcome.Pass? && loadErrors == []
    ensures r.Embedded? ==> (r.results, r.errors) == embed(loaded)
  {
    if guard.outcome.Fail? then Aborted
    else if loadErrors != [] then LoadingFailed(loadErrors[0], |loaded|)
    else
      var (results, errors) := embed(loaded);
      Embedded(results, errors)
  }
}
