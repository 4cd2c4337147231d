/** The application configuration (chatnerd/config.py): the source-list line
    rule, the `Config` dataclass with its environment instance and override
    rule, its textual form, and the project-name rules behind the project
    configuration, the project base path and project activation. Files,
    YAML, dotenv and `os.environ` are outside the model: their contents are
    parameters. */
module Configuration {
  import opened Wrappers
  import opened Python
  import opened Text

  // ---------------------------------------------------------------------
  // Source-list lines
  // ---------------------------------------------------------------------

  /** A source URL as the source list holds it: non-empty, no surrounding
      whitespace, not a comment and without a trailing ` #` comment. */
  predicate CleanUrl(u: string) {
    && u != []
    && u[0] !in Whitespace && u[|u| - 1] !in Whitespace
    && u[0] != '#'
    && !Contains(u, " #")
  }

  /** `Config.strip_source_url`: the URL a line of the source list holds,
      or `None` for a blank line or a comment line. */
  function StripSourceUrl(line: string): (r: Option<string>)
    ensures Strip(line, Whitespace) == [] ==> r.None?
    ensures StartsWith(Strip(line, Whitespace), "#") ==> r.None?
    ensures r.Some? ==> CleanUrl(r.value) && IsSubstring(r.value, line)
    ensures r.Some? ==> IsSubstring(r.value, Before(Strip(line, Whitespace), " #"))
    ensures r.None? <==> Strip(line, Whitespace) == [] || StartsWith(Strip(line, Whitespace), "#")
    ensures r.Some? ==> IsStripOf(r.value, Before(Strip(line, Whitespace), " #"), Whitespace)
  {
    var t := Strip(line, Whitespace);
    if StartsWith(t, "#") then None
    else
      var u := Before(t, " #");
      var v := Strip(u, Whitespace);
      UrlNonEmpty(t, Whitespace);
      if v == [] then None
      else
        UrlPieces(line, t, u, v, Whitespace);
        Some(v)
  }

  /** What is left of a line without the stripped characters and its
      comment is a piece of that line that neither starts nor ends with a
      stripped character, does not start a comment and holds no ` #`. */
  lemma {:induction false} UrlPieces(line: string, t: string, u: string, v: string, cs: set<char>)
    requires t == Strip(line, cs) && !StartsWith(t, "#")
    requires u == Before(t, " #") && v == Strip(u, cs) && v != []
    ensures v[0] !in cs && v[|v| - 1] !in cs && v[0] != '#'
    ensures !Contains(v, " #") && IsSubstring(v, line)
  {
    assert IsSubstring(u, t) by {
      assert OccursAt(t, u, 0);
    }
    SubstringTransitive(u, t, line);
    SubstringTransitive(v, u, line);
    assert !Contains(v, " #") by {
      if Contains(v, " #") {
        ContainsInSubstring(v, u, " #");
      }
    }
    StripKeepsFirst(u, cs);
    assert v[0] == t[0];
    assert t[..1] == [t[0]];
  }

  /** A stripped line that does not start a comment keeps its first
      character before its first ` #`, so something is left of it. */
  lemma {:induction false} UrlNonEmpty(t: string, cs: set<char>)
    requires ' ' in cs && !StartsWith(t, "#")
    requires t != [] ==> t[0] !in cs
    ensures t != [] ==> Strip(Before(t, " #"), cs) != []
  {
    if t != [] {
      var u := Before(t, " #");
      assert !OccursAt(t, " #", 0) by {
        assert t[0] != ' ';
        if |t| >= 2 {
          assert t[0..2][0] == t[0];
        }
      }
      assert u != [];
      assert u[0] == t[0];
      StripKeepsFirst(u, cs);
    }
  }

  /** A clean URL on a line of its own is read back as it is. */
  lemma {:induction false} StripSourceUrlOfClean(u: string)
    requires CleanUrl(u)
    ensures StripSourceUrl(u) == Some(u)
  {
    StripClean(u, Whitespace);
    assert u[..1] == [u[0]];
    StripClean(Before(u, " #"), Whitespace);
  }

  /** A clean URL read from a file, with its line break, is read back
      without it. */
  lemma {:induction false} StripSourceUrlOfLine(u: string)
    requires CleanUrl(u)
    ensures StripSourceUrl(u + "\n") == Some(u)
  {
    var line := u + "\n";
    assert line[..|u|] == u;
    assert StrippedAt(u, line, Whitespace, 0);
    IsStripOfUnique(u, Strip(line, Whitespace), line, Whitespace);
    StripSourceUrlOfClean(u);
  }

  /** What `StripSourceUrl` returns, it returns again. */
  lemma {:induction false} StripSourceUrlIdempotent(line: string)
    requires StripSourceUrl(line).Some?
    ensures StripSourceUrl(StripSourceUrl(line).value) == StripSourceUrl(line)
  {
    StripSourceUrlOfClean(StripSourceUrl(line).value);
  }

  /** A comment after a clean URL is dropped. */
  lemma {:induction false} StripSourceUrlDropsComment(u: string, comment: string)
    requires CleanUrl(u)
    requires comment == [] || comment[|comment| - 1] !in Whitespace
    ensures StripSourceUrl(u + " #" + comment) == Some(u)
  {
    var line := u + " #" + comment;
    assert line[0] == u[0];
    assert line[|line| - 1] !in Whitespace;
    StripClean(line, Whitespace);
    assert line[..1] == [u[0]];
    BeforeFirstComment(u, comment);
    StripClean(u, Whitespace);
  }

  /** The text before the first ` #` of a line is what precedes the comment
      marker when the text itself holds none. */
  lemma {:induction false} BeforeFirstComment(u: string, comment: string)
    requires !Contains(u, " #")
    ensures Before(u + " #" + comment, " #") == u
  {
    var line := u + " #" + comment;
    assert line[|u|..|u| + 2] == " #";
    assert OccursAt(line, " #", |u|);
    forall k | 0 <= k < |u| ensures !OccursAt(line, " #", k) {
      if k + 2 <= |u| {
        assert line[k..k + 2] == u[k..k + 2];
        assert !OccursAt(u, " #", k);
      } else {
        assert line[k + 1] == ' ';
      }
    }
    var r := Before(line, " #");
    assert |r| == |u|;
    assert r == line[..|u|] == u;
  }

  // ---------------------------------------------------------------------
  // The Config dataclass
  // ---------------------------------------------------------------------

  /** The dataclass fields of `Config`, in declaration order, with their
      defaults. */
  const FieldDefaults: seq<Entry> := [
    Entry("ACTIVE_PROJECT", Null),
    Entry("PROJECTS_DIRECTORY_PATH", Str("_projects")),
    Entry("LOG_FILE_LEVEL", Null),
    Entry("LOG_FILE_PATH", Str("logs/chatnerd.log")),
    Entry("VERBOSE", Int(1)),
    Entry("OPENAI_API_KEY", Str(""))
  ]

  const FieldNames: seq<string> := [
    "ACTIVE_PROJECT", "PROJECTS_DIRECTORY_PATH", "LOG_FILE_LEVEL", "LOG_FILE_PATH", "VERBOSE", "OPENAI_API_KEY"
  ]

  /** The names the `Config` class itself defines besides its fields: its
      class constants and its methods. `hasattr` holds for these too. */
  const ClassAttributes: set<string> := {
    "_PROJECT_STORE_DIRECTORYNAME", "_PROJECT_SOURCE_DOCUMENTS_DIRECTORYNAME",
    "_PROJECT_CONFIG_FILENAME", "_PROJECT_CONFIG_MODELS_FILENAME",
    "_PROJECT_CONFIG_PROMPTS_FILENAME", "_instance",
    "instance", "bootstrap", "get_project_config", "get_project_base_path",
    "activate_project", "get_active_project", "dump_runtime_dotenv",
    "read_project_config", "merge_config", "strip_source_url"
  }

  /** A list of entries holding exactly the dataclass fields, in order. */
  predicate IsFieldList(fields: seq<Entry>) {
    |fields| == |FieldNames| && forall i :: 0 <= i < |fields| ==> fields[i].key == FieldNames[i]
  }

  /** `hasattr(config, name)`. */
  predicate HasAttr(name: string) {
    name in FieldNames || name in ClassAttributes
  }

  /** The position of a field among the dataclass fields. */
  function FieldIndex(name: string): (i: nat)
    requires name in FieldNames
    ensures i < |FieldNames| && FieldNames[i] == name
  {
    if name == FieldNames[0] then 0
    else if name == FieldNames[1] then 1
    else if name == FieldNames[2] then 2
    else if name == FieldNames[3] then 3
    else if name == FieldNames[4] then 4
    else 5
  }

  /** The fields of `Config.instance()`: each one from the environment
      variable of the same name when it is set, otherwise its default; then
      `VERBOSE` is converted with `int()`, which raises `ValueError` for an
      environment value that is not an integer. */
  function EnvironmentFields(environ: map<string, string>): (r: Result<seq<Entry>, Error>)
    ensures r.Err? <==> "VERBOSE" in environ && ParseInt(environ["VERBOSE"]).Err?
    ensures r.Ok? ==> IsFieldList(r.value)
    ensures r.Ok? ==> forall i :: 0 <= i < |FieldNames| && i != 4 ==>
              r.value[i].value == if FieldNames[i] in environ then Str(environ[FieldNames[i]]) else FieldDefaults[i].value
    ensures r.Ok? ==> r.value[4].value == if "VERBOSE" in environ then Int(ParseInt(environ["VERBOSE"]).value) else Int(1)
  {
    var values := FromEnvironment(environ, FieldDefaults);
    EnvironmentValues(environ, values);
    match ToInt(values[4].value)
    case Err(e) => Err(e)
    case Ok(n) => Ok(values[4 := Entry("VERBOSE", Int(n))])
  }

  /** The fields read from the environment, before `VERBOSE` is converted. */
  lemma {:induction false} EnvironmentValues(environ: map<string, string>, values: seq<Entry>)
    requires |values| == |FieldDefaults|
    requires forall i :: 0 <= i < |values| ==>
               values[i] == Entry(FieldDefaults[i].key,
                                  if FieldDefaults[i].key in environ then Str(environ[FieldDefaults[i].key])
                                  else FieldDefaults[i].value)
    ensures IsFieldList(values)
    ensures forall i :: 0 <= i < |FieldNames| ==>
              values[i].value == if FieldNames[i] in environ then Str(environ[FieldNames[i]]) else FieldDefaults[i].value
    ensures values[4].value == if "VERBOSE" in environ then Str(environ["VERBOSE"]) else Int(1)
  {
    DefaultsAreFields();
    assert FieldDefaults[4] == Entry("VERBOSE", Int(1));
  }

  /** The defaults name the dataclass fields, in order. */
  lemma {:induction false} DefaultsAreFields()
    ensures IsFieldList(FieldDefaults)
  {
  }

  /** `os.environ.get(name, default)` for each field. */
  function FromEnvironment(environ: map<string, string>, defaults: seq<Entry>): (r: seq<Entry>)
    ensures |r| == |defaults|
    ensures forall i :: 0 <= i < |r| ==>
              r[i] == Entry(defaults[i].key, if defaults[i].key in environ then Str(environ[defaults[i].key]) else defaults[i].value)
  {
    if defaults == [] then []
    else
      var e := defaults[0];
      [Entry(e.key, if e.key in environ then Str(environ[e.key]) else e.value)] + FromEnvironment(environ, defaults[1..])
  }

  /** The loop of `Config.instance()`: every field in turn takes the
      environment variable of its name when it is set, and keeps its
      default otherwise. */
  method ReadEnvironment(environ: map<string, string>, defaults: seq<Entry>) returns (values: seq<Entry>)
    ensures values == FromEnvironment(environ, defaults)
  {
    var expected := FromEnvironment(environ, defaults);
    values := [];
    var i := 0;
    while i < |defaults|
      invariant 0 <= i <= |defaults|
      invariant values == expected[..i]
    {
      var e := defaults[i];
      var v := if e.key in environ then Str(environ[e.key]) else e.value;
      assert expected[i] == Entry(e.key, v);
      assert expected[..i + 1] == expected[..i] + [expected[i]];
      values := values + [Entry(e.key, v)];
      i := i + 1;
    }
    assert expected[..i] == expected;
  }

  /** `Config.instance()`: the fields read from the environment, then
      `VERBOSE` converted with `int()`. */
  method Instance(environ: map<string, string>) returns (r: Result<seq<Entry>, Error>)
    ensures r == EnvironmentFields(environ)
  {
    var values := ReadEnvironment(environ, FieldDefaults);
    var verbose := ToInt(values[4].value);
    if verbose.Err? {
      return Err(verbose.error);
    }
    r := Ok(values[4 := Entry("VERBOSE", Int(verbose.value))]);
  }

  /** The fields after the configuration entries `config` were applied in
      order: an entry naming a field overwrites it, any other is skipped. */
  function Overridden(fields: seq<Entry>, config: seq<Entry>): (r: seq<Entry>)
    requires IsFieldList(fields)
    ensures IsFieldList(r)
  {
    if config == [] then fields
    else OverrideField(Overridden(fields, config[..|config| - 1]), config[|config| - 1])
  }

  /** One step of `Overridden`. */
  function OverrideField(fields: seq<Entry>, e: Entry): (r: seq<Entry>)
    requires IsFieldList(fields)
    ensures IsFieldList(r)
  {
    if e.key in FieldNames then fields[FieldIndex(e.key) := e] else fields
  }

  /** The instance attributes that entries naming a class attribute (a
      constant or a method) leave behind, shadowing the class's own. */
  function Shadowed(config: seq<Entry>): map<string, Value> {
    if config == [] then map[] else ShadowAttribute(Shadowed(config[..|config| - 1]), config[|config| - 1])
  }

  /** One step of `Shadowed`. */
  function ShadowAttribute(shadowed: map<string, Value>, e: Entry): map<string, Value> {
    if e.key in ClassAttributes && e.key !in FieldNames then shadowed[e.key := e.value] else shadowed
  }

  /** The override rule: a field takes the value the configuration gives
      it, and keeps the environment's value when the configuration does not
      name it. */
  lemma {:induction false} OverrideRule(environment: seq<Entry>, config: seq<Entry>)
    requires IsFieldList(environment)
    requires UniqueKeys(config)
    ensures IsFieldList(Overridden(environment, config))
    ensures forall i :: 0 <= i < |FieldNames| ==>
              Overridden(environment, config)[i].value == GetOr(config, FieldNames[i], environment[i].value)
  {
    if config != [] {
      var prefix := config[..|config| - 1];
      var e := config[|config| - 1];
      assert config == prefix + [e];
      assert UniqueKeys(prefix) by {
        forall i, j | 0 <= i < j < |prefix| ensures prefix[i].key != prefix[j].key {
          assert prefix[i] == config[i] && prefix[j] == config[j];
        }
      }
      OverrideRule(environment, prefix);
      assert !HasKey(prefix, e.key) by {
        forall i | 0 <= i < |prefix| ensures prefix[i].key != e.key {
          assert prefix[i] == config[i];
        }
      }
      var before := Overridden(environment, prefix);
      assert Overridden(environment, config) == OverrideField(before, e);
      forall i | 0 <= i < |FieldNames|
        ensures Overridden(environment, config)[i].value == GetOr(config, FieldNames[i], environment[i].value)
      {
        GetSnoc(prefix, e, FieldNames[i]);
        OverrideFieldAt(before, e, i);
      }
    }
  }

  /** One override step changes the field the entry names and no other. */
  lemma {:induction false} OverrideFieldAt(fields: seq<Entry>, e: Entry, i: nat)
    requires IsFieldList(fields) && i < |FieldNames|
    ensures OverrideField(fields, e)[i].value == if e.key == FieldNames[i] then e.value else fields[i].value
  {
    if e.key in FieldNames {
      var j := FieldIndex(e.key);
      if e.key == FieldNames[i] && j != i {
        FieldNamesDistinct(i, j);
      }
    }
  }

  /** No two dataclass fields share a name. */
  lemma {:induction false} FieldNamesDistinct(i: nat, j: nat)
    requires i < j < |FieldNames| || j < i < |FieldNames|
    ensures FieldNames[i] != FieldNames[j]
  {
    assert |FieldNames[i]| != |FieldNames[j]| || FieldNames[i][0] != FieldNames[j][0];
  }

  /** Keys that are not attributes of `Config` change nothing. */
  lemma {:induction false} UnknownKeysIgnored(environment: seq<Entry>, config: seq<Entry>)
    requires IsFieldList(environment)
    requires forall i :: 0 <= i < |config| ==> !HasAttr(config[i].key)
    ensures Overridden(environment, config) == environment
    ensures Shadowed(config) == map[]
  {
    if config != [] {
      UnknownKeysIgnored(environment, config[..|config| - 1]);
    }
  }

  /** One line of `str(config)`: `name=value`, or nothing for a name
      starting with `_`. */
  function FieldLine(e: Entry): string {
    if StartsWith(e.key, "_") then "" else e.key + "=" + StrOf(e.value) + "\n"
  }

  /** The lines of `str(config)`, one per field. */
  function Lines(fields: seq<Entry>): (r: seq<string>)
    ensures |r| == |fields| && forall i :: 0 <= i < |fields| ==> r[i] == FieldLine(fields[i])
  {
    seq(|fields|, i requires 0 <= i < |fields| => FieldLine(fields[i]))
  }

  /** `str(config)` over a list of fields. */
  function Render(fields: seq<Entry>): string {
    Concat(Lines(fields))
  }

  /** Every field whose name does not start with `_` appears in
      `str(config)` as a line of its own. */
  lemma {:induction false} RenderShowsField(fields: seq<Entry>, i: nat)
    requires i < |fields| && !StartsWith(fields[i].key, "_")
    ensures IsSubstring(fields[i].key + "=" + StrOf(fields[i].value) + "\n", Render(fields))
  {
    var lines := Lines(fields);
    var line := lines[i];
    assert lines == lines[..i] + [line] + lines[i + 1..];
    ConcatAppend(lines[..i] + [line], lines[i + 1..]);
    ConcatAppend(lines[..i], [line]);
    assert Concat([line]) == line by {
      assert [line][..0] == [];
    }
    OccursInMiddle(Concat(lines[..i]), line, Concat(lines[i + 1..]));
  }

  /** The configuration, with the dataclass fields as fields of the object
      and the class attributes an override has shadowed. */
  class Config {
    var activeProject: Value
    var projectsDirectoryPath: Value
    var logFileLevel: Value
    var logFilePath: Value
    var verbose: Value
    var openaiApiKey: Value
    var shadowed: map<string, Value>

    /** `dataclasses.fields(self)` with their values. */
    function Fields(): (r: seq<Entry>)
      reads this
      ensures IsFieldList(r)
    {
      [Entry("ACTIVE_PROJECT", activeProject),
       Entry("PROJECTS_DIRECTORY_PATH", projectsDirectoryPath),
       Entry("LOG_FILE_LEVEL", logFileLevel),
       Entry("LOG_FILE_PATH", logFilePath),
       Entry("VERBOSE", verbose),
       Entry("OPENAI_API_KEY", openaiApiKey)]
    }

    /** `setattr(self, name, v)`. */
    method SetAttr(name: string, v: Value)
      modifies this
      ensures name in FieldNames ==> Fields() == old(Fields())[FieldIndex(name) := Entry(name, v)]
      ensures name in FieldNames ==> shadowed == old(shadowed)
      ensures name !in FieldNames ==> Fields() == old(Fields()) && shadowed == old(shadowed)[name := v]
    {
      if name == FieldNames[0] { activeProject := v; }
      else if name == FieldNames[1] { projectsDirectoryPath := v; }
      else if name == FieldNames[2] { logFileLevel := v; }
      else if name == FieldNames[3] { logFilePath := v; }
      else if name == FieldNames[4] { verbose := v; }
      else if name == FieldNames[5] { openaiApiKey := v; }
      else { shadowed := shadowed[name := v]; }
    }

    /** `Config(config)`: every field starts from the environment instance,
        then each configuration entry naming an attribute is set, in order;
        `None` is an empty configuration. */
    constructor (environment: seq<Entry>, config: seq<Entry>)
      requires IsFieldList(environment)
      ensures Fields() == Overridden(environment, config)
      ensures shadowed == Shadowed(config)
    {
      new;
      shadowed := map[];
      CopyFields(environment);
      var j := 0;
      while j < |config|
        invariant 0 <= j <= |config|
        invariant Fields() == Overridden(environment, config[..j])
        invariant shadowed == Shadowed(config[..j])
      {
        assert config[..j + 1][..j] == config[..j];
        ApplyEntry(config[j]);
        j := j + 1;
      }
      assert config[..|config|] == config;
    }

    /** The first loop of `Config(config)`: every field takes the value of
        the same field of the environment instance. */
    method CopyFields(environment: seq<Entry>)
      requires IsFieldList(environment)
      modifies this
      ensures Fields() == environment && shadowed == old(shadowed)
    {
      var i := 0;
      while i < |environment|
        invariant 0 <= i <= |environment|
        invariant forall k :: 0 <= k < i ==> Fields()[k] == environment[k]
        invariant shadowed == old(shadowed)
      {
        assert FieldIndex(environment[i].key) == i;
        SetAttr(environment[i].key, environment[i].value);
        i := i + 1;
      }
    }

    /** One step of the second loop of `Config(config)`: the entry is set
        when `hasattr` holds for its key. */
    method ApplyEntry(e: Entry)
      modifies this
      ensures Fields() == OverrideField(old(Fields()), e)
      ensures shadowed == ShadowAttribute(old(shadowed), e)
    {
      if HasAttr(e.key) {
        SetAttr(e.key, e.value);
      }
    }

    /** `str(self)`: one `name=value` line per field, skipping names that
        start with `_`. */
    method ToString() returns (r: string)
      ensures r == Render(Fields())
    {
      var fields := Fields();
      var lines := Lines(fields);
      r := "";
      var i := 0;
      while i < |fields|
        invariant 0 <= i <= |fields|
        invariant r == Concat(lines[..i])
      {
        var prefix := lines[..i + 1];
        assert prefix[..i] == lines[..i];
        assert Concat(prefix) == r + FieldLine(fields[i]);
        if !StartsWith(fields[i].key, "_") {
          var line := fields[i].key + "=" + StrOf(fields[i].value) + "\n";
          r := r + line;
        }
        i := i + 1;
      }
      assert lines[..|fields|] == lines;
    }

    /** `Config.activate_project`: a non-empty name must have a project
        directory; the name becomes the active project and the text of the
        runtime dotenv file is returned. `None` cannot be written to
        `os.environ` and raises `TypeError`; the empty name deactivates. */
    method ActivateProject(projectName: Option<string>, projectsDir: string, pathExists: string -> bool)
      returns (r: Result<string, Error>)
      modifies this`activeProject
      ensures projectName.Some? && projectName.value != [] && !pathExists(JoinPath(projectsDir, projectName.value)) ==>
                r == Err(ValueError("Project '" + projectName.value + "' does not exist. Create it first. See chatnerd project --help."))
      ensures projectName.None? ==> r.Err? && r.error.TypeError?
      ensures r.Err? ==> activeProject == old(activeProject)
      ensures r.Ok? <==> projectName.Some? && (projectName.value == [] || pathExists(JoinPath(projectsDir, projectName.value)))
      ensures r.Ok? ==> activeProject == Str(projectName.value) && r.value == DotenvContent(projectName)
    {
      if projectName.Some? && projectName.value != [] && !pathExists(JoinPath(projectsDir, projectName.value)) {
        return Err(ValueError("Project '" + projectName.value + "' does not exist. Create it first. See chatnerd project --help."));
      }
      if projectName.None? {
        return Err(TypeError("str expected, not NoneType"));
      }
      activeProject := Str(projectName.value);
      r := Ok(DotenvContent(projectName));
    }
  }

  /** The text of the runtime dotenv file for an active project. */
  function DotenvContent(active: Option<string>): (r: string)
    ensures StartsWith(r, "ACTIVE_PROJECT=")
    ensures active.Some? ==> r == "ACTIVE_PROJECT=" + active.value + "\n"
    ensures active.None? ==> r == "ACTIVE_PROJECT=\n"
  {
    "ACTIVE_PROJECT=" + active.GetOr("") + "\n"
  }

  // ---------------------------------------------------------------------
  // Project names and paths
  // ---------------------------------------------------------------------

  /** `Path(base, name)` as a string: an absolute name replaces the base. */
  function JoinPath(base: string, name: string): (r: string)
    ensures StartsWith(name, "/") ==> r == name
    ensures !StartsWith(name, "/") && base != [] && name != [] ==> r == base + "/" + name
  {
    if StartsWith(name, "/") then name
    else if base == [] then name
    else if name == [] then base
    else base + "/" + name
  }

  /** `project_name or config.get_active_project() or None`. */
  function ChosenProject(projectName: Option<string>, active: Option<string>): (r: Option<string>)
    ensures r.Some? ==> r.value != []
    ensures r.None? <==> (projectName.None? || projectName.value == []) && (active.None? || active.value == [])
    ensures projectName.Some? && projectName.value != [] ==> r == projectName
  {
    if projectName.Some? && projectName.value != [] then projectName
    else if active.Some? && active.value != [] then active
    else None
  }

  /** `Config.get_project_base_path`: the directory of the named project,
      or of the active one; `ValueError` when neither is given. */
  function ProjectBasePath(projectsDir: string, active: Option<string>, projectName: Option<string>): (r: Result<string, Error>)
    ensures r.Err? <==> ChosenProject(projectName, active).None?
    ensures r.Err? ==> r.error == ValueError("No project name provided")
    ensures r.Ok? ==> r.value == JoinPath(projectsDir, ChosenProject(projectName, active).value)
  {
    var chosen := ChosenProject(projectName, active);
    if chosen.None? then Err(ValueError("No project name provided")) else Ok(JoinPath(projectsDir, chosen.value))
  }

  /** `Config.get_project_config`: the default configuration, merged with
      the chosen project's when there is one, with `_project_base_path`
      recording where it came from. `read` stands for
      `read_project_config`, `merge` for `merge_config`. */
  function ProjectConfig(
    projectsDir: string, active: Option<string>, projectName: Option<string>, ignoreProject: bool,
    defaultBase: string,
    read: string -> Result<seq<Entry>, Error>,
    merge: (seq<Entry>, seq<Entry>) -> seq<Entry>): (r: Result<seq<Entry>, Error>)
    ensures ChosenProject(projectName, active).None? && !ignoreProject ==> r == Err(ValueError("No project name provided"))
    ensures var c := ChosenProject(projectName, active);
            c.Some? || ignoreProject ==>
              (r.Ok? <==> read(defaultBase).Ok? && (c.Some? ==> read(JoinPath(projectsDir, c.value)).Ok?))
    ensures (ChosenProject(projectName, active).Some? || ignoreProject) && read(defaultBase).Err? ==>
              r == Err(read(defaultBase).error)
    ensures var c := ChosenProject(projectName, active);
            c.Some? && read(defaultBase).Ok? && read(JoinPath(projectsDir, c.value)).Err? ==>
              r == Err(read(JoinPath(projectsDir, c.value)).error)
    ensures r.Ok? ==> HasKey(r.value, "_project_base_path")
    ensures r.Ok? ==> var chosen := ChosenProject(projectName, active);
                      Get(r.value, "_project_base_path") ==
                        Some(Str(if chosen.Some? then JoinPath(projectsDir, chosen.value) else defaultBase))
    ensures r.Ok? && ChosenProject(projectName, active).None? ==>
              read(defaultBase).Ok? &&
              forall k :: k != "_project_base_path" ==> Get(r.value, k) == Get(read(defaultBase).value, k)
    ensures r.Ok? && ChosenProject(projectName, active).Some? ==>
              var base := JoinPath(projectsDir, ChosenProject(projectName, active).value);
              read(defaultBase).Ok? && read(base).Ok? &&
              forall k :: k != "_project_base_path" ==> Get(r.value, k) == Get(merge(read(defaultBase).value, read(base).value), k)
  {
    var chosen := ChosenProject(projectName, active);
    if chosen.None? && !ignoreProject then Err(ValueError("No project name provided"))
    else
      match read(defaultBase)
      case Err(e) => Err(e)
      case Ok(defaults) =>
        if chosen.Some? then
          var base := JoinPath(projectsDir, chosen.value);
          match read(base)
          case Err(e) => Err(e)
          case Ok(project) => Ok(SetKey(merge(defaults, project), "_project_base_path", Str(base)))
        else Ok(SetKey(defaults, "_project_base_path", Str(defaultBase)))
  }
}
