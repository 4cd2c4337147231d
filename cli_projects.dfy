/** The `project` commands: create, remove, rename, activate and list the
    projects kept as directories under the projects directory, together with
    the active project recorded in the configuration.

    The filesystem is abstracted to whether the projects directory exists and
    the set of entry names inside it; `Path(projects_dir, "")` is the projects
    directory itself. Interactive confirmations are boolean parameters. */
module CliProjects {
  import opened Wrappers
  import opened Python
  import opened Text

  /** A character matched by the regular expression `\w`. */
  predicate WordChar(c: char) {
    'a' <= c <= 'z' || 'A' <= c <= 'Z' || '0' <= c <= '9' || c == '_'
  }

  /** `validate_project_name`: `re.match(r"\w", name)` succeeds exactly when
      the first character is a word character. */
  predicate ValidProjectName(name: string) {
    name != [] && WordChar(name[0])
  }

  lemma {:induction false} EmptyNameInvalid()
    ensures !ValidProjectName("")
  {
  }

  /** The part of the filesystem and configuration the commands act on. */
  datatype Registry = Registry(rootExists: bool, projects: set<string>, active: Option<string>)

  /** `Path(projects_dir, name).exists()`. */
  predicate PathExists(s: Registry, name: string) {
    if name == "" then s.rootExists else name in s.projects
  }

  /** `not config.get_active_project()`: no project, or the empty name that
      deactivation leaves behind. */
  predicate NoActive(active: Option<string>) {
    active.None? || active.value == ""
  }

  /** The state the commands keep: project entries live inside an existing
      projects directory, and the active project, if any, is one of them. */
  predicate Consistent(s: Registry) {
    (s.projects != {} ==> s.rootExists) && "" !in s.projects &&
    (NoActive(s.active) || s.active.value in s.projects)
  }

  /** `activate_project(name)`: records `name` as active when its directory
      exists (the empty name deactivates); otherwise nothing changes. */
  function Activate(s: Registry, name: string): (r: Registry)
    ensures !PathExists(s, name) ==> r == s
    ensures PathExists(s, name) ==> r.active == Some(name)
    ensures r.rootExists == s.rootExists && r.projects == s.projects
    ensures Consistent(s) ==> Consistent(r)
  {
    if !PathExists(s, name) then s else s.(active := Some(name))
  }

  /** `create_project(name)`: an invalid name changes nothing; an existing
      directory needs confirmation, otherwise the command aborts; the
      directories are made, and the new project becomes active when none is. */
  function Create(s: Registry, name: string, confirmed: bool): (r: Result<Registry, Error>)
    ensures !ValidProjectName(name) ==> r == Ok(s)
    ensures r.Err? <==> ValidProjectName(name) && name in s.projects && !confirmed
    ensures r.Err? ==> r.error == Abort
    ensures r.Ok? && ValidProjectName(name) ==>
              r.value.rootExists && r.value.projects == s.projects + {name} &&
              r.value.active == (if NoActive(s.active) then Some(name) else s.active)
    ensures r.Ok? && Consistent(s) ==> Consistent(r.value)
  {
    if !ValidProjectName(name) then Ok(s)
    else if PathExists(s, name) && !confirmed then Err(Abort)
    else
      var made := Registry(true, s.projects + {name}, s.active);
      if NoActive(s.active) then Ok(Activate(made, name)) else Ok(made)
  }

  /** `remove_project(name)` as written: the guard `not project_path` never
      holds, because a path is always truthy, so the empty name reaches the
      projects directory itself and removes it whole. */
  function RemoveAsWritten(s: Registry, name: string, confirmed: bool): (r: Result<Registry, Error>)
    ensures !PathExists(s, name) ==> r == Ok(s)
    ensures r.Err? <==> PathExists(s, name) && !confirmed
    ensures r.Ok? && PathExists(s, name) && name == "" ==> !r.value.rootExists && r.value.projects == {}
  {
    if !PathExists(s, name) then Ok(s)
    else if !confirmed then Err(Abort)
    else
      var removed :=
        if name == "" then Registry(false, {}, s.active)
        else s.(projects := s.projects - {name});
      if s.active == Some(name) then Ok(removed.(active := Some(""))) else Ok(removed)
  }

  /** Removing the empty name deletes every project and leaves the active
      project pointing at a directory that is gone. */
  lemma {:induction false} RemoveEmptyNameDanglesActive()
    ensures var s := Registry(true, {"notes"}, Some("notes"));
            Consistent(s) &&
            RemoveAsWritten(s, "", true) == Ok(Registry(false, {}, Some("notes"))) &&
            !Consistent(RemoveAsWritten(s, "", true).value)
  {
  }

  /** `remove_project(name)` with the empty name refused, as the guard on
      the name evidently intends: a missing project changes nothing, removal
      needs confirmation, and removing the active project deactivates it. */
  function Remove(s: Registry, name: string, confirmed: bool): (r: Result<Registry, Error>)
    ensures name == "" || name !in s.projects ==> r == Ok(s)
    ensures r.Err? <==> name != "" && name in s.projects && !confirmed
    ensures r.Err? ==> r.error == Abort
    ensures r.Ok? && name != "" && name in s.projects ==>
              r.value.rootExists == s.rootExists && r.value.projects == s.projects - {name}
    ensures r.Ok? && name != "" && name in s.projects && s.active == Some(name) ==> r.value.active == Some("")
    ensures r.Ok? && s.active != Some(name) ==> r.value.active == s.active
    ensures r.Ok? && Consistent(s) ==> Consistent(r.value)
  {
    if name == "" || !PathExists(s, name) then Ok(s)
    else if !confirmed then Err(Abort)
    else
      var removed := s.(projects := s.projects - {name});
      if s.active == Some(name) then Ok(removed.(active := Some(""))) else Ok(removed)
  }

  /** The error the operating system gives for moving the projects
      directory into one of its own subdirectories. */
  const MoveIntoItself: Error := Raised("[Errno 22] Invalid argument")

  /** `rename_project(name, new_name)`: nothing changes when the new name is
      invalid, the project `name` is missing or `new_name` exists; otherwise
      the entry is renamed and, when it was active, the new name is active. */
  function Rename(s: Registry, name: string, newName: string): (r: Result<Registry, Error>)
    ensures !ValidProjectName(newName) || !PathExists(s, name) || PathExists(s, newName) ==> r == Ok(s)
    ensures r.Err? <==> ValidProjectName(newName) && name == "" && s.rootExists && newName !in s.projects
    ensures r.Err? ==> r.error == MoveIntoItself
    ensures ValidProjectName(newName) && name != "" && name in s.projects && newName !in s.projects ==>
              r.Ok? && r.value.rootExists == s.rootExists && r.value.projects == s.projects - {name} + {newName} &&
              r.value.active == if s.active == Some(name) then Some(newName) else s.active
    ensures r.Ok? ==> forall p :: p != name && p != newName ==> (p in r.value.projects <==> p in s.projects)
    ensures r.Ok? && Consistent(s) ==> Consistent(r.value)
  {
    if !ValidProjectName(newName) || !PathExists(s, name) || PathExists(s, newName) then Ok(s)
    else if name == "" then Err(MoveIntoItself)
    else
      var renamed := s.(projects := s.projects - {name} + {newName});
      if s.active == Some(name) then Ok(Activate(renamed, newName)) else Ok(renamed)
  }

  /** Renaming the active project keeps it active under its new name. */
  lemma {:induction false} RenameActiveProject(s: Registry, name: string, newName: string)
    requires Consistent(s) && s.active == Some(name) && name != ""
    requires ValidProjectName(newName) && newName !in s.projects
    ensures Rename(s, name, newName) == Ok(Registry(s.rootExists, s.projects - {name} + {newName}, Some(newName)))
  {
  }

  /** Renaming a project and renaming it back restores the registry. */
  lemma {:induction false} RenameRoundTrip(s: Registry, name: string, newName: string)
    requires Consistent(s) && name in s.projects && ValidProjectName(name)
    requires ValidProjectName(newName) && newName !in s.projects
    ensures Rename(s, name, newName).Ok?
    ensures Rename(Rename(s, name, newName).value, newName, name) == Ok(s)
  {
    var t := Rename(s, name, newName).value;
    assert t.projects - {newName} + {name} == s.projects;
  }

  /** The line `list` prints for one project. */
  function Mark(name: string, active: Option<string>): string {
    (if active == Some(name) then "[x] " else "[ ] ") + name
  }

  /** The entries of a directory listing that `list` shows, in order. */
  function ListedNames(listing: seq<string>): (r: seq<string>)
    ensures forall i :: 0 <= i < |r| ==> ValidProjectName(r[i])
    ensures forall x :: x in r <==> x in listing && ValidProjectName(x)
  {
    if listing == [] then []
    else
      var last := listing[|listing| - 1];
      var init := ListedNames(listing[..|listing| - 1]);
      assert listing == listing[..|listing| - 1] + [last];
      if ValidProjectName(last) then init + [last] else init
  }

  /** The lines `list` prints for a directory listing. */
  function ListLines(listing: seq<string>, active: Option<string>): (r: seq<string>)
    ensures |r| == |ListedNames(listing)|
    ensures forall i :: 0 <= i < |r| ==> r[i] == Mark(ListedNames(listing)[i], active)
  {
    var names := ListedNames(listing);
    seq(|names|, i requires 0 <= i < |names| => Mark(names[i], active))
  }

  /** Exactly the active project is marked `[x]`. */
  lemma {:induction false} ListMarksActive(listing: seq<string>, active: Option<string>, i: nat)
    requires i < |ListLines(listing, active)|
    ensures StartsWith(ListLines(listing, active)[i], "[x] ") <==> active == Some(ListedNames(listing)[i])
  {
    var name := ListedNames(listing)[i];
    var line := ListLines(listing, active)[i];
    if active == Some(name) {
      assert line == "[x] " + name;
      assert line[..4] == "[x] ";
    } else {
      assert line == "[ ] " + name;
      assert line[..4] != "[x] " by { assert line[1] == ' '; }
    }
  }

  /** With a listing that names each entry once, at most one line is marked. */
  lemma {:induction false} ListedNamesDistinct(listing: seq<string>)
    requires forall i, j :: 0 <= i < j < |listing| ==> listing[i] != listing[j]
    ensures var r := ListedNames(listing); forall i, j :: 0 <= i < j < |r| ==> r[i] != r[j]
  {
    if listing != [] {
      var last := listing[|listing| - 1];
      var front := listing[..|listing| - 1];
      ListedNamesDistinct(front);
      assert last !in front;
      assert last !in ListedNames(front);
    }
  }

  /** With a listing that names each entry once, no two lines are marked. */
  lemma {:induction false} AtMostOneMarked(listing: seq<string>, active: Option<string>, i: nat, j: nat)
    requires forall a, b :: 0 <= a < b < |listing| ==> listing[a] != listing[b]
    requires i < j < |ListLines(listing, active)|
    ensures !(StartsWith(ListLines(listing, active)[i], "[x] ") && StartsWith(ListLines(listing, active)[j], "[x] "))
  {
    ListMarksActive(listing, active, i);
    ListMarksActive(listing, active, j);
    ListedNamesDistinct(listing);
  }

  /** The projects directory and the active project, changed by the
      `project` commands. */
  class ProjectRegistry {
    var rootExists: bool
    var projects: set<string>
    var active: Option<string>

    function State(): Registry
      reads this
    {
      Registry(rootExists, projects, active)
    }

    constructor(rootExists: bool, projects: set<string>, active: Option<string>)
      ensures State() == Registry(rootExists, projects, active)
    {
      this.rootExists := rootExists;
      this.projects := projects;
      this.active := active;
    }

    /** The `activate` command. */
    method ActivateProject(name: string)
      modifies this`active
      ensures State() == Activate(old(State()), name)
    {
      var found := if name == "" then rootExists else name in projects;
      if !found {
        return;
      }
      active := Some(name);
    }

    /** The `create` command. */
    method CreateProject(name: string, confirmed: bool) returns (r: Outcome<Error>)
      modifies this
      ensures Create(old(State()), name, confirmed).Err? ==>
                r == Fail(Create(old(State()), name, confirmed).error) && State() == old(State())
      ensures Create(old(State()), name, confirmed).Ok? ==>
                r == Pass && State() == Create(old(State()), name, confirmed).value
    {
      if !ValidProjectName(name) {
        return Pass;
      }
      if name in projects && !confirmed {
        return Fail(Abort);
      }
      rootExists := true;
      projects := projects + {name};
      if active.None? || active.value == "" {
        ActivateProject(name);
      }
      return Pass;
    }

    /** The `remove` command, refusing the empty name. */
    method RemoveProject(name: string, confirmed: bool) returns (r: Outcome<Error>)
      modifies this
      ensures Remove(old(State()), name, confirmed).Err? ==>
                r == Fail(Remove(old(State()), name, confirmed).error) && State() == old(State())
      ensures Remove(old(State()), name, confirmed).Ok? ==>
                r == Pass && State() == Remove(old(State()), name, confirmed).value
    {
      if name == "" || name !in projects {
        return Pass;
      }
      if !confirmed {
        return Fail(Abort);
      }
      projects := projects - {name};
      if active == Some(name) {
        active := Some("");
      }
      return Pass;
    }

    /** The `rename` command. */
    method RenameProject(name: string, newName: string) returns (r: Outcome<Error>)
      modifies this
      ensures Rename(old(State()), name, newName).Err? ==>
                r == Fail(Rename(old(State()), name, newName).error) && State() == old(State())
      ensures Rename(old(State()), name, newName).Ok? ==>
                r == Pass && State() == Rename(old(State()), name, newName).value
    {
      if !ValidProjectName(newName) {
        return Pass;
      }
      var sourceExists := if name == "" then rootExists else name in projects;
      if !sourceExists || newName in projects {
        return Pass;
      }
      if name == "" {
        return Fail(MoveIntoItself);
      }
      projects := projects - {name} + {newName};
      if active == Some(name) {
        ActivateProject(newName);
      }
      return Pass;
    }

    /** The `list` command: the lines printed for the entries `listing` of
        the projects directory, in the order the directory lists them. */
    method ListProjects(listing: seq<string>) returns (lines: seq<string>)
      requires forall x :: x in listing <==> x in projects
      ensures !rootExists ==> lines == []
      ensures rootExists ==> lines == ListLines(listing, active)
    {
      if !rootExists {
        return [];
      }
      lines := [];
      var i := 0;
      while i < |listing|
        invariant 0 <= i <= |listing|
        invariant lines == ListLines(listing[..i], active)
      {
        var name := listing[i];
        assert listing[..i + 1][..i] == listing[..i];
        if ValidProjectName(name) {
          lines := lines + [Mark(name, active)];
        }
        i := i + 1;
      }
      assert listing[..i] == listing;
    }
  }
}
