/** The command-line helpers: the case-insensitive filter `grep_match`, the
    progress-bar holder that document loading and embedding report to, and
    the guard that every project command runs first. */
module CliUtils {
  import opened Wrappers
  import opened Python
  import opened Text
  import Configuration

  // ---------------------------------------------------------------------
  // grep_match
  // ---------------------------------------------------------------------

  /** Whether `pattern`, ignoring case, occurs in `str(arg)`. */
  predicate ArgMatches(pattern: string, arg: Value) {
    Contains(Lower(StrOf(arg)), Lower(pattern))
  }

  /** What `grep_match(pattern, *args)` answers: everything matches an absent
      or empty pattern; otherwise some argument must contain it. */
  predicate Matches(pattern: Option<string>, args: seq<Value>) {
    pattern.None? || pattern.value == [] || exists i :: 0 <= i < |args| && ArgMatches(pattern.value, args[i])
  }

  /** `grep_match`: scans the arguments in order and stops at the first match. */
  method GrepMatch(pattern: Option<string>, args: seq<Value>) returns (r: bool)
    ensures r <==> Matches(pattern, args)
    ensures pattern.Some? && pattern.value != [] && args == [] ==> !r
  {
    if pattern.None? || pattern.value == [] {
      return true;
    }
    var p := Lower(pattern.value);
    var i := 0;
    while i < |args|
      invariant 0 <= i <= |args|
      invariant forall j :: 0 <= j < i ==> !ArgMatches(pattern.value, args[j])
    {
      if Contains(Lower(StrOf(args[i])), p) {
        return true;
      }
      i := i + 1;
    }
    return false;
  }

  lemma {:induction false} LowerCharIdempotent(c: char)
    ensures LowerChar(LowerChar(c)) == LowerChar(c)
  {
  }

  lemma {:induction false} LowerIdempotent(s: string)
    ensures Lower(Lower(s)) == Lower(s)
  {
    var l := Lower(s);
    assert |Lower(l)| == |l|;
    forall k | 0 <= k < |s| ensures Lower(l)[k] == l[k] {
      LowerCharIdempotent(s[k]);
    }
  }

  /** Lower-casing commutes with taking a slice. */
  lemma {:induction false} LowerSlice(s: string, i: nat, j: nat)
    requires i <= j <= |s|
    ensures Lower(s[i..j]) == Lower(s)[i..j]
  {
    var t, u := s[i..j], Lower(s);
    forall k | 0 <= k < j - i ensures Lower(t)[k] == u[i + k] {
      assert t[k] == s[i + k];
    }
  }

  /** The case of the pattern does not matter. */
  lemma {:induction false} MatchesIgnoresPatternCase(pattern: string, args: seq<Value>)
    ensures Matches(Some(pattern), args) <==> Matches(Some(Lower(pattern)), args)
  {
    LowerIdempotent(pattern);
    assert forall a :: ArgMatches(pattern, a) <==> ArgMatches(Lower(pattern), a);
  }

  /** A pattern written verbatim inside some argument always matches. */
  lemma {:induction false} VerbatimOccurrenceMatches(pattern: string, args: seq<Value>, i: nat)
    requires i < |args| && Contains(StrOf(args[i]), pattern)
    ensures Matches(Some(pattern), args)
  {
    var s := StrOf(args[i]);
    var k :| 0 <= k <= |s| && OccursAt(s, pattern, k);
    LowerSlice(s, k, k + |pattern|);
    assert OccursAt(Lower(s), Lower(pattern), k);
    assert ArgMatches(pattern, args[i]);
  }

  /** Matching one of two argument lists is matching their concatenation. */
  lemma {:induction false} MatchesAppend(pattern: string, a: seq<Value>, b: seq<Value>)
    requires pattern != []
    ensures Matches(Some(pattern), a + b) <==> Matches(Some(pattern), a) || Matches(Some(pattern), b)
  {
    if Matches(Some(pattern), a + b) {
      var i :| 0 <= i < |a + b| && ArgMatches(pattern, (a + b)[i]);
      if i >= |a| { assert (a + b)[i] == b[i - |a|]; }
    }
    if Matches(Some(pattern), b) {
      var i :| 0 <= i < |b| && ArgMatches(pattern, b[i]);
      assert (a + b)[|a| + i] == b[i];
    }
    if Matches(Some(pattern), a) {
      var i :| 0 <= i < |a| && ArgMatches(pattern, a[i]);
      assert (a + b)[i] == a[i];
    }
  }

  // ---------------------------------------------------------------------
  // TqdmHolder
  // ---------------------------------------------------------------------

  /** One progress bar: the keyword arguments it was created with, the
      progress it has counted, and whether it is still open. */
  datatype Bar = Bar(options: seq<Entry>, progress: int, open: bool)

  /** The keyword arguments `start(*args, **kwargs)` creates its bar with:
      the holder's own keyword arguments overridden by the call's, and
      `total` set to `int(args[0])` when there is a positional argument. */
  function StartOptions(initKwargs: seq<Entry>, args: seq<Value>, kwargs: seq<Entry>): (r: Result<seq<Entry>, Error>)
    requires UniqueKeys(kwargs)
    ensures args != [] && ToInt(args[0]).Err? <==> r.Err?
    ensures r.Err? ==> r.error == ToInt(args[0]).error
    ensures r.Ok? && args != [] ==> Get(r.value, "total") == Some(Int(ToInt(args[0]).value))
    ensures r.Ok? && args == [] ==> forall k :: Get(r.value, k) == if HasKey(kwargs, k) then Get(kwargs, k) else Get(initKwargs, k)
    ensures r.Ok? ==> forall k :: k != "total" ==> Get(r.value, k) == if HasKey(kwargs, k) then Get(kwargs, k) else Get(initKwargs, k)
    ensures r.Ok? && UniqueKeys(initKwargs) ==> UniqueKeys(r.value)
  {
    if args == [] then Ok(Merge(initKwargs, kwargs))
    else
      match ToInt(args[0])
      case Err(e) => Err(e)
      case Ok(total) =>
        var call := SetKey(kwargs, "total", Int(total));
        Ok(Merge(initKwargs, call))
  }

  /** The bar after `close()`: closing an already closed bar does nothing. */
  function Closed(b: Bar): (r: Bar)
    ensures !r.open && r.options == b.options && r.progress == b.progress
  {
    b.(open := false)
  }

  /** An optional progress bar, created on `start`, advanced on `update`,
      and dropped on `close`. */
  class TqdmHolder {
    /** The keyword arguments given when the holder was made. */
    const initKwargs: seq<Entry>
    /** The current bar, if any. */
    var bar: Option<Bar>
    /** Every bar this holder has closed, in order. */
    var closedBars: seq<Bar>
    /** The messages written above the bar. */
    var written: seq<string>

    /** Every bar the holder has closed is closed. */
    predicate Valid()
      reads this
    {
      forall i :: 0 <= i < |closedBars| ==> !closedBars[i].open
    }

    constructor(initKwargs: seq<Entry>)
      ensures Valid()
      ensures this.initKwargs == initKwargs
      ensures bar == None && closedBars == [] && written == []
    {
      this.initKwargs := initKwargs;
      bar := None;
      closedBars := [];
      written := [];
    }

    /** Closes the current bar in place, keeping it as the current bar. */
    method CloseCurrent()
      requires Valid()
      modifies this`bar, this`closedBars
      ensures Valid()
      ensures old(bar).None? ==> bar == None && closedBars == old(closedBars)
      ensures old(bar).Some? ==> bar == Some(Closed(old(bar).value))
      ensures old(bar).Some? && old(bar).value.open ==> closedBars == old(closedBars) + [Closed(old(bar).value)]
      ensures old(bar).Some? && !old(bar).value.open ==> closedBars == old(closedBars)
    {
      if bar.Some? {
        var b := bar.value;
        if b.open {
          closedBars := closedBars + [Closed(b)];
        }
        bar := Some(Closed(b));
      }
    }

    /** `start(*args, **kwargs)`: closes the current bar, then opens a new one.
        When `int(args[0])` raises, the closed bar stays the current one. */
    method Start(args: seq<Value>, kwargs: seq<Entry>) returns (r: Outcome<Error>)
      requires Valid() && UniqueKeys(kwargs)
      modifies this`bar, this`closedBars
      ensures Valid()
      ensures old(bar).Some? && old(bar).value.open ==> closedBars == old(closedBars) + [Closed(old(bar).value)]
      ensures old(bar).None? || !old(bar).value.open ==> closedBars == old(closedBars)
      ensures StartOptions(initKwargs, args, kwargs).Err? ==>
                r == Fail(StartOptions(initKwargs, args, kwargs).error) &&
                bar == (if old(bar).Some? then Some(Closed(old(bar).value)) else None)
      ensures StartOptions(initKwargs, args, kwargs).Ok? ==>
                r == Pass && bar == Some(Bar(StartOptions(initKwargs, args, kwargs).value, 0, true))
    {
      CloseCurrent();
      var options := StartOptions(initKwargs, args, kwargs);
      if options.Err? {
        return Fail(options.error);
      }
      bar := Some(Bar(options.value, 0, true));
      return Pass;
    }

    /** `update(n)`: advances an open bar by `n`; without a bar, nothing. */
    method Update(n: int)
      modifies this`bar
      ensures old(bar).None? ==> bar == None
      ensures old(bar).Some? && !old(bar).value.open ==> bar == old(bar)
      ensures old(bar).Some? && old(bar).value.open ==>
                bar == Some(old(bar).value.(progress := old(bar).value.progress + n))
    {
      if bar.Some? && bar.value.open {
        bar := Some(bar.value.(progress := bar.value.progress + n));
      }
    }

    /** `write(message)`: prints above the bar; without a bar, nothing. */
    method Write(message: string)
      modifies this`written
      ensures bar.None? ==> written == old(written)
      ensures bar.Some? ==> written == old(written) + [message]
    {
      if bar.Some? {
        written := written + [message];
      }
    }

    /** `close()`: closes and drops the current bar, so a second `close`
        finds nothing to do. */
    method Close()
      requires Valid()
      modifies this`bar, this`closedBars
      ensures Valid()
      ensures bar == None
      ensures old(bar).None? ==> closedBars == old(closedBars)
      ensures old(bar).Some? && old(bar).value.open ==> closedBars == old(closedBars) + [Closed(old(bar).value)]
      ensures old(bar).Some? && !old(bar).value.open ==> closedBars == old(closedBars)
    {
      if bar.None? {
        return;
      }
      CloseCurrent();
      bar := None;
    }
  }

  // ---------------------------------------------------------------------
  // validate_confirm_active_project
  // ---------------------------------------------------------------------

  const BoldProject: string := "\U{1b}[1m\U{1b}[36m"
  const EndColor: string := "\U{1b}[0m"

  const NoActiveProjectMessage: string :=
    "No active project set. Please set an active project first. See chatnerd project --help. "

  function UsingProjectMessage(name: string): string {
    "Using project " + BoldProject + name + EndColor + "..."
  }

  function MissingProjectMessage(name: string): string {
    "The active project " + BoldProject + name + EndColor + " does not exist. Please create it first."
  }

  function ConfirmPrompt(name: string): string {
    "The active project is " + BoldProject + name + EndColor + "... do you want to continue?"
  }

  /** What a guarded command sees: whether it may go on, and the lines echoed
      and the question asked on the way. */
  datatype Guard = Guard(outcome: Outcome<Error>, echoed: seq<string>, asked: seq<string>)

  /** `validate_confirm_active_project(skip_confirmation)` together with
      `prompt_active_project`. The base path of the active project exists
      when `pathExists` says so, and `confirmed` is the user's answer. */
  function ValidateConfirmActiveProject(
    active: Option<string>, skipConfirmation: bool,
    projectsDir: string, pathExists: string -> bool, confirmed: bool): (r: Guard)
    ensures active.None? || active.value == [] ==>
              r == Guard(Fail(Abort), [NoActiveProjectMessage], [])
    ensures r.outcome.Pass? ==> active.Some? && active.value != []
    ensures r.outcome.Fail? ==> r.outcome.error == Abort
    ensures active.Some? && active.value != [] && skipConfirmation ==>
              r == Guard(Pass, [UsingProjectMessage(active.value)], [])
    ensures active.Some? && active.value != [] && !skipConfirmation ==>
              (r.outcome.Pass? <==> pathExists(Configuration.JoinPath(projectsDir, active.value)) && confirmed)
    ensures active.Some? && active.value != [] && !skipConfirmation ==>
              (r.asked != [] <==> pathExists(Configuration.JoinPath(projectsDir, active.value)))
  {
    if active.None? || active.value == [] then
      Guard(Fail(Abort), [NoActiveProjectMessage], [])
    else if skipConfirmation then
      Guard(Pass, [UsingProjectMessage(active.value)], [])
    else
      var basePath := Configuration.ProjectBasePath(projectsDir, active, None);
      assert basePath == Ok(Configuration.JoinPath(projectsDir, active.value));
      if !pathExists(basePath.value) then
        Guard(Fail(Abort), [MissingProjectMessage(active.value)], [])
      else if !confirmed then
        Guard(Fail(Abort), [], [ConfirmPrompt(active.value)])
      else
        Guard(Pass, [], [ConfirmPrompt(active.value)])
  }
}
