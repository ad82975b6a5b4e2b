/**
 * kew's command-line option stripping. handleOptions scans `argv` once for
 * each option group, records the option in the settings, and removes the
 * last argument that matched with removeArgElement, which shifts the rest of
 * the array down by one in place. Matching is a case-insensitive substring
 * test, so an argument matches a group when it contains one of the group's
 * spellings anywhere, in any letter case.
 */
module Args {

  /** `tolower` in the C locale. */
  function Lower(c: char): char
  {
    if 'A' <= c <= 'Z' then (c as int + 32) as char else c
  }

  function LowerString(s: string): (r: string)
    ensures |r| == |s| && forall i :: 0 <= i < |s| ==> r[i] == Lower(s[i])
  {
    seq(|s|, i requires 0 <= i < |s| => Lower(s[i]))
  }

  /** `needle` occurs in `haystack` at index k, ignoring letter case. */
  predicate OccursAt(haystack: string, needle: string, k: int)
  {
    0 <= k <= |haystack| - |needle| && LowerString(haystack)[k..k + |needle|] == LowerString(needle)
  }

  /** `c_strcasestr(haystack, needle) != NULL`: `needle` occurs in `haystack`, ignoring letter case. */
  predicate ContainsIgnoreCase(haystack: string, needle: string)
  {
    exists k :: 0 <= k <= |haystack| && OccursAt(haystack, needle, k)
  }

  /** The spellings handleOptions looks for, one group per setting. */
  const NoUi: seq<string> := ["--noui"]
  const NoCover: seq<string> := ["--nocover"]
  const QuitOnStop: seq<string> := ["--quitonstop", "-q"]
  const Exact: seq<string> := ["--exact", "-e"]

  /** An argument matches a group when it contains one of the group's spellings. */
  predicate Matches(arg: string, group: seq<string>)
  {
    exists j :: 0 <= j < |group| && ContainsIgnoreCase(arg, group[j])
  }

  /** Some argument matches the group. */
  predicate Mentions(args: seq<string>, group: seq<string>)
  {
    exists j :: 0 <= j < |args| && Matches(args[j], group)
  }

  /** The index handleOptions' scan leaves in `idx`: the last matching argument, or -1. */
  function LastMatch(args: seq<string>, group: seq<string>): (r: int)
    ensures -1 <= r < |args|
    ensures r >= 0 ==> Matches(args[r], group) && forall j :: r < j < |args| ==> !Matches(args[j], group)
    ensures r == -1 <==> !Mentions(args, group)
  {
    if args == [] then -1
    else if Matches(args[|args| - 1], group) then |args| - 1
    else LastMatch(args[..|args| - 1], group)
  }

  /** The argument list without its i-th entry. */
  function RemoveAt(s: seq<string>, i: int): (r: seq<string>)
    requires 0 <= i < |s|
    ensures |r| == |s| - 1
    ensures forall j :: 0 <= j < i ==> r[j] == s[j]
    ensures forall j :: i <= j < |r| ==> r[j] == s[j + 1]
  {
    s[..i] + s[i + 1..]
  }

  /** One option group stripped: the last matching argument is removed, if there is one. */
  function Strip(args: seq<string>, group: seq<string>): (r: seq<string>)
    ensures Mentions(args, group) ==> |r| == |args| - 1
    ensures !Mentions(args, group) ==> r == args
  {
    var i := LastMatch(args, group);
    if i >= 0 then RemoveAt(args, i) else args
  }

  /** The argument lists after each of handleOptions' four passes, starting with `args`. */
  function Passes(args: seq<string>): (p: seq<seq<string>>)
    ensures |p| == 5 && p[0] == args
    ensures |args| - 4 <= |p[4]| <= |args|
  {
    var a1 := Strip(args, NoUi);
    var a2 := Strip(a1, NoCover);
    var a3 := Strip(a2, QuitOnStop);
    [args, a1, a2, a3, Strip(a3, Exact)]
  }

  /** How many arguments match the group. */
  function CountMatches(args: seq<string>, group: seq<string>): nat
  {
    if args == [] then 0
    else CountMatches(args[..|args| - 1], group) + (if Matches(args[|args| - 1], group) then 1 else 0)
  }

  /**
   * The settings handleOptions writes: three fields of the UI settings and
   * the global `exactSearch`.
   */
  class Settings {
    var uiEnabled: bool
    var coverEnabled: bool
    var quitAfterStopping: bool
    var exactSearch: bool

    constructor (uiEnabled: bool, coverEnabled: bool, quitAfterStopping: bool, exactSearch: bool)
      ensures this.uiEnabled == uiEnabled && this.coverEnabled == coverEnabled
      ensures this.quitAfterStopping == quitAfterStopping && this.exactSearch == exactSearch
    {
      this.uiEnabled := uiEnabled;
      this.coverEnabled := coverEnabled;
      this.quitAfterStopping := quitAfterStopping;
      this.exactSearch := exactSearch;
    }

    /** The writes of handleOptions, for the options it found. */
    method Record(noUi: bool, noCover: bool, quitOnStop: bool, exact: bool)
      modifies this
      ensures uiEnabled == (old(uiEnabled) && !noUi) && coverEnabled == (old(coverEnabled) && !noCover)
      ensures quitAfterStopping == (old(quitAfterStopping) || quitOnStop) && exactSearch == (old(exactSearch) || exact)
    {
      if noUi {
        uiEnabled := false;
      }
      if noCover {
        coverEnabled := false;
      }
      if quitOnStop {
        quitAfterStopping := true;
      }
      if exact {
        exactSearch := true;
      }
    }
  }

  /**
   * removeArgElement: an index outside `[0, argc)` changes nothing; otherwise
   * the entries after it move down one place and the count drops by one.
   * The last old entry stays where it was, past the new count.
   */
  method RemoveArgElement(argv: array<string>, index: int, argc: int) returns (newArgc: int)
    requires 0 <= argc <= argv.Length
    modifies argv
    ensures !(0 <= index < argc) ==> newArgc == argc && argv[..] == old(argv[..])
    ensures 0 <= index < argc ==> newArgc == argc - 1 && argv[..newArgc] == RemoveAt(old(argv[..argc]), index)
    ensures argv[newArgc..] == old(argv[newArgc..])
  {
    if index < 0 || index >= argc {
      return argc;
    }
    var i := index;
    while i < argc - 1
      invariant index <= i <= argc - 1
      invariant forall j :: 0 <= j < index ==> argv[j] == old(argv[j])
      invariant forall j :: index <= j < i ==> argv[j] == old(argv[j + 1])
      invariant forall j :: i <= j < argv.Length ==> argv[j] == old(argv[j])
    {
      argv[i] := argv[i + 1];
      i := i + 1;
    }
    newArgc := argc - 1;
  }

  /** The scan loop of one of handleOptions' passes: `idx` ends at the last matching argument, or -1. */
  method FindLastMatch(argv: array<string>, argc: int, group: seq<string>) returns (idx: int)
    requires 0 <= argc <= argv.Length
    ensures idx == LastMatch(argv[..argc], group)
  {
    idx := -1;
    for i := 0 to argc
      invariant idx == LastMatch(argv[..i], group)
    {
      assert argv[..i + 1][..i] == argv[..i];
      if Matches(argv[i], group) {
        idx := i;
      }
    }
  }

  /**
   * One of handleOptions' passes: find the last argument matching the group,
   * then remove it. `found` tells whether there was one.
   */
  method StripOption(argv: array<string>, argc: int, group: seq<string>) returns (newArgc: int, found: bool)
    requires 0 <= argc <= argv.Length
    modifies argv
    ensures found == Mentions(old(argv[..argc]), group)
    ensures 0 <= newArgc <= argc && argv[..newArgc] == Strip(old(argv[..argc]), group)
    ensures argv[newArgc..] == old(argv[newArgc..])
  {
    var idx := FindLastMatch(argv, argc, group);
    found := idx >= 0;
    newArgc := RemoveArgElement(argv, idx, argc);
  }

  /**
   * The four passes of handleOptions over argv, in order, for any four groups;
   * each sees the list the previous one left and reports whether its group was there.
   */
  method StripAll(argv: array<string>, argc: int, g0: seq<string>, g1: seq<string>, g2: seq<string>, g3: seq<string>)
    returns (newArgc: int, found0: bool, found1: bool, found2: bool, found3: bool)
    requires 0 <= argc <= argv.Length
    modifies argv
    ensures var a0 := old(argv[..argc]); var a1 := Strip(a0, g0); var a2 := Strip(a1, g1); var a3 := Strip(a2, g2);
      && 0 <= newArgc <= argc && argv[..newArgc] == Strip(a3, g3)
      && found0 == Mentions(a0, g0) && found1 == Mentions(a1, g1)
      && found2 == Mentions(a2, g2) && found3 == Mentions(a3, g3)
  {
    newArgc, found0 := StripOption(argv, argc, g0);
    newArgc, found1 := StripOption(argv, newArgc, g1);
    newArgc, found2 := StripOption(argv, newArgc, g2);
    newArgc, found3 := StripOption(argv, newArgc, g3);
  }

  /**
   * handleOptions: `--noui` turns the UI off, `--nocover` the cover art,
   * `--quitonstop` or `-q` makes playback quit at the end of the list, and
   * `--exact` or `-e` asks for exact search; each pass sees the list the
   * previous one left, and removes one argument for its option.
   */
  method HandleOptions(argv: array<string>, argc: int, settings: Settings) returns (newArgc: int)
    requires 0 <= argc <= argv.Length
    modifies argv, settings
    ensures var p := Passes(old(argv[..argc]));
      && 0 <= newArgc <= argc && argv[..newArgc] == p[4]
      && settings.uiEnabled == (old(settings.uiEnabled) && !Mentions(p[0], NoUi))
      && settings.coverEnabled == (old(settings.coverEnabled) && !Mentions(p[1], NoCover))
      && settings.quitAfterStopping == (old(settings.quitAfterStopping) || Mentions(p[2], QuitOnStop))
      && settings.exactSearch == (old(settings.exactSearch) || Mentions(p[3], Exact))
  {
    // The passes read only argv, so the settings are written once all four are done.
    var noUi, noCover, quitOnStop, exact;
    newArgc, noUi, noCover, quitOnStop, exact := StripAll(argv, argc, NoUi, NoCover, QuitOnStop, Exact);
    settings.Record(noUi, noCover, quitOnStop, exact);
  }

  // ---------------------------------------------------------------- lemmas

  /** A list is mentioned exactly when some argument in it is counted. */
  lemma {:induction false} CountMatchesPositive(args: seq<string>, group: seq<string>)
    ensures CountMatches(args, group) > 0 <==> Mentions(args, group)
  {
    if args != [] {
      var init := args[..|args| - 1];
      CountMatchesPositive(init, group);
      if Mentions(init, group) {
        var j :| 0 <= j < |init| && Matches(init[j], group);
        assert args[j] == init[j];
      }
      if Mentions(args, group) && !Matches(args[|args| - 1], group) {
        var j :| 0 <= j < |args| && Matches(args[j], group);
        assert init[j] == args[j];
      }
    }
  }

  /** Removing the i-th argument removes its match, if any, from the count. */
  lemma {:induction false} CountRemoveAt(s: seq<string>, i: int, group: seq<string>)
    requires 0 <= i < |s|
    ensures CountMatches(RemoveAt(s, i), group) + (if Matches(s[i], group) then 1 else 0) == CountMatches(s, group)
    decreases |s|
  {
    var r := RemoveAt(s, i);
    if i < |s| - 1 {
      var init := s[..|s| - 1];
      assert r[..|r| - 1] == RemoveAt(init, i);
      assert r[|r| - 1] == s[|s| - 1];
      CountRemoveAt(init, i, group);
    } else {
      assert r == s[..|s| - 1];
    }
  }

  /** One pass removes exactly one matching argument when there is one, and no other. */
  lemma StripRemovesOneMatch(args: seq<string>, group: seq<string>)
    ensures var n := CountMatches(args, group);
      CountMatches(Strip(args, group), group) == if n > 0 then n - 1 else 0
  {
    CountMatchesPositive(args, group);
    var i := LastMatch(args, group);
    if i >= 0 {
      CountRemoveAt(args, i, group);
    }
  }

  /** An option given once is gone after its pass; given twice, one copy stays behind. */
  lemma SoleOptionRemoved(args: seq<string>, group: seq<string>)
    ensures CountMatches(args, group) == 1 ==> !Mentions(Strip(args, group), group)
    ensures CountMatches(args, group) >= 2 ==> Mentions(Strip(args, group), group)
  {
    StripRemovesOneMatch(args, group);
    CountMatchesPositive(Strip(args, group), group);
  }

  /** A pass keeps the other arguments, in their order, and drops only the one it removes. */
  lemma StripKeepsOthers(args: seq<string>, group: seq<string>)
    ensures var i := LastMatch(args, group);
      && (i == -1 ==> Strip(args, group) == args)
      && (i >= 0 ==> Strip(args, group) == args[..i] + args[i + 1..])
      && (i >= 0 ==> multiset(Strip(args, group)) + multiset{args[i]} == multiset(args))
  {
    var i := LastMatch(args, group);
    if i >= 0 {
      assert args == args[..i] + [args[i]] + args[i + 1..];
    }
  }

  /** The letter case of an option does not matter. */
  lemma UpperCaseOptionMatches()
    ensures Matches("--NoUI", NoUi)
  {
    assert LowerString("--NoUI") == "--noui" == LowerString(NoUi[0]);
    assert OccursAt("--NoUI", NoUi[0], 0);
    assert ContainsIgnoreCase("--NoUI", NoUi[0]);
  }

  /**
   * The scans start at `argv[0]`, the program's own name, and match anywhere
   * inside an argument: a program called `x-e` counts as `-e`.
   */
  lemma ProgramNameIsScanned()
    ensures Strip(["x-e", "a"], Exact) == ["a"]
  {
    assert LowerString("x-e")[1..3] == "-e" == LowerString(Exact[1]);
    assert OccursAt("x-e", Exact[1], 1);
    assert ContainsIgnoreCase("x-e", Exact[1]);
    assert !Matches("a", Exact);
  }
}
