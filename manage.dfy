/** The test shortcut of the entry script: `manage.py test …` is rewritten
    into a pytest argument vector, and any other invocation falls through
    to Django's own command-line handling (`None` here). */
module Manage {
  import opened Wrappers

  const TestsDir := "pydj_auth/tests"
  const UnitDir := "pydj_auth/tests/unit"
  const E2eDir := "pydj_auth/tests/e2e"

  /** Python's slice `s[k:]`, which is empty once `k` is past the end. */
  function From(s: seq<string>, k: nat): (r: seq<string>)
    ensures |r| == if k <= |s| then |s| - k else 0
    ensures forall i :: 0 <= i < |r| ==> r[i] == s[k + i]
  {
    if k <= |s| then s[k..] else []
  }

  predicate EndsWith(s: seq<string>, t: seq<string>)
  {
    |t| <= |s| && s[|s| - |t|..] == t
  }

  /** The pytest vector for `argv`, or `None` when the script falls
      through to `main()`. */
  function PytestArgs(argv: seq<string>): (r: Option<seq<string>>)
    ensures r.Some? <==> |argv| > 1 && argv[1] == "test"
    ensures r.Some? ==> |r.value| >= 2 && r.value[0] == "pytest"
    ensures r.Some? ==> |r.value| == if |argv| == 2 then 2 else |argv| - 1
    ensures r.Some? ==> EndsWith(r.value, From(argv, 3))
  {
    if |argv| > 1 && argv[1] == "test" then
      if |argv| > 2 && argv[2] == "unit" then Some(["pytest", UnitDir] + From(argv, 3))
      else if |argv| > 2 && argv[2] == "e2e" then Some(["pytest", E2eDir] + From(argv, 3))
      else if |argv| > 2 then Some(["pytest"] + From(argv, 2))
      else Some(["pytest", TestsDir] + From(argv, 3))
    else None
  }

  /** `test unit rest…` runs the unit tests with `rest` passed through. */
  lemma UnitShortcut(prog: string, rest: seq<string>)
    ensures PytestArgs([prog, "test", "unit"] + rest) == Some(["pytest", UnitDir] + rest)
  {
  }

  /** `test e2e rest…` runs the end-to-end tests with `rest` passed through. */
  lemma E2eShortcut(prog: string, rest: seq<string>)
    ensures PytestArgs([prog, "test", "e2e"] + rest) == Some(["pytest", E2eDir] + rest)
  {
  }

  /** Any other first argument goes to pytest verbatim, followed by the
      remaining arguments in their order. */
  lemma PassThrough(prog: string, x: string, rest: seq<string>)
    requires x != "unit" && x != "e2e"
    ensures PytestArgs([prog, "test", x] + rest) == Some(["pytest", x] + rest)
  {
    assert From([prog, "test", x] + rest, 2) == [x] + rest;
    assert ["pytest"] + ([x] + rest) == ["pytest", x] + rest;
  }

  /** A bare `test` runs the whole test tree. */
  lemma BareTest(prog: string)
    ensures PytestArgs([prog, "test"]) == Some(["pytest", TestsDir])
  {
    assert ["pytest", TestsDir] + From([prog, "test"], 3) == ["pytest", TestsDir];
  }

  /** The `unit` shortcut means exactly its directory: `test unit rest`
      and `test pydj_auth/tests/unit rest` run the same pytest vector. */
  lemma UnitIsAlias(prog: string, rest: seq<string>)
    ensures PytestArgs([prog, "test", "unit"] + rest) == PytestArgs([prog, "test", UnitDir] + rest)
  {
    UnitShortcut(prog, rest);
    PassThrough(prog, UnitDir, rest);
  }

  /** Likewise `test e2e rest` and `test pydj_auth/tests/e2e rest`. */
  lemma E2eIsAlias(prog: string, rest: seq<string>)
    ensures PytestArgs([prog, "test", "e2e"] + rest) == PytestArgs([prog, "test", E2eDir] + rest)
  {
    E2eShortcut(prog, rest);
    PassThrough(prog, E2eDir, rest);
  }

  /** A bare `test` is `test pydj_auth/tests`. */
  lemma BareIsAlias(prog: string)
    ensures PytestArgs([prog, "test"]) == PytestArgs([prog, "test", TestsDir])
  {
    BareTest(prog);
    PassThrough(prog, TestsDir, []);
    assert [prog, "test", TestsDir] + [] == [prog, "test", TestsDir];
  }
}
