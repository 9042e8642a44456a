/**
 * Scenario directory computation (gridpath/common_functions.py) over a
 * model of POSIX `os.path.join`.
 */
module CommonFunctions {
  import opened Wrappers
  import PyValues

  predicate IsAbsolute(p: string) {
    |p| > 0 && p[0] == '/'
  }

  /**
   * POSIX `os.path.join(a, b)`: an absolute `b` replaces `a`; otherwise `b`
   * is appended, with a '/' in between unless `a` is empty or already ends
   * with one.
   */
  function PathJoin(a: string, b: string): (r: string)
    ensures IsAbsolute(b) ==> r == b
    ensures !IsAbsolute(b) ==> r == a + Separator(a) + b
  {
    if IsAbsolute(b) then b
    else a + Separator(a) + b
  }

  /** What `os.path.join` puts between a base and a relative component. */
  function Separator(a: string): (sep: string)
    ensures sep == "" <==> a == "" || a[|a| - 1] == '/'
    ensures sep == "" || sep == "/"
  {
    if a == "" || a[|a| - 1] == '/' then "" else "/"
  }

  /** The last path component: the text after the last '/'. */
  function Basename(p: string): (r: string)
    ensures '/' !in r
    ensures |r| <= |p|
    decreases |p|
  {
    if p == [] || p[|p| - 1] == '/' then []
    else Basename(p[..|p| - 1]) + [p[|p| - 1]]
  }

  /** A name without '/' is the last component of anything it is joined onto. */
  lemma {:induction false} BasenameOfJoin(a: string, b: string)
    requires b != "" && '/' !in b
    ensures Basename(PathJoin(a, b)) == b
  {
    assert b[0] in b;
    var pre := a + Separator(a);
    assert PathJoin(a, b) == pre + b;
    assert pre == "" || pre[|pre| - 1] == '/' by {
      if Separator(a) == "" {
        assert pre == a;
      } else {
        assert pre[|pre| - 1] == '/';
      }
    }
    BasenameAfterSeparator(pre, b);
  }

  lemma {:induction false} BasenameAfterSeparator(pre: string, b: string)
    requires pre == "" || pre[|pre| - 1] == '/'
    requires '/' !in b
    ensures Basename(pre + b) == b
    decreases |b|
  {
    if b == [] {
      assert pre + b == pre;
    } else {
      var last := b[|b| - 1];
      var front := b[..|b| - 1];
      assert b == front + [last];
      assert last in b;
      BasenameAfterSeparator(pre, front);
      BasenameStep(pre + front, last);
      assert pre + b == (pre + front) + [last];
    }
  }

  lemma BasenameStep(p: string, last: char)
    requires last != '/'
    ensures Basename(p + [last]) == Basename(p) + [last]
  {
    var q := p + [last];
    assert q[..|q| - 1] == p;
  }

  /** The base directory used when no scenario location is given. */
  function DefaultScenariosDirectory(cwd: string): string {
    PathJoin(PathJoin(cwd, ".."), "scenarios")
  }

  /**
   * `determine_scenario_directory`: `cwd` stands for `os.getcwd()`, and a
   * scenario name of any type is converted with `str` before joining.
   */
  function DetermineScenarioDirectory(location: Option<string>, cwd: string, scenarioName: PyValues.PyValue): (r: string)
    ensures location.None? ==> r == PathJoin(DefaultScenariosDirectory(cwd), PyValues.Str(scenarioName))
    ensures location.Some? ==> r == PathJoin(location.value, PyValues.Str(scenarioName))
  {
    var mainDirectory := if location.None? then DefaultScenariosDirectory(cwd) else location.value;
    PathJoin(mainDirectory, PyValues.Str(scenarioName))
  }

  /** With no location, the directory sits in "../scenarios" relative to the working directory. */
  lemma DefaultLocationIsSiblingScenarios(cwd: string, scenarioName: PyValues.PyValue)
    requires cwd != "" && cwd[|cwd| - 1] != '/'
    requires PyValues.Str(scenarioName) != "" && !IsAbsolute(PyValues.Str(scenarioName))
    ensures DetermineScenarioDirectory(None, cwd, scenarioName)
         == cwd + "/../scenarios/" + PyValues.Str(scenarioName)
  {
    var up := PathJoin(cwd, "..");
    assert up == cwd + "/..";
    assert up[|up| - 1] == '.';
    var scenarios := PathJoin(up, "scenarios");
    assert scenarios == cwd + "/../scenarios";
    assert scenarios[|scenarios| - 1] == 's';
  }

  /** A given location makes the result independent of the working directory. */
  lemma GivenLocationIgnoresWorkingDirectory(location: string, cwd1: string, cwd2: string, scenarioName: PyValues.PyValue)
    ensures DetermineScenarioDirectory(Some(location), cwd1, scenarioName)
         == DetermineScenarioDirectory(Some(location), cwd2, scenarioName)
  {
  }

  /** A non-empty relative name without '/' is the last component of the result. */
  lemma ScenarioNameIsLastComponent(location: Option<string>, cwd: string, scenarioName: PyValues.PyValue)
    requires PyValues.Str(scenarioName) != "" && '/' !in PyValues.Str(scenarioName)
    ensures Basename(DetermineScenarioDirectory(location, cwd, scenarioName)) == PyValues.Str(scenarioName)
  {
    var base := if location.None? then DefaultScenariosDirectory(cwd) else location.value;
    BasenameOfJoin(base, PyValues.Str(scenarioName));
  }

  /** An integer scenario name ends up as its decimal text, e.g. 7 gives ".../7". */
  lemma IntegerNameIsConverted(location: Option<string>, cwd: string, n: int)
    ensures Basename(DetermineScenarioDirectory(location, cwd, PyValues.PyInt(n))) == PyValues.IntToString(n)
  {
    ScenarioNameIsLastComponent(location, cwd, PyValues.PyInt(n));
  }
}
