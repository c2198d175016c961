/** Cgroup membership by path (src/gpuqueue/cgroups.py). */
module Cgroups {
  import opened Text

  function NonEmpty(parts: seq<string>): seq<string> {
    if parts == [] then []
    else (if parts[0] == "" then [] else [parts[0]]) + NonEmpty(parts[1..])
  }

  /** `[c for c in path.split("/") if c]` */
  function Components(path: string): seq<string> {
    NonEmpty(Split(path, '/'))
  }

  /** `^session-[^/]+\.scope$` and `^user-[^/]+\.slice$`; `$` also matches before a final newline. */
  predicate IsSession(name: string) {
    var n := if name != "" && name[|name| - 1] == '\n' then name[..|name| - 1] else name;
    SessionShape(name) || SessionShape(n)
  }

  predicate SessionShape(n: string) {
    || (StartsWith(n, "session-") && EndsWith(n, ".scope") && |n| > |"session-"| + |".scope"|)
    || (StartsWith(n, "user-") && EndsWith(n, ".slice") && |n| > |"user-"| + |".slice"|)
  }

  /** `refuse_reason(scope) is not None` */
  predicate Refused(scope: string) {
    var parts := Components(scope);
    !StartsWith(scope, "/") || |parts| < 2 || IsSession(parts[|parts| - 1])
  }

  function RStripSlash(s: string): string {
    if s != "" && s[|s| - 1] == '/' then RStripSlash(s[..|s| - 1]) else s
  }

  /** `in_scope` for a process whose cgroup path is `cgroup`. */
  predicate InScope(cgroup: string, scope: string) {
    if scope == "" || Refused(scope) then false
    else cgroup == scope || StartsWith(cgroup, RStripSlash(scope) + "/")
  }

  /** The kernel's spelling: absolute, no empty component, no trailing slash. */
  ghost predicate Normalised(path: string) {
    path == "/" || (path != "" && path[0] == '/' && "" !in Split(path[1..], '/'))
  }

  lemma {:induction false} NonEmptyKeepsAll(parts: seq<string>)
    requires "" !in parts
    ensures NonEmpty(parts) == parts
  {
    if parts != [] {
      NonEmptyKeepsAll(parts[1..]);
    }
  }

  lemma ComponentsOfNormalised(path: string)
    requires Normalised(path) && path != "/"
    ensures Components(path) == Split(path[1..], '/')
    ensures path == "/" + Join(Components(path), '/')
    ensures RStripSlash(path) == path
  {
    var tail := path[1..];
    assert Split(path, '/') == [""] + Split(tail, '/');
    assert ([""] + Split(tail, '/'))[1..] == Split(tail, '/');
    NonEmptyKeepsAll(Split(tail, '/'));
    JoinOfSplit(tail, '/');
    SplitAfterLastSep(tail, '/');
    assert path[|path| - 1] == tail[|tail| - 1];
  }

  lemma RootHasNoComponents()
    ensures Components("/") == [] && Refused("/")
  {
    assert Split("/", '/') == ["", ""];
  }

  lemma BelowExtendsComponents(cgroup: string, scope: string)
    requires Normalised(cgroup) && Normalised(scope) && scope != "/"
    requires StartsWith(cgroup, scope + "/")
    ensures cgroup != "/" && Components(scope) <= Components(cgroup)
  {
    assert |scope + "/"| > 1;
    ComponentsOfNormalised(scope);
    ComponentsOfNormalised(cgroup);
    BelowInTwo(cgroup, scope);
    SplitAt(scope[1..], cgroup[|scope| + 1..], '/');
  }

  lemma BelowInTwo(cgroup: string, scope: string)
    requires scope != "" && StartsWith(cgroup, scope + "/")
    ensures |cgroup| > |scope| && cgroup[1..] == scope[1..] + ['/'] + cgroup[|scope| + 1..]
  {
    assert cgroup[..|scope| + 1] == scope + "/";
  }

  lemma ExtendedComponentsAreBelow(cgroup: string, scope: string)
    requires Normalised(cgroup) && Normalised(scope) && scope != "/" && cgroup != "/"
    requires Components(scope) <= Components(cgroup)
    ensures cgroup == scope || StartsWith(cgroup, scope + "/")
  {
    ComponentsOfNormalised(scope);
    ComponentsOfNormalised(cgroup);
    var inner, outer := Components(scope), Components(cgroup);
    if inner != outer {
      var below := outer[|inner|..];
      assert outer == inner + below;
      JoinConcat(inner, below, '/');
      Prefixed(cgroup, scope, Join(inner, '/'), Join(below, '/'));
    }
  }

  lemma Prefixed(cgroup: string, scope: string, inner: string, below: string)
    requires scope == "/" + inner && cgroup == "/" + (inner + ['/'] + below)
    ensures StartsWith(cgroup, scope + "/")
  {
    assert cgroup == scope + "/" + below;
  }

  /** The string test is the component test: nesting, never a shared textual prefix. */
  lemma InScopeIsComponentPrefix(cgroup: string, scope: string)
    requires Normalised(cgroup) && Normalised(scope)
    ensures InScope(cgroup, scope) <==> !Refused(scope) && Components(scope) <= Components(cgroup)
  {
    RootHasNoComponents();
    if !Refused(scope) {
      ComponentsOfNormalised(scope);
      if StartsWith(cgroup, scope + "/") {
        BelowExtendsComponents(cgroup, scope);
      }
      if Components(scope) <= Components(cgroup) {
        ExtendedComponentsAreBelow(cgroup, scope);
      }
    }
  }

  /** Two scopes that share a process are nested one in the other. */
  lemma ScopesNest(cgroup: string, a: string, b: string)
    requires Normalised(cgroup) && Normalised(a) && Normalised(b)
    requires InScope(cgroup, a) && InScope(cgroup, b)
    ensures InScope(a, b) || InScope(b, a)
  {
    InScopeIsComponentPrefix(cgroup, a);
    InScopeIsComponentPrefix(cgroup, b);
    InScopeIsComponentPrefix(a, b);
    InScopeIsComponentPrefix(b, a);
  }

  /** A path that only extends the scope's last component is outside it. */
  lemma SiblingIsOutside(scope: string, suffix: string)
    requires Normalised(scope) && suffix != "" && suffix[0] != '/'
    ensures !InScope(scope + suffix, scope)
  {
    if !Refused(scope) {
      RootHasNoComponents();
      ComponentsOfNormalised(scope);
      assert (scope + suffix)[|scope|] == suffix[0];
    }
  }

  // ---------------------------------------------------------------------
  // The same, on the components of a path
  // ---------------------------------------------------------------------

  /** `path` is the kernel's spelling of these components, outermost first. */
  ghost predicate Spells(path: string, parts: seq<string>) {
    && (forall i :: 0 <= i < |parts| ==> parts[i] != "" && '/' !in parts[i])
    && path == if parts == [] then "/" else "/" + Join(parts, '/')
  }

  /** The name of a login session's cgroup, or of a user's slice. */
  ghost predicate LoginName(name: string) {
    exists middle: string, end: string :: IsLogin(name, middle, end)
  }

  ghost predicate IsLogin(name: string, middle: string, end: string) {
    && middle != "" && (end == "" || end == "\n")
    && (name == "session-" + middle + ".scope" + end || name == "user-" + middle + ".slice" + end)
  }

  lemma LoginShape(name: string, head: string, tail: string, middle: string)
    ensures name == head + middle + tail ==>
              StartsWith(name, head) && EndsWith(name, tail) && |name| == |head| + |middle| + |tail|
  {
    if name == head + middle + tail {
      assert name[|name| - |tail|..] == tail;
    }
  }

  lemma LoginMiddle(name: string, head: string, tail: string)
    requires StartsWith(name, head) && EndsWith(name, tail) && |name| > |head| + |tail|
    ensures exists middle: string :: middle != "" && name == head + middle + tail
  {
    var middle := name[|head|..|name| - |tail|];
    assert name == head + middle + tail;
  }

  lemma ShapeIsLogin(n: string)
    ensures SessionShape(n) <==> exists middle: string :: IsLogin(n, middle, "")
  {
    forall middle: string
      ensures IsLogin(n, middle, "") ==> SessionShape(n)
    {
      LoginShape(n, "session-", ".scope", middle);
      LoginShape(n, "user-", ".slice", middle);
      assert n == "session-" + middle + ".scope" <==> n == "session-" + middle + ".scope" + "";
      assert n == "user-" + middle + ".slice" <==> n == "user-" + middle + ".slice" + "";
    }
    if SessionShape(n) {
      if StartsWith(n, "session-") && EndsWith(n, ".scope") && |n| > |"session-"| + |".scope"| {
        LoginMiddle(n, "session-", ".scope");
        var middle: string :| middle != "" && n == "session-" + middle + ".scope";
        assert IsLogin(n, middle, "");
      } else {
        LoginMiddle(n, "user-", ".slice");
        var middle: string :| middle != "" && n == "user-" + middle + ".slice";
        assert IsLogin(n, middle, "");
      }
    }
  }

  lemma LoginBeforeNewline(n: string, middle: string)
    ensures IsLogin(n, middle, "") <==> IsLogin(n + "\n", middle, "\n")
  {
    SameBeforeNewline(n, "session-" + middle + ".scope");
    SameBeforeNewline(n, "user-" + middle + ".slice");
  }

  lemma SameBeforeNewline(n: string, m: string)
    ensures n == m + "" <==> n + "\n" == m + "\n"
  {
    if n + "\n" == m + "\n" {
      assert (n + "\n")[..|n|] == (m + "\n")[..|m|];
    }
  }

  lemma SessionIsLogin(name: string)
    ensures IsSession(name) <==> LoginName(name)
  {
    ShapeIsLogin(name);
    if name != "" && name[|name| - 1] == '\n' {
      var n := name[..|name| - 1];
      assert name == n + "\n";
      ShapeIsLogin(n);
      forall middle: string
        ensures IsLogin(n, middle, "") <==> IsLogin(name, middle, "\n")
      {
        LoginBeforeNewline(n, middle);
      }
    } else {
      forall middle: string
        ensures !IsLogin(name, middle, "\n")
      {
        NoNewline(name, "session-" + middle + ".scope");
        NoNewline(name, "user-" + middle + ".slice");
      }
    }
  }

  lemma NoNewline(name: string, m: string)
    requires name == "" || name[|name| - 1] != '\n'
    ensures name != m + "\n"
  {
  }

  lemma SpelledComponents(path: string, parts: seq<string>)
    requires Spells(path, parts)
    ensures Normalised(path) && Components(path) == parts
  {
    if parts == [] {
      RootHasNoComponents();
    } else {
      SplitOfJoin(parts, '/');
      SplitEachOfOnes(parts, '/');
      assert path[1..] == Join(parts, '/');
      ComponentsOfNormalised(path);
    }
  }

  lemma NormalisedIsSpelled(path: string)
    requires Normalised(path)
    ensures Spells(path, Components(path))
  {
    RootHasNoComponents();
    if path != "/" {
      ComponentsOfNormalised(path);
      PiecesHaveNoSep(path[1..], '/');
    }
  }

  lemma RefusedExactly(scope: string, parts: seq<string>)
    requires Spells(scope, parts)
    ensures Refused(scope) <==> |parts| < 2 || LoginName(parts[|parts| - 1])
  {
    SpelledComponents(scope, parts);
    assert StartsWith(scope, "/");
    if parts != [] {
      SessionIsLogin(parts[|parts| - 1]);
    }
  }

  /** A scope that names something covers it and what is nested in it, and a
      scope that names a top-level slice or a login session covers nothing. */
  lemma InScopeExactly(cgroup: string, inner: seq<string>, scope: string, outer: seq<string>)
    requires Spells(cgroup, inner) && Spells(scope, outer)
    ensures InScope(cgroup, scope)
            <==> |outer| >= 2 && !LoginName(outer[|outer| - 1]) && |outer| <= |inner| && outer == inner[..|outer|]
  {
    hide InScope, Refused, Normalised, Components, LoginName, Spells;
    SpelledComponents(cgroup, inner);
    SpelledComponents(scope, outer);
    InScopeIsComponentPrefix(cgroup, scope);
    RefusedExactly(scope, outer);
  }
}
