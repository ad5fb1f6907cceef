/** The POSIX path operations the datasource uses: `os.path.join` with two
    arguments, `os.path.dirname` and `os.path.normpath`. */
module Paths {
  import opened Common

  /** `os.path.join(a, b)`: an absolute `b` replaces `a`; otherwise one `/`
      is inserted unless `a` is empty or already ends with one. */
  function PathJoin(a: string, b: string): (r: string)
    ensures StartsWith(b, "/") ==> r == b
    ensures !StartsWith(b, "/") ==> |b| <= |r| && r[|r| - |b|..] == b
  {
    if StartsWith(b, "/") then b
    else if a == "" || a[|a| - 1] == '/' then a + b
    else a + "/" + b
  }

  /** Index just past the last `/` of `p`, or 0 when there is none. */
  function LastSepEnd(p: string): (i: nat)
    ensures i <= |p|
    ensures i > 0 ==> p[i - 1] == '/'
    ensures forall j :: i <= j < |p| ==> p[j] != '/'
  {
    if p == [] then 0
    else if p[|p| - 1] == '/' then |p|
    else LastSepEnd(p[..|p| - 1])
  }

  function StripTrailingSlashes(s: string): string {
    if s != [] && s[|s| - 1] == '/' then StripTrailingSlashes(s[..|s| - 1]) else s
  }

  predicate AllSlashes(s: string) {
    forall i :: 0 <= i < |s| ==> s[i] == '/'
  }

  /** `os.path.dirname(p)`: everything up to the last `/`, with trailing
      slashes removed unless the head consists of slashes only. */
  function Dirname(p: string): string {
    var head := p[..LastSepEnd(p)];
    if head != "" && !AllSlashes(head) then StripTrailingSlashes(head) else head
  }

  /** The directory of a file joined onto a directory is that directory. */
  lemma DirnameOfJoin(dir: string, name: string)
    requires dir != "" && dir[|dir| - 1] != '/' && !AllSlashes(dir)
    requires name != "" && '/' !in name
    ensures Dirname(PathJoin(dir, name)) == dir
  {
    var p := dir + "/" + name;
    assert name[0] != '/';
    assert PathJoin(dir, name) == p;
    LastSepEndOf(dir + "/", name);
    var head := p[..|dir| + 1];
    assert head == dir + "/";
    assert !AllSlashes(head) by {
      var k :| 0 <= k < |dir| && dir[k] != '/';
      assert head[k] == dir[k];
    }
    assert head[..|head| - 1] == dir;
    assert StripTrailingSlashes(head) == StripTrailingSlashes(dir);
    assert Dirname(p) == StripTrailingSlashes(head);
  }

  lemma {:induction false} LastSepEndOf(head: string, tail: string)
    requires head != [] && head[|head| - 1] == '/'
    requires '/' !in tail
    ensures LastSepEnd(head + tail) == |head|
  {
    if tail != [] {
      assert (head + tail)[..|head + tail| - 1] == head + tail[..|tail| - 1];
      LastSepEndOf(head, tail[..|tail| - 1]);
    } else {
      assert head + tail == head;
    }
  }

  /** One component is "plain" when normalisation leaves it alone. */
  predicate Plain(c: string) {
    c != "" && c != "." && c != ".." && '/' !in c
  }

  predicate AllPlain(cs: seq<string>) {
    forall i :: 0 <= i < |cs| ==> Plain(cs[i])
  }

  /** How many leading slashes `os.path.normpath` keeps: two exactly when
      the path starts with two but not three, else one or none. */
  function InitialSlashes(path: string): nat {
    if !StartsWith(path, "/") then 0
    else if StartsWith(path, "//") && !StartsWith(path, "///") then 2
    else 1
  }

  /** The component loop of `os.path.normpath`: empty and `.` components are
      dropped, `..` pops the previous component unless there is none to pop
      (kept on a relative path, dropped on an absolute one) or it is itself
      `..`. */
  function NormComps(comps: seq<string>, acc: seq<string>, rooted: bool): seq<string>
    decreases |comps|
  {
    if comps == [] then acc
    else
      var c := comps[0];
      var acc' :=
        if c == "" || c == "." then acc
        else if c != ".." || (!rooted && acc == []) || (acc != [] && acc[|acc| - 1] == "..") then acc + [c]
        else if acc != [] then acc[..|acc| - 1]
        else acc;
      NormComps(comps[1..], acc', rooted)
  }

  function Slashes(n: nat): string {
    if n == 0 then "" else "/" + Slashes(n - 1)
  }

  /** `os.path.normpath(path)` on a POSIX system. */
  function NormPath(path: string): string {
    if path == "" then "."
    else
      var initial := InitialSlashes(path);
      var joined := JoinWith("/", NormComps(Split(path, '/'), [], initial > 0));
      var r := Slashes(initial) + joined;
      if r == "" then "." else r
  }

  /** Plain components pass through the component loop unchanged. */
  lemma {:induction false} NormCompsPlain(comps: seq<string>, acc: seq<string>, rooted: bool)
    requires AllPlain(comps)
    ensures NormComps(comps, acc, rooted) == acc + comps
  {
    if comps != [] {
      NormCompsPlain(comps[1..], acc + [comps[0]], rooted);
      assert acc + [comps[0]] + comps[1..] == acc + comps;
    }
  }

  /** A relative path of plain components is already normal. */
  lemma NormPathRelative(cs: seq<string>)
    requires |cs| >= 1 && AllPlain(cs)
    ensures NormPath(JoinWith("/", cs)) == JoinWith("/", cs)
  {
    var p := JoinWith("/", cs);
    SplitJoin(cs, '/');
    JoinStartsWithFirst(cs);
    assert p != "" && p[0] != '/';
    NormCompsPlain(cs, [], false);
    assert [] + cs == cs;
  }

  /** An absolute path of plain components splits into an empty first
      piece followed by the components. */
  lemma SplitRooted(cs: seq<string>)
    requires |cs| >= 1 && AllPlain(cs)
    ensures Split("/" + JoinWith("/", cs), '/') == [""] + cs
  {
    var j := JoinWith("/", cs);
    SplitJoin(cs, '/');
    SplitConcat("", j, '/');
    assert "" + ['/'] + j == "/" + j;
  }

  /** An absolute path of plain components keeps a single leading slash. */
  lemma RootedInitialSlashes(cs: seq<string>)
    requires |cs| >= 1 && AllPlain(cs)
    ensures InitialSlashes("/" + JoinWith("/", cs)) == 1
  {
    JoinStartsWithFirst(cs);
    var j := JoinWith("/", cs);
    assert Plain(cs[0]);
    assert j[0] != '/';
    OneLeadingSlash(j);
  }

  /** A path with exactly one leading slash keeps one. */
  lemma OneLeadingSlash(j: string)
    requires j != [] && j[0] != '/'
    ensures InitialSlashes("/" + j) == 1
  {
    var p := "/" + j;
    assert p[..1] == "/";
    assert p[1] == j[0];
    assert p[..2] != "//";
  }

  /** An absolute path of plain components is already normal. */
  lemma NormPathAbsolute(cs: seq<string>)
    requires |cs| >= 1 && AllPlain(cs)
    ensures NormPath("/" + JoinWith("/", cs)) == "/" + JoinWith("/", cs)
  {
    SplitRooted(cs);
    RootedInitialSlashes(cs);
    var comps := [""] + cs;
    assert comps[0] == "" && comps[1..] == cs;
    NormCompsPlain(cs, [], true);
    assert NormComps(comps, [], true) == cs;
    assert Slashes(1) == "/";
  }

  /** The join of plain components starts with the first component, so it
      is neither empty nor starts with `/`. */
  lemma JoinStartsWithFirst(cs: seq<string>)
    requires |cs| >= 1 && AllPlain(cs)
    ensures StartsWith(JoinWith("/", cs), cs[0])
    ensures JoinWith("/", cs) != "" && JoinWith("/", cs)[0] == cs[0][0]
  {
    var j := JoinWith("/", cs);
    if |cs| > 1 {
      assert j == cs[0] + "/" + JoinWith("/", cs[1..]);
      assert j[..|cs[0]|] == cs[0];
    }
  }
}
