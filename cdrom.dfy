/** `maybe_cdrom_device`: the device-name filter that decides which block
    devices may hold an ISO9660 OVF environment, with the default udev-style
    pattern `^(sr[0-9]+|hd[a-z]|xvd.*)`. */
module Cdrom {
  import opened Common
  import opened Paths

  predicate IsDigit(c: char) { '0' <= c <= '9' }

  /** The words the pattern `sr[0-9]+|hd[a-z]|xvd.*` matches in full
      (`.` matches any character except a newline). */
  predicate InPatternLanguage(w: string) {
    || (|w| >= 3 && w[..2] == "sr" && forall k :: 2 <= k < |w| ==> IsDigit(w[k]))
    || (|w| == 3 && w[..2] == "hd" && 'a' <= w[2] <= 'z')
    || (|w| >= 3 && w[..3] == "xvd" && forall k :: 3 <= k < |w| ==> w[k] != '\n')
  }

  /** `re.match` of the default pattern: it is anchored at the start only,
      so it suffices that a prefix is one of the three shapes. */
  predicate CdromPatternMatch(name: string) {
    |name| >= 3 &&
    ((name[..2] == "sr" && IsDigit(name[2])) ||
     (name[..2] == "hd" && 'a' <= name[2] <= 'z') ||
     name[..3] == "xvd")
  }

  /** The matcher agrees with the regular-expression semantics: it holds
      exactly when some prefix of the name is a word of the pattern. */
  lemma CdromPatternMatchIsPrefixMatch(name: string)
    ensures CdromPatternMatch(name) <==>
            exists i :: 0 <= i <= |name| && InPatternLanguage(name[..i])
  {
    if CdromPatternMatch(name) {
      assert InPatternLanguage(name[..3]);
    }
    if exists i :: 0 <= i <= |name| && InPatternLanguage(name[..i]) {
      var i :| 0 <= i <= |name| && InPatternLanguage(name[..i]);
      var w := name[..i];
      assert w[..2] == name[..2] && w[2] == name[2];
      if |w| >= 3 && w[..3] == "xvd" {
        assert name[..3] == w[..3];
      }
    }
  }

  /** The part of a normalised name that is matched: what follows a leading
      `/dev/`, and for an absolute remainder only its last component;
      `None` when a relative remainder still holds a `/`. */
  function Choose(n: string): Option<string> {
    var rest := if StartsWith(n, "/dev/") then n[5..] else n;
    if StartsWith(rest, "/") then
      var parts := Split(rest, '/');
      Some(parts[|parts| - 1])
    else if '/' in rest then None
    else Some(rest)
  }

  function Candidate(devname: string): Option<string> {
    Choose(NormPath(devname))
  }

  /** Under `/dev/`, a relative remainder is kept whole when it has no `/`
      and rejected when it has one. */
  lemma ChooseUnderDev(j: string)
    requires j != "" && j[0] != '/'
    ensures Choose("/dev/" + j) == if '/' in j then None else Some(j)
  {
    var n := "/dev/" + j;
    assert n[..5] == "/dev/";
    assert n[5..] == j;
  }

  /** A relative name that does not start with a slash is kept whole when it
      has no `/` and rejected when it has one. */
  lemma ChooseRelative(j: string)
    requires j != "" && j[0] != '/'
    ensures Choose(j) == if '/' in j then None else Some(j)
  {
    assert !StartsWith(j, "/dev/");
  }

  /** `maybe_cdrom_device(devname)` with the default pattern. The empty
      name is rejected, and a name is accepted exactly when its candidate
      matches the pattern: the test for an empty candidate adds nothing. */
  function MaybeCdromDevice(devname: string): (r: bool)
    ensures devname == "" ==> !r
    ensures devname != "" ==> (r <==> Candidate(devname).Some? && CdromPatternMatch(Candidate(devname).value))
  {
    if devname == "" then false
    else
      match Candidate(devname)
      case None => false
      case Some(name) => name != "" && CdromPatternMatch(name)
  }

  /** A bare kernel name and the same name under `/dev/` are judged by the
      pattern alone. */
  lemma KernelNameJudgedByPattern(k: string)
    requires Plain(k)
    ensures MaybeCdromDevice(k) == CdromPatternMatch(k)
    ensures MaybeCdromDevice("/dev/" + k) == CdromPatternMatch(k)
  {
    NormPathRelative([k]);
    assert JoinWith("/", [k]) == k;
    assert k[0] != '/';
    ChooseRelative(k);
    CandidateUnderDev([k]);
  }

  /** Joining one more component in front inserts one separator. */
  lemma JoinCons(c: string, cs: seq<string>)
    requires |cs| >= 1
    ensures JoinWith("/", [c] + cs) == c + "/" + JoinWith("/", cs)
  {
    var all := [c] + cs;
    assert all[1..] == cs;
  }

  /** `dev` in front of plain components keeps them plain. */
  lemma DevComponentsPlain(cs: seq<string>)
    requires AllPlain(cs)
    ensures AllPlain(["dev"] + cs)
  {
    var all := ["dev"] + cs;
    assert Plain("dev") by {
      assert "dev"[0] == 'd' && "dev"[1] == 'e' && "dev"[2] == 'v';
    }
    forall i | 0 <= i < |all| ensures Plain(all[i]) {
      if i > 0 { assert all[i] == cs[i - 1]; }
    }
  }

  /** `/dev/` followed by plain components normalises to itself. */
  lemma DevPathNormal(cs: seq<string>)
    requires |cs| >= 1 && AllPlain(cs)
    ensures NormPath("/dev/" + JoinWith("/", cs)) == "/dev/" + JoinWith("/", cs)
  {
    JoinCons("dev", cs);
    DevComponentsPlain(cs);
    NormPathAbsolute(["dev"] + cs);
    DevPrefix(JoinWith("/", cs));
  }

  lemma DevPrefix(j: string)
    ensures "/" + ("dev" + "/" + j) == "/dev/" + j
  {
  }

  /** The join of two or more plain components holds a `/`; that of one
      component does not. */
  lemma SlashInJoin(cs: seq<string>)
    requires |cs| >= 1 && AllPlain(cs)
    ensures ('/' in JoinWith("/", cs)) <==> |cs| >= 2
  {
    var j := JoinWith("/", cs);
    if |cs| == 1 {
      assert j == cs[0];
    } else {
      assert j == cs[0] + "/" + JoinWith("/", cs[1..]);
      assert j[|cs[0]|] == '/';
    }
  }

  /** Under `/dev/`, plain components give their join as the candidate when
      there is one component and no candidate otherwise. */
  lemma CandidateUnderDev(cs: seq<string>)
    requires |cs| >= 1 && AllPlain(cs)
    ensures Candidate("/dev/" + JoinWith("/", cs)) == (if |cs| == 1 then Some(cs[0]) else None)
  {
    var j := JoinWith("/", cs);
    DevPathNormal(cs);
    JoinStartsWithFirst(cs);
    SlashInJoin(cs);
    ChooseUnderDev(j);
    if |cs| == 1 { assert j == cs[0]; }
  }

  /** A relative name that still has a directory part is rejected, whether
      or not it sits under `/dev/`. */
  lemma NestedNamesRejected(cs: seq<string>)
    requires |cs| >= 2 && AllPlain(cs)
    ensures !MaybeCdromDevice(JoinWith("/", cs))
    ensures !MaybeCdromDevice("/dev/" + JoinWith("/", cs))
  {
    var j := JoinWith("/", cs);
    NormPathRelative(cs);
    JoinStartsWithFirst(cs);
    SlashInJoin(cs);
    ChooseRelative(j);
    CandidateUnderDev(cs);
  }

  /** An absolute name that is not under `/dev/` gives its last component. */
  lemma ChooseAbsolute(n: string)
    requires StartsWith(n, "/") && !StartsWith(n, "/dev/")
    ensures Choose(n) == Some(Split(n, '/')[|Split(n, '/')| - 1])
  {
  }

  /** A component followed by `/` starts with `dev/` only when it is `dev`. */
  lemma DevPrefixOfComponent(c: string, t: string)
    requires '/' !in c
    ensures StartsWith(c + t, "dev/") && (t == "" || t[0] == '/') ==> c == "dev"
  {
    var s := c + t;
    forall i | 0 <= i < |c| ensures s[i] == c[i] && s[i] != '/' { }
    assert t != "" ==> s[|c|] == t[0];
    assert StartsWith(s, "dev/") ==> s[0] == 'd' && s[1] == 'e' && s[2] == 'v' && s[3] == '/';
    assert |c| == 3 ==> c == s[..3];
  }

  /** A join of plain components is its first component followed either by
      nothing or by a `/`. */
  lemma JoinShape(cs: seq<string>)
    requires |cs| >= 1 && AllPlain(cs)
    ensures |cs[0]| <= |JoinWith("/", cs)|
    ensures JoinWith("/", cs)[..|cs[0]|] == cs[0]
    ensures |cs| == 1 ==> JoinWith("/", cs) == cs[0]
    ensures |cs| > 1 ==> |JoinWith("/", cs)| > |cs[0]| && JoinWith("/", cs)[|cs[0]|] == '/'
  {
    if |cs| > 1 {
      var j := JoinWith("/", cs);
      assert j == cs[0] + "/" + JoinWith("/", cs[1..]);
    }
  }

  /** A join of plain components whose first is not `dev` does not start
      with `dev/`, so its absolute form is not under `/dev/`. */
  lemma NotUnderDev(cs: seq<string>)
    requires |cs| >= 1 && AllPlain(cs) && cs[0] != "dev"
    ensures !StartsWith("/" + JoinWith("/", cs), "/dev/")
  {
    var j := JoinWith("/", cs);
    JoinShape(cs);
    var t := j[|cs[0]|..];
    assert j == cs[0] + t;
    assert t == "" || t[0] == '/';
    ComponentNotUnderDev(cs[0], t);
  }

  lemma ComponentNotUnderDev(c: string, t: string)
    requires '/' !in c && c != "dev" && (t == "" || t[0] == '/')
    ensures !StartsWith("/" + (c + t), "/dev/")
  {
    DevPrefixOfComponent(c, t);
    var j := c + t;
    var n := "/" + j;
    assert !StartsWith(j, "dev/");
    assert |j| >= 4 ==> n[1..5] == j[..4];
    assert |n| >= 5 ==> n[..5] == [n[0]] + n[1..5];
  }

  /** An absolute name outside `/dev/` is judged by its last component:
      `/foo/bar/xvdc` is accepted, unlike `foo/bar/xvdc`. */
  lemma AbsoluteNameJudgedByLastComponent(cs: seq<string>)
    requires |cs| >= 1 && AllPlain(cs) && cs[0] != "dev"
    ensures MaybeCdromDevice("/" + JoinWith("/", cs)) == CdromPatternMatch(cs[|cs| - 1])
  {
    var n := "/" + JoinWith("/", cs);
    NormPathAbsolute(cs);
    ChooseLastComponent(cs);
    assert Candidate(n) == Some(cs[|cs| - 1]);
    assert cs[|cs| - 1] != "";
  }

  /** The candidate of an absolute path outside `/dev/` is its last
      component. */
  lemma ChooseLastComponent(cs: seq<string>)
    requires |cs| >= 1 && AllPlain(cs) && cs[0] != "dev"
    ensures Choose("/" + JoinWith("/", cs)) == Some(cs[|cs| - 1])
  {
    ChooseRootedIsLastPiece(cs);
    RootedLastPiece(cs);
  }

  lemma ChooseRootedIsLastPiece(cs: seq<string>)
    requires |cs| >= 1 && AllPlain(cs) && cs[0] != "dev"
    ensures var parts := Split("/" + JoinWith("/", cs), '/');
      Choose("/" + JoinWith("/", cs)) == Some(parts[|parts| - 1])
  {
    var n := "/" + JoinWith("/", cs);
    NotUnderDev(cs);
    assert n[..1] == "/";
    ChooseAbsolute(n);
  }

  lemma RootedLastPiece(cs: seq<string>)
    requires |cs| >= 1 && AllPlain(cs)
    ensures var parts := Split("/" + JoinWith("/", cs), '/');
      parts[|parts| - 1] == cs[|cs| - 1]
  {
    var parts := Split("/" + JoinWith("/", cs), '/');
    SplitRooted(cs);
    assert parts == [""] + cs;
  }

  /** The first SCSI optical drive is accepted, bare and under `/dev/`. */
  lemma AcceptedScsiCdrom()
    ensures MaybeCdromDevice("sr0") && MaybeCdromDevice("/dev/" + "sr0")
  {
    var k := "sr0";
    assert k[0] == 's' && k[1] == 'r' && k[2] == '0';
    assert Plain(k) && CdromPatternMatch(k);
    KernelNameJudgedByPattern(k);
  }

  /** An IDE disk name is accepted. */
  lemma AcceptedIdeName()
    ensures MaybeCdromDevice("hda")
  {
    var k := "hda";
    assert k[0] == 'h' && k[1] == 'd' && k[2] == 'a';
    assert Plain(k) && CdromPatternMatch(k);
    KernelNameJudgedByPattern(k);
  }

  /** A Xen virtual disk name is accepted. */
  lemma AcceptedXenName()
    ensures MaybeCdromDevice("xvdc")
  {
    var k := "xvdc";
    assert k[0] == 'x' && k[1] == 'v' && k[2] == 'd' && k[3] == 'c';
    assert Plain(k) && CdromPatternMatch(k);
    KernelNameJudgedByPattern(k);
  }

  /** Although the function's own description rules out paths outside
      `/dev/`, the absolute path `/foo/bar/xvdc` is accepted. */
  lemma AcceptedOutsideDev()
    ensures MaybeCdromDevice("/foo/bar/xvdc")
  {
    var k := "xvdc";
    assert k[0] == 'x' && k[1] == 'v' && k[2] == 'd' && k[3] == 'c';
    assert Plain(k) && CdromPatternMatch(k);
    var cs := ["foo", "bar", k];
    assert Plain(cs[0]) && Plain(cs[1]);
    assert AllPlain(cs);
    JoinCons("foo", ["bar", k]);
    JoinCons("bar", [k]);
    assert "/" + JoinWith("/", cs) == "/foo/bar/xvdc";
    AbsoluteNameJudgedByLastComponent(cs);
  }

  /** The empty name and a disk that is not an optical drive are rejected. */
  lemma RejectedDeviceNames()
    ensures !MaybeCdromDevice("")
    ensures !MaybeCdromDevice("sda") && !MaybeCdromDevice("/dev/" + "sda")
  {
    var k := "sda";
    assert k[0] == 's' && k[1] == 'd' && k[2] == 'a';
    assert Plain(k) && !CdromPatternMatch(k);
    KernelNameJudgedByPattern(k);
  }

  /** Nested relative names are rejected, also under `/dev/`. */
  lemma RejectedNestedNames()
    ensures !MaybeCdromDevice("foo/bar/xvdc")
    ensures !MaybeCdromDevice("/dev/" + "foo/bar/xvdc")
  {
    var cs := ["foo", "bar", "xvdc"];
    assert JoinWith("/", cs) == "foo/bar/xvdc";
    NestedNamesRejected(cs);
  }
}
