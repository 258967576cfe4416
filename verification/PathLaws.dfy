/**
 What resolving a path means, said on path strings: names lead down, ".." leads up and stays at the root, "." and
 empty segments lead nowhere. Every relative path comes down to some ".." and then names, so this says it all.
 */
module PathLaws {
  import opened Paths
  import opened WorkspacePath

  /** `k` times "..". */
  function Ups(k: nat): seq<string> { seq(k, _ => "..") }

  /** The directory with these names. */
  function Directory(names: seq<string>): string { "/" + Join(names) }

  /** The path of `k` times ".." and then `names`, or "." when there is nothing. */
  function Climb(k: nat, names: seq<string>): string {
    if k == 0 && names == [] then "." else Join(Ups(k) + names)
  }

  /** `k` directories up from `dir`, the root at most. */
  function Above(dir: seq<string>, k: nat): seq<string> { if k <= |dir| then dir[..|dir| - k] else [] }

  lemma UpsSnoc(k: nat)
    requires k > 0
    ensures Ups(k) == Ups(k - 1) + [".."]
  {
  }

  lemma {:induction false} FoldUps(dir: seq<string>, k: nat)
    requires Names(dir)
    ensures Fold(dir, Ups(k), false) == Above(dir, k)
  {
    if k > 0 {
      UpsSnoc(k);
      FoldUps(dir, k - 1);
      FoldSnoc(dir, Ups(k - 1), "..", false);
    }
  }

  lemma FoldClimb(dir: seq<string>, k: nat, names: seq<string>)
    requires Names(dir) && Names(names)
    ensures Fold(dir, Ups(k) + names, false) == Above(dir, k) + names
  {
    FoldConcat(dir, Ups(k), names, false);
    FoldUps(dir, k);
    FoldNames(Above(dir, k), names);
  }

  lemma ClimbIsRelative(k: nat, names: seq<string>)
    requires Names(names)
    ensures !IsAbsolute(Climb(k, names))
    ensures Split(Climb(k, names)) == if k == 0 && names == [] then ["."] else Ups(k) + names
  {
    if k == 0 && names == [] {
      SplitSlashFree(".");
    } else {
      var segs := Ups(k) + names;
      assert IsClimb(segs);
      JoinClimbIsRelative(segs);
      SplitInvertsJoin(segs);
    }
  }

  lemma ResolvesFrom(cwd: string, dir: seq<string>, p: string)
    requires IsAbsolute(cwd) && Names(dir) && !IsAbsolute(p)
    ensures Resolve(cwd, Directory(dir), p) == Directory(Fold(dir, Split(p), false))
  {
    SegmentsOfJoin(dir);
    ResolveFolds(cwd, Directory(dir), p);
  }

  /** Going `k` directories up and then down along `names`: from the root there is no way up. */
  lemma ResolveClimbs(cwd: string, dir: seq<string>, k: nat, names: seq<string>)
    requires IsAbsolute(cwd) && Names(dir) && Names(names)
    ensures Resolve(cwd, Directory(dir), Climb(k, names)) == Directory(Above(dir, k) + names)
  {
    ClimbIsRelative(k, names);
    ResolvesFrom(cwd, dir, Climb(k, names));
    if k == 0 && names == [] {
      assert Above(dir, 0) + [] == dir;
      assert Fold(dir, ["."], false) == dir;
    } else {
      FoldClimb(dir, k, names);
    }
  }

  /** ".." leads to the parent directory, and from the root to the root. */
  lemma DotDotLeavesADirectory(cwd: string, dir: seq<string>, n: string)
    requires IsAbsolute(cwd) && Names(dir) && IsName(n)
    ensures Resolve(cwd, Directory(dir + [n]), "..") == Directory(dir)
    ensures Resolve(cwd, "/", "..") == "/"
  {
    assert Ups(1) + [] == [".."] && Climb(1, []) == "..";
    ResolveClimbs(cwd, dir + [n], 1, []);
    assert Above(dir + [n], 1) + [] == dir;
    ResolveClimbs(cwd, [], 1, []);
    assert Directory([]) == "/";
  }

  lemma FoldPair(stack: seq<string>, n: string)
    requires IsName(n)
    ensures Fold(stack, [n, ".."], false) == stack == Fold(stack, ["."], false)
  {
    FoldSnoc(stack, [], n, false);
    FoldSnoc(stack, [n], "..", false);
    FoldSnoc(stack, [], ".", false);
    assert [] + [n] == [n] && [n] + [".."] == [n, ".."] && [] + ["."] == ["."];
    assert (stack + [n])[..|stack|] == stack;
  }

  /** A name followed by ".." anywhere in a path can be replaced by ".". */
  lemma NameAndDotDotCancel(cwd: string, dir: seq<string>, p: string, q: string,
                            a: seq<string>, n: string, b: seq<string>)
    requires IsAbsolute(cwd) && Names(dir) && !IsAbsolute(p) && !IsAbsolute(q) && IsName(n)
    requires Split(p) == a + [n, ".."] + b && Split(q) == a + ["."] + b
    ensures Resolve(cwd, Directory(dir), p) == Resolve(cwd, Directory(dir), q)
  {
    ResolvesFrom(cwd, dir, p);
    ResolvesFrom(cwd, dir, q);
    FoldConcat(dir, a + [n, ".."], b, false);
    FoldConcat(dir, a, [n, ".."], false);
    FoldConcat(dir, a + ["."], b, false);
    FoldConcat(dir, a, ["."], false);
    FoldPair(Fold(dir, a, false), n);
  }

  /** A "." or an empty segment anywhere in a path can be left out. */
  lemma EmptyAndDotLeadNowhere(cwd: string, dir: seq<string>, p: string, q: string,
                               a: seq<string>, s: string, b: seq<string>)
    requires IsAbsolute(cwd) && Names(dir) && !IsAbsolute(p) && !IsAbsolute(q) && (s == "" || s == ".")
    requires Split(p) == a + [s] + b && Split(q) == a + b
    ensures Resolve(cwd, Directory(dir), p) == Resolve(cwd, Directory(dir), q)
  {
    ResolvesFrom(cwd, dir, p);
    ResolvesFrom(cwd, dir, q);
    FoldConcat(dir, a + [s], b, false);
    FoldSnoc(dir, a, s, false);
    FoldConcat(dir, a, b, false);
  }

  // ----- every relative path -----

  lemma UpsThenNames(k: nat, names: seq<string>, seg: string)
    requires Names(names) && SlashFree(seg)
    ensures exists j: nat, ms: seq<string> :: Names(ms) && Step(Ups(k) + names, seg, true) == Ups(j) + ms
  {
    var q := Ups(k) + names;
    if seg == "" || seg == "." {
      assert Step(q, seg, true) == Ups(k) + names;
    } else if seg == ".." {
      if names != [] {
        assert q[..|q| - 1] == Ups(k) + names[..|names| - 1];
        assert Names(names[..|names| - 1]);
      } else {
        assert q == Ups(k);
        assert Step(q, seg, true) == Ups(k + 1) + [];
      }
    } else {
      assert q + [seg] == Ups(k) + (names + [seg]);
      assert Names(names + [seg]);
    }
  }

  lemma {:induction false} FoldIsClimb(segs: seq<string>) returns (k: nat, names: seq<string>)
    requires forall i :: 0 <= i < |segs| ==> SlashFree(segs[i])
    ensures Names(names) && Fold([], segs, true) == Ups(k) + names
    decreases |segs|
  {
    if segs == [] {
      k, names := 0, [];
    } else {
      var j, ms := FoldIsClimb(segs[..|segs| - 1]);
      UpsThenNames(j, ms, segs[|segs| - 1]);
      k, names :| Names(names) && Step(Ups(j) + ms, segs[|segs| - 1], true) == Ups(k) + names;
    }
  }

  lemma JoinIsNonempty(segs: seq<string>)
    requires segs != [] && segs[0] != ""
    ensures Join(segs) != ""
  {
  }

  lemma Normalized(p: string, body: string)
    requires !IsAbsolute(p) && p != "" && body == NormalizeString(p, true)
    ensures Normalize(p) == (if body == "" then "." else body) + if p[|p| - 1] == '/' then "/" else ""
  {
    assert "." + "/" == "./" && "" + body == body;
  }

  lemma FoldOfNothing()
    ensures Fold([], Split(""), true) == []
  {
    assert [""][..0] == [];
  }

  lemma BodyOfClimb(k: nat, names: seq<string>)
    requires Names(names)
    ensures var body := Join(Ups(k) + names); (if body == "" then "." else body) == Climb(k, names)
  {
    if Ups(k) + names != [] {
      JoinIsNonempty(Ups(k) + names);
    }
  }

  lemma ClimbOfFold(p: string, k: nat, names: seq<string>)
    requires !IsAbsolute(p) && Names(names) && Fold([], Split(p), true) == Ups(k) + names
    ensures Normalize(p) == Climb(k, names) + if p != "" && p[|p| - 1] == '/' then "/" else ""
  {
    BodyOfClimb(k, names);
    if p == "" {
      FoldOfNothing();
    } else {
      Normalized(p, Join(Ups(k) + names));
    }
  }

  /**
   The normal form of a relative path: some ".." and then names, or ".", with the path's trailing slash. It says where
   the path leads from every directory.
   */
  lemma NormalForm(p: string) returns (k: nat, names: seq<string>)
    requires !IsAbsolute(p)
    ensures Names(names)
    ensures Normalize(p) == Climb(k, names) + if p != "" && p[|p| - 1] == '/' then "/" else ""
    ensures forall cwd: string, dir: seq<string> :: IsAbsolute(cwd) && Names(dir) ==>
      Resolve(cwd, Directory(dir), p) == Directory(Above(dir, k) + names)
  {
    SplitIsSlashFree(p);
    k, names := FoldIsClimb(Split(p));
    ClimbOfFold(p, k, names);
    forall cwd: string, dir: seq<string> | IsAbsolute(cwd) && Names(dir)
      ensures Resolve(cwd, Directory(dir), p) == Directory(Above(dir, k) + names)
    {
      ResolvesFrom(cwd, dir, p);
      FoldReduced(dir, Split(p));
      FoldClimb(dir, k, names);
    }
  }

  /** Every relative path leads where some ".." and then names lead, from every directory. */
  lemma EveryPathIsAClimb(p: string) returns (k: nat, names: seq<string>)
    requires !IsAbsolute(p)
    ensures Names(names)
    ensures forall cwd: string, dir: seq<string> :: IsAbsolute(cwd) && Names(dir) ==>
      Resolve(cwd, Directory(dir), p) == Resolve(cwd, Directory(dir), Climb(k, names))
  {
    k, names := NormalForm(p);
    forall cwd: string, dir: seq<string> | IsAbsolute(cwd) && Names(dir)
      ensures Resolve(cwd, Directory(dir), p) == Resolve(cwd, Directory(dir), Climb(k, names))
    {
      ResolveClimbs(cwd, dir, k, names);
    }
  }

  lemma GatheredRelative(cwd: string, a: string, b: string)
    requires IsAbsolute(cwd) && !IsAbsolute(a) && !IsAbsolute(b) && a != "" && b != ""
    ensures Split(Gather([cwd, a, b])) == Split(cwd) + Split(a) + Split(b) + [""]
  {
    assert [cwd, a, b][..2] == [cwd, a] && [cwd, a][..1] == [cwd];
    assert Gather([cwd]) == cwd + "/";
    assert Gather([cwd, a]) == cwd + "/" + a + "/";
    var all := cwd + "/" + a + "/" + b;
    assert Gather([cwd, a, b]) == all + "/";
    assert all + "/" + "" == all + "/";
    SplitConcat(all, "");
    SplitConcat(cwd + "/" + a, b);
    SplitConcat(cwd, a);
  }

  lemma GatheredHere(cwd: string, a: string)
    requires IsAbsolute(cwd) && !IsAbsolute(a)
    ensures Gather([cwd, "", a]) == Gather([cwd, cwd, a])
    ensures a != "" ==> Gather([cwd, a, ""]) == Gather([cwd, cwd, a])
  {
    assert [cwd, "", a][..2] == [cwd, ""] && [cwd, ""][..1] == [cwd];
    assert [cwd, cwd, a][..2] == [cwd, cwd];
    assert Gather([cwd]) == Gather([cwd, ""]) == Gather([cwd, cwd]) == cwd + "/";
    assert [cwd, a, ""][..2] == [cwd, a] && [cwd, a][..1] == [cwd];
  }

  /** A relative directory is taken from the working directory. */
  lemma RelativeDirectory(cwd: string, a: string, b: string)
    requires IsAbsolute(cwd) && !IsAbsolute(a) && !IsAbsolute(b)
    ensures Resolve(cwd, a, b) == Resolve(cwd, Resolve(cwd, cwd, a), b)
  {
    var dir := Resolve(cwd, cwd, a);
    ResolvedSegments(cwd, cwd, a);
    ResolveFolds(cwd, dir, b);
    ResolveFolds(cwd, cwd, a);
    if a == "" {
      GatheredHere(cwd, b);
      ResolveFolds(cwd, cwd, b);
      assert Fold(Segments(cwd), [""], false) == Segments(cwd);
    } else if b == "" {
      GatheredHere(cwd, a);
      assert Fold(Segments(dir), [""], false) == Segments(dir);
    } else {
      GatheredRelative(cwd, a, b);
      FoldEmptyLast([], Split(cwd) + Split(a) + Split(b));
      FoldConcat([], Split(cwd) + Split(a), Split(b), false);
      FoldConcat([], Split(cwd), Split(a), false);
    }
  }

  // ----- what is accepted -----

  /** Going up leaves the workspace, and the names must lead back into it. */
  predicate Reenters(dir: seq<string>, k: nat, names: seq<string>) {
    if k <= |dir| then dir[|dir| - k..] <= names else dir <= names
  }

  /**
   In a canonical workspace other than the root, a path of `k` times ".." and then names is accepted exactly when the
   names lead back through the directories left, and then it is the path they lead to.
   */
  lemma ClimbIsAccepted(cwd: string, dir: seq<string>, k: nat, names: seq<string>)
    requires IsAbsolute(cwd) && Names(dir) && dir != [] && Names(names)
    ensures ResolveWorkspacePath(cwd, Directory(dir), Climb(k, names)) ==
      if Reenters(dir, k, names) then Resolved(Directory(Above(dir, k) + names))
      else Rejected("Path escapes the workspace")
  {
    var target := Above(dir, k) + names;
    SegmentsOfJoin(dir);
    SegmentsOfJoin(target);
    ClimbIsRelative(k, names);
    ResolveClimbs(cwd, dir, k, names);
    JoinNamesIsNonempty(dir);
    AcceptsExactlyInside(cwd, Directory(dir), Climb(k, names));
    PrefixOfClimb(dir, k, names);
  }

  lemma PrefixOfClimb(dir: seq<string>, k: nat, names: seq<string>)
    ensures dir <= Above(dir, k) + names <==> Reenters(dir, k, names)
  {
    if k <= |dir| {
      var front, back := dir[..|dir| - k], dir[|dir| - k..];
      assert dir == front + back;
      if back <= names {
        assert front + names == dir + names[|back|..];
      }
      if dir <= front + names {
        assert back == (front + names)[|front|..|dir|] == names[..k];
      }
    } else {
      assert [] + names == names;
    }
  }

  /** Names are accepted as they are; ".." alone, however often, never is. */
  lemma NamesInsideDotDotOutside(cwd: string, dir: seq<string>, k: nat, names: seq<string>)
    requires IsAbsolute(cwd) && Names(dir) && dir != [] && Names(names) && names != [] && k >= 1
    ensures ResolveWorkspacePath(cwd, Directory(dir), Join(names)) == Resolved(Directory(dir + names))
    ensures ResolveWorkspacePath(cwd, Directory(dir), Join(Ups(k))) == Rejected("Path escapes the workspace")
  {
    ClimbIsAccepted(cwd, dir, 0, names);
    assert Ups(0) + names == names && Above(dir, 0) == dir;
    assert dir[|dir| - 0..] == [];
    ClimbIsAccepted(cwd, dir, k, []);
    assert Ups(k) + [] == Ups(k);
  }

  /** A path that starts with a slash is turned down as such, whatever the workspace; no other is. */
  lemma AbsoluteIsTurnedDown(cwd: string, dir: string, p: string)
    requires IsAbsolute(cwd)
    ensures p != "" && p[0] == '/' <==>
      ResolveWorkspacePath(cwd, dir, p) == Rejected("Paths must be relative to the workspace")
    ensures ResolveWorkspacePath(cwd, dir, p).Rejected? && !(p != "" && p[0] == '/') ==>
      ResolveWorkspacePath(cwd, dir, p) == Rejected("Path escapes the workspace")
  {
    assert MUST_BE_RELATIVE[1] != ESCAPES[1] || |MUST_BE_RELATIVE| != |ESCAPES|;
  }

  const HOME := ["home", "user"]

  lemma JoinFew(a: string, b: string, c: string)
    ensures Join([a]) == a && Join([a, b]) == a + "/" + b && Join([a, b, c]) == a + "/" + b + "/" + c
  {
    assert [a, b][1..] == [b] && [a, b, c][1..] == [b, c];
    assert Join([a, b, c]) == a + "/" + Join([b, c]);
    assert Join([b, c]) == b + "/" + Join([c]);
    assert [b, c][1..] == [c];
    assert a + "/" + (b + "/" + c) == a + "/" + b + "/" + c;
  }

  lemma Home()
    ensures Directory(HOME) == "/home/user" && Names(HOME)
  {
    JoinFew("home", "user", "");
  }

  lemma UpOnce(a: string, b: string)
    ensures Climb(1, [a, b]) == "../" + a + "/" + b
  {
    assert Ups(1) + [a, b] == ["..", a, b];
    JoinFew("..", a, b);
  }

  lemma UpAndAway(a: string, b: string)
    requires Names([a, b]) && a != "user" && Names(HOME)
    ensures ResolveWorkspacePath("/", Directory(HOME), Climb(1, [a, b])) == Rejected("Path escapes the workspace")
  {
    assert HOME[2 - 1..] == ["user"];
    ClimbIsAccepted("/", HOME, 1, [a, b]);
  }

  lemma UpAndOut(a: string, b: string, p: string)
    requires IsName(a) && IsName(b) && a != "user" && p == "../" + a + "/" + b
    ensures ResolveWorkspacePath("/", "/home/user", p) == Rejected("Path escapes the workspace")
  {
    Home();
    UpOnce(a, b);
    UpAndAway(a, b);
  }

  /** A path out of the workspace of the tools. */
  lemma OutsideTheToolsWorkspace()
    ensures ResolveWorkspacePath("/", "/home/user", "../etc/passwd") == Rejected("Path escapes the workspace")
  {
    UpAndOut("etc", "passwd", "../etc/passwd");
  }

  /** A sibling directory is outside, even when its name begins with the workspace's. */
  lemma SiblingIsOutside()
    ensures ResolveWorkspacePath("/", "/home/user", "../user2/x") == Rejected("Path escapes the workspace")
  {
    UpAndOut("user2", "x", "../user2/x");
  }

  /** A path that leaves the workspace and comes back is accepted. */
  lemma BackInside()
    ensures ResolveWorkspacePath("/", "/home/user", "../user/x") == Resolved("/home/user/x")
  {
    Home();
    assert Ups(1) + ["user", "x"] == ["..", "user", "x"];
    JoinFew("..", "user", "x");
    JoinFew("home", "user", "x");
    assert Climb(1, ["user", "x"]) == "../user/x";
    assert Above(HOME, 1) == ["home"] && HOME[2 - 1..] == ["user"] && ["home"] + ["user", "x"] == ["home", "user", "x"];
    ClimbIsAccepted("/", HOME, 1, ["user", "x"]);
    assert Directory(["home", "user", "x"]) == "/home/user/x";
  }
}
