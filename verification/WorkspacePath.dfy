/** `resolveWorkspacePath`: which relative paths it accepts, and what it makes of them. */
module WorkspacePath {
  import opened Paths

  const MUST_BE_RELATIVE := "Paths must be relative to the workspace"
  const ESCAPES := "Path escapes the workspace"

  datatype Resolution = Resolved(path: string) | Rejected(message: string)

  predicate StartsWith(s: string, prefix: string) { prefix <= s }

  function ResolveWorkspacePath(cwd: string, workspaceDir: string, relativePath: string): Resolution
    requires IsAbsolute(cwd)
  {
    if IsAbsolute(relativePath) then Rejected(MUST_BE_RELATIVE)
    else
      var resolved := Resolve(cwd, workspaceDir, Normalize(relativePath));
      if resolved != workspaceDir && !StartsWith(resolved, workspaceDir + "/") then Rejected(ESCAPES)
      else Resolved(resolved)
  }

  /** The segments of an absolute path. */
  function Segments(p: string): seq<string> { Fold([], Split(p), false) }

  /** An absolute path in the form `resolve` returns. */
  predicate IsCanonical(p: string) { p == "/" + Join(Segments(p)) }

  // ----- canonical paths are segment lists -----

  lemma {:induction false} FoldNames(stack: seq<string>, segs: seq<string>)
    requires Names(segs)
    ensures Fold(stack, segs, false) == stack + segs
    decreases |segs|
  {
    if segs != [] {
      FoldNames(stack, segs[..|segs| - 1]);
      assert stack + segs == stack + segs[..|segs| - 1] + [segs[|segs| - 1]];
    }
  }

  /** The segments of "/" and joined names are the names. */
  lemma SegmentsOfJoin(names: seq<string>)
    requires Names(names)
    ensures Segments("/" + Join(names)) == names
    ensures IsCanonical("/" + Join(names))
  {
    assert "" + "/" + Join(names) == "/" + Join(names);
    SplitConcat("", Join(names));
    FoldConcat([], Split(""), Split(Join(names)), false);
    if names != [] {
      SplitInvertsJoin(names);
      FoldNames([], names);
      assert [] + names == names;
    }
  }

  lemma SegmentsAreNames(p: string)
    ensures Names(Segments(p))
  {
    SplitIsSlashFree(p);
    FoldKeepsNames([], Split(p));
  }

  // ----- resolve -----

  lemma FoldEmptyLast(stack: seq<string>, segs: seq<string>)
    ensures Fold(stack, segs + [""], false) == Fold(stack, segs, false)
  {
    FoldSnoc(stack, segs, "", false);
  }

  /** Resolving a relative path against an absolute one folds its segments over the other's. */
  lemma ResolveFolds(cwd: string, dir: string, p: string)
    requires IsAbsolute(cwd) && IsAbsolute(dir) && !IsAbsolute(p)
    ensures Resolve(cwd, dir, p) == "/" + Join(Fold(Segments(dir), Split(p), false))
  {
    assert [cwd, dir, p][..2] == [cwd, dir];
    assert Gather([cwd, dir]) == dir + "/";
    SplitConcat(dir, "");
    FoldConcat([], Split(dir), [""], false);
    FoldEmptyLast([], Split(dir));
    if p != "" {
      assert Gather([cwd, dir, p]) == dir + "/" + p + "/";
      SplitConcat(dir + "/" + p, "");
      assert dir + "/" + p + "/" + "" == dir + "/" + p + "/";
      SplitConcat(dir, p);
      FoldEmptyLast([], Split(dir) + Split(p));
      FoldConcat([], Split(dir), Split(p), false);
    } else {
      assert Gather([cwd, dir, p]) == dir + "/";
      assert dir + "/" + "" == dir + "/";
      FoldEmptyLast(Segments(dir), []);
      assert [] + [""] == [""];
    }
  }

  /** What `resolve` returns for an absolute directory and a relative path is canonical. */
  lemma ResolvedSegments(cwd: string, dir: string, p: string)
    requires IsAbsolute(cwd) && IsAbsolute(dir) && !IsAbsolute(p)
    ensures Segments(Resolve(cwd, dir, p)) == Fold(Segments(dir), Split(p), false)
    ensures IsCanonical(Resolve(cwd, dir, p))
  {
    ResolveFolds(cwd, dir, p);
    SegmentsAreNames(dir);
    SplitIsSlashFree(p);
    FoldKeepsNames(Segments(dir), Split(p));
    SegmentsOfJoin(Fold(Segments(dir), Split(p), false));
  }

  // ----- normalising first -----

  lemma {:induction false} JoinClimbIsRelative(q: seq<string>)
    requires IsClimb(q)
    ensures q != [] ==> Join(q) != "" && !IsAbsolute(Join(q))
  {
  }

  /** The segments of a relative path's normal form, up to "." and a trailing slash. */
  lemma NormalizedFolds(base: seq<string>, p: string)
    requires Names(base) && !IsAbsolute(p)
    ensures !IsAbsolute(Normalize(p))
    ensures Fold(base, Split(Normalize(p)), false) == Fold(base, Fold([], Split(p), true), false)
  {
    SplitIsSlashFree(p);
    var q := Fold([], Split(p), true);
    FoldClimbs(Split(p));
    JoinClimbIsRelative(q);
    if p == "" {
      SplitSlashFree(".");
    } else {
      assert "" + Join(q) == Join(q);
      NormalFormFolds(base, q, p[|p| - 1] == '/');
    }
  }

  lemma NormalFormFolds(base: seq<string>, q: seq<string>, trailing: bool)
    requires IsClimb(q)
    ensures var body := Join(q);
      var normal := if body == "" then (if trailing then "./" else ".") else body + if trailing then "/" else "";
      Fold(base, Split(normal), false) == Fold(base, q, false)
  {
    JoinClimbIsRelative(q);
    var body := if q == [] then "." else Join(q);
    if q == [] {
      SplitSlashFree(".");
      assert Fold(base, Split("."), false) == base;
    } else {
      SplitInvertsJoin(q);
    }
    SplitConcat(body, "");
    FoldEmptyLast(base, Split(body));
    assert body + "/" + "" == body + "/";
    assert body + "" == body;
  }

  /** Normalising a relative path first never changes what it resolves to. */
  lemma NormalizeFirstChangesNothing(cwd: string, dir: string, p: string)
    requires IsAbsolute(cwd) && IsAbsolute(dir) && !IsAbsolute(p)
    ensures Resolve(cwd, dir, Normalize(p)) == Resolve(cwd, dir, p)
  {
    SegmentsAreNames(dir);
    SplitIsSlashFree(p);
    NormalizedFolds(Segments(dir), p);
    FoldReduced(Segments(dir), Split(p));
    ResolveFolds(cwd, dir, p);
    ResolveFolds(cwd, dir, Normalize(p));
  }

  // ----- the prefix test -----

  lemma {:induction false} JoinNamesIsNonempty(names: seq<string>)
    requires names != [] && Names(names)
    ensures Join(names) != ""
  {
  }

  /** The string test on joined names is a test on the lists of names. */
  lemma PrefixTest(w: seq<string>, r: seq<string>)
    requires w != [] && Names(w) && Names(r)
    ensures var dir, path := "/" + Join(w), "/" + Join(r);
      path == dir || StartsWith(path, dir + "/") <==> w <= r
  {
    var dir, path := "/" + Join(w), "/" + Join(r);
    if w <= r {
      if |w| < |r| {
        assert r == w + r[|w|..];
        JoinConcat(w, r[|w|..]);
      } else {
        assert w == r;
      }
    }
    if path == dir || StartsWith(path, dir + "/") {
      PrefixTestSound(w, r);
    }
  }

  lemma PrefixTestSound(w: seq<string>, r: seq<string>)
    requires w != [] && Names(w) && Names(r)
    requires "/" + Join(r) == "/" + Join(w) || StartsWith("/" + Join(r), "/" + Join(w) + "/")
    ensures w <= r
  {
    var a, b := Join(w), Join(r);
    JoinNamesIsNonempty(w);
    assert b == ("/" + b)[1..] && a == ("/" + a)[1..];
    SplitInvertsJoin(w);
    if "/" + b == "/" + a {
      if r != [] {
        SplitInvertsJoin(r);
      }
    } else {
      var rest := ("/" + b)[|a| + 2..];
      assert "/" + b == "/" + a + "/" + rest;
      assert b == a + "/" + rest;
      SplitInvertsJoin(r);
      SplitConcat(a, rest);
    }
  }

  /**
   For a canonical workspace other than the root, a path is accepted exactly when it is relative and the workspace's
   segments are a prefix of the segments it resolves to, and the result is that path, free of empty, "." and ".."
   segments.
   */
  lemma AcceptsExactlyInside(cwd: string, dir: string, p: string)
    requires IsAbsolute(cwd) && IsCanonical(dir) && dir != "/"
    ensures var target := Resolve(cwd, dir, p);
      && (ResolveWorkspacePath(cwd, dir, p).Resolved? <==> !IsAbsolute(p) && Segments(dir) <= Segments(target))
      && (ResolveWorkspacePath(cwd, dir, p).Resolved? ==>
            && ResolveWorkspacePath(cwd, dir, p).path == target
            && target == "/" + Join(Segments(target))
            && Names(Segments(target)))
  {
    assert IsAbsolute(dir);
    if !IsAbsolute(p) {
      NormalizeFirstChangesNothing(cwd, dir, p);
      ResolvedSegments(cwd, dir, p);
      SegmentsAreNames(dir);
      var target := Resolve(cwd, dir, p);
      SegmentsAreNames(target);
      PrefixTest(Segments(dir), Segments(target));
    }
  }

  lemma RootedOnce(names: seq<string>)
    requires Names(names)
    ensures !StartsWith("/" + Join(names), "//")
  {
    if names != [] {
      JoinClimbIsRelative(names);
      assert ("/" + Join(names))[1] == Join(names)[0];
      assert "//"[1] == '/';
    }
  }

  /** With the root as workspace the test accepts nothing but the root itself, though every path is inside. */
  lemma RootAcceptsOnlyItself(cwd: string, p: string)
    requires IsAbsolute(cwd) && !IsAbsolute(p)
    ensures IsCanonical("/") && Segments("/") == []
    ensures ResolveWorkspacePath(cwd, "/", p).Resolved? <==> Resolve(cwd, "/", p) == "/"
  {
    SegmentsOfJoin([]);
    assert "/" + Join([]) == "/";
    NormalizeFirstChangesNothing(cwd, "/", p);
    ResolvedSegments(cwd, "/", p);
    var target := Resolve(cwd, "/", p);
    SegmentsAreNames(target);
    RootedOnce(Segments(target));
  }

  /** The string test means "inside the workspace" exactly when that is not the root, or the path resolves to it. */
  lemma StringTestMeansInside(cwd: string, dir: string, p: string)
    requires IsAbsolute(cwd) && IsCanonical(dir) && !IsAbsolute(p)
    ensures var target := Resolve(cwd, dir, p);
      (ResolveWorkspacePath(cwd, dir, p).Resolved? <==> Segments(dir) <= Segments(target)) <==>
      (dir != "/" || target == "/")
  {
    if dir == "/" {
      RootAcceptsOnlyItself(cwd, p);
    } else {
      AcceptsExactlyInside(cwd, dir, p);
    }
  }

  // ----- every other workspace -----

  /** A directory that joined names lie under, by the string test, is made of names itself. */
  lemma UnderIsCanonical(dir: string, names: seq<string>)
    requires IsAbsolute(dir) && Names(names) && StartsWith("/" + Join(names), dir + "/")
    ensures IsCanonical(dir)
  {
    var path, inner := "/" + Join(names), dir[1..];
    assert dir == "/" + inner;
    var rest := path[|dir| + 1..];
    assert path == dir + "/" + rest;
    assert Join(names) == path[1..] == inner + "/" + rest;
    assert names != [];
    SplitInvertsJoin(names);
    SplitConcat(inner, rest);
    assert Split(inner) == names[..|Split(inner)|];
    JoinInvertsSplit(inner);
    SegmentsOfJoin(Split(inner));
  }

  /** Joining inverts splitting. */
  lemma {:induction false} JoinInvertsSplit(s: string)
    ensures Join(Split(s)) == s
  {
    if s != "" {
      var rest := Split(s[1..]);
      JoinInvertsSplit(s[1..]);
      if s[0] == '/' {
        assert ([""] + rest)[1..] == rest;
        assert Join([""] + rest) == "" + "/" + s[1..];
      } else {
        var first := [s[0]] + rest[0];
        assert ([first] + rest[1..])[1..] == rest[1..];
        assert s == [s[0]] + s[1..];
      }
    }
  }

  lemma ResolvesToNames(cwd: string, dir: string, p: string) returns (names: seq<string>)
    requires IsAbsolute(cwd)
    ensures Names(names) && Resolve(cwd, dir, p) == "/" + Join(names)
  {
    var all := Gather([cwd, dir, p]);
    SplitIsSlashFree(all);
    FoldKeepsNames([], Split(all));
    names := Fold([], Split(all), false);
  }

  /** What is accepted for a workspace that is not canonical: everything for the empty string, and nothing else. */
  lemma OtherWorkspaces(cwd: string, dir: string, p: string)
    requires IsAbsolute(cwd) && !IsCanonical(dir)
    ensures ResolveWorkspacePath(cwd, dir, p).Resolved? <==> !IsAbsolute(p) && dir == ""
  {
    if !IsAbsolute(p) {
      var names := ResolvesToNames(cwd, dir, Normalize(p));
      var target := Resolve(cwd, dir, Normalize(p));
      SegmentsOfJoin(names);
      if dir == "" {
        assert dir + "/" == "/" && target[..1] == "/";
      } else if IsAbsolute(dir) {
        if StartsWith(target, dir + "/") {
          UnderIsCanonical(dir, names);
        }
      } else {
        assert target[0] == '/' && (dir + "/")[0] == dir[0];
      }
    }
  }

  /**
   For every workspace directory whatever: the accepted paths are relative, and they are those that resolve inside a
   canonical workspace, the root itself alone when that is the root, all of them when the workspace is the empty
   string, and none otherwise.
   */
  lemma AcceptedExactly(cwd: string, dir: string, p: string)
    requires IsAbsolute(cwd)
    ensures var target := Resolve(cwd, dir, p);
      ResolveWorkspacePath(cwd, dir, p).Resolved? <==>
      && !IsAbsolute(p)
      && (if dir == "" then true
          else if dir == "/" then target == "/"
          else IsCanonical(dir) && Segments(dir) <= Segments(target))
  {
    if dir == "/" {
      SegmentsOfJoin([]);
      assert "/" + Join([]) == "/";
      if !IsAbsolute(p) {
        RootAcceptsOnlyItself(cwd, p);
      }
    } else if IsCanonical(dir) {
      AcceptsExactlyInside(cwd, dir, p);
    } else {
      OtherWorkspaces(cwd, dir, p);
    }
  }

  /** In the root workspace "a" is turned down. */
  lemma RootRejectsAName()
    ensures ResolveWorkspacePath("/", "/", "a") == Rejected(ESCAPES)
  {
    RootAcceptsOnlyItself("/", "a");
    SegmentsOfJoin([]);
    assert "/" + Join([]) == "/";
    ResolveFolds("/", "/", "a");
    SplitSlashFree("a");
    FoldNames([], ["a"]);
    assert [] + ["a"] == ["a"];
  }
}
