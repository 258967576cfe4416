/**
 POSIX paths as Node's path module treats them: `normalize` and `resolve` are a left fold over the segments between
 slashes. The strings are lexical; nothing is looked up in a file system.
 */
module Paths {

  predicate IsAbsolute(p: string) { p != "" && p[0] == '/' }

  /** The segments between slashes; one more than there are slashes. */
  function Split(s: string): (segs: seq<string>)
    ensures segs != []
  {
    if s == "" then [""]
    else
      var rest := Split(s[1..]);
      if s[0] == '/' then [""] + rest else [[s[0]] + rest[0]] + rest[1..]
  }

  function Join(segs: seq<string>): string {
    if segs == [] then ""
    else if |segs| == 1 then segs[0]
    else segs[0] + "/" + Join(segs[1..])
  }

  /** One segment: nothing, ".", ".." or a name. */
  function Step(stack: seq<string>, seg: string, allowAboveRoot: bool): seq<string> {
    if seg == "" || seg == "." then stack
    else if seg == ".." then
      if stack != [] && stack[|stack| - 1] != ".." then stack[..|stack| - 1]
      else if allowAboveRoot then stack + [seg]
      else stack
    else stack + [seg]
  }

  function Fold(stack: seq<string>, segs: seq<string>, allowAboveRoot: bool): seq<string> {
    if segs == [] then stack
    else Step(Fold(stack, segs[..|segs| - 1], allowAboveRoot), segs[|segs| - 1], allowAboveRoot)
  }

  function NormalizeString(p: string, allowAboveRoot: bool): string {
    Join(Fold([], Split(p), allowAboveRoot))
  }

  /** path.normalize */
  function Normalize(p: string): string {
    if p == "" then "."
    else
      var body := NormalizeString(p, !IsAbsolute(p));
      var trailing := p[|p| - 1] == '/';
      if body == "" then (if IsAbsolute(p) then "/" else if trailing then "./" else ".")
      else (if IsAbsolute(p) then "/" else "") + body + if trailing then "/" else ""
  }

  /** What path.resolve gathers from right to left, until a path is absolute. */
  function Gather(paths: seq<string>): string {
    if paths == [] then ""
    else
      var last, rest := paths[|paths| - 1], paths[..|paths| - 1];
      if IsAbsolute(last) then last + "/"
      else if last == "" then Gather(rest)
      else Gather(rest) + last + "/"
  }

  /** path.resolve of two paths, in working directory `cwd`. */
  function Resolve(cwd: string, a: string, b: string): string
    requires IsAbsolute(cwd)
  {
    "/" + NormalizeString(Gather([cwd, a, b]), false)
  }

  // ----- splitting and joining -----

  predicate SlashFree(s: string) { '/' !in s }

  lemma {:induction false} SplitConcat(a: string, b: string)
    ensures Split(a + "/" + b) == Split(a) + Split(b)
  {
    var s := a + "/" + b;
    if a == "" {
      assert s[1..] == b;
    } else {
      assert s[1..] == a[1..] + "/" + b;
      SplitConcat(a[1..], b);
    }
  }

  lemma {:induction false} SplitSlashFree(s: string)
    requires SlashFree(s)
    ensures Split(s) == [s]
  {
    if s != "" {
      assert SlashFree(s[1..]);
      SplitSlashFree(s[1..]);
      assert [s[0]] + s[1..] == s;
    }
  }

  lemma {:induction false} SplitIsSlashFree(s: string)
    ensures forall i :: 0 <= i < |Split(s)| ==> SlashFree(Split(s)[i])
  {
    if s != "" {
      SplitIsSlashFree(s[1..]);
    }
  }

  /** Splitting inverts joining. */
  lemma {:induction false} SplitInvertsJoin(segs: seq<string>)
    requires segs != [] && forall i :: 0 <= i < |segs| ==> SlashFree(segs[i])
    ensures Split(Join(segs)) == segs
  {
    SplitSlashFree(segs[0]);
    if |segs| > 1 {
      SplitConcat(segs[0], Join(segs[1..]));
      SplitInvertsJoin(segs[1..]);
    }
  }

  lemma {:induction false} JoinConcat(a: seq<string>, b: seq<string>)
    requires a != [] && b != []
    ensures Join(a + b) == Join(a) + "/" + Join(b)
  {
    if |a| == 1 {
      assert (a + b)[1..] == b;
    } else {
      assert (a + b)[1..] == a[1..] + b;
      JoinConcat(a[1..], b);
    }
  }

  // ----- folding -----

  lemma {:induction false} FoldConcat(stack: seq<string>, a: seq<string>, b: seq<string>, above: bool)
    ensures Fold(stack, a + b, above) == Fold(Fold(stack, a, above), b, above)
    decreases |b|
  {
    if b == [] {
      assert a + b == a;
    } else {
      var n := |a + b|;
      assert (a + b)[..n - 1] == a + b[..|b| - 1];
      FoldConcat(stack, a, b[..|b| - 1], above);
    }
  }

  /** A segment that names a file or directory. */
  predicate IsName(s: string) { s != "" && s != "." && s != ".." && SlashFree(s) }

  predicate Names(segs: seq<string>) { forall i :: 0 <= i < |segs| ==> IsName(segs[i]) }

  lemma {:induction false} FoldKeepsNames(stack: seq<string>, segs: seq<string>)
    requires Names(stack) && forall i :: 0 <= i < |segs| ==> SlashFree(segs[i])
    ensures Names(Fold(stack, segs, false))
    decreases |segs|
  {
    if segs != [] {
      FoldKeepsNames(stack, segs[..|segs| - 1]);
    }
  }

  /** A relative path's normal form: some "..", then names. */
  predicate IsClimb(segs: seq<string>) {
    forall i :: 0 <= i < |segs| ==> segs[i] == ".." || IsName(segs[i])
  }

  lemma {:induction false} FoldClimbs(segs: seq<string>)
    requires forall i :: 0 <= i < |segs| ==> SlashFree(segs[i])
    ensures IsClimb(Fold([], segs, true))
    decreases |segs|
  {
    if segs != [] {
      FoldClimbs(segs[..|segs| - 1]);
    }
  }

  lemma FoldSnoc(stack: seq<string>, segs: seq<string>, seg: string, above: bool)
    ensures Fold(stack, segs + [seg], above) == Step(Fold(stack, segs, above), seg, above)
  {
    assert (segs + [seg])[..|segs|] == segs;
  }

  /** Folding a path over a rooted stack, or first reducing the path on its own, leads to the same stack. */
  lemma {:induction false} FoldReduced(base: seq<string>, segs: seq<string>)
    requires Names(base) && forall i :: 0 <= i < |segs| ==> SlashFree(segs[i])
    ensures Fold(base, Fold([], segs, true), false) == Fold(base, segs, false)
    decreases |segs|
  {
    if segs != [] {
      var before, seg := segs[..|segs| - 1], segs[|segs| - 1];
      FoldReduced(base, before);
      FoldClimbs(before);
      FoldKeepsNames(base, before);
      StepReduced(base, Fold([], before, true), seg);
    }
  }

  lemma StepReduced(base: seq<string>, q: seq<string>, seg: string)
    requires IsClimb(q) && Names(Fold(base, q, false))
    ensures Fold(base, Step(q, seg, true), false) == Step(Fold(base, q, false), seg, false)
  {
    if seg == "" || seg == "." {
    } else if seg == ".." && q != [] && q[|q| - 1] != ".." {
      var p := q[..|q| - 1];
      assert Fold(base, q, false) == Fold(base, p, false) + [q[|q| - 1]];
    } else {
      FoldSnoc(base, q, seg, false);
    }
  }
}
