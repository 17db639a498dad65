/**
 * The one step of `std::path::Path` the line processor takes: `parent`, which drops
 * the last component of a `/`-separated path, ignoring trailing and repeated separators.
 */
module Paths {
  import opened Wrappers
  import opened Text

  /** Every character is the separator `/` (the empty string included). */
  predicate AllSlashes(s: string) {
    forall i :: 0 <= i < |s| ==> s[i] == '/'
  }

  /** A path component: non-empty and free of separators. */
  predicate IsSegment(s: string) {
    |s| > 0 && '/' !in s
  }

  /**
   * The shapes `parent` can return: the empty path (parent of a one-component relative
   * path), the root `/`, or a path that does not end in a separator.
   */
  predicate IsParentForm(d: string) {
    d == "" || d == "/" || d[|d| - 1] != '/'
  }

  /** `s` without its trailing separators. */
  function TrimTrailingSlashes(s: string): (r: string)
    ensures |r| <= |s| && r == s[..|r|]
    ensures forall i :: |r| <= i < |s| ==> s[i] == '/'
    ensures r == [] || r[|r| - 1] != '/'
  {
    if s == [] || s[|s| - 1] != '/' then s else TrimTrailingSlashes(s[..|s| - 1])
  }

  /** `s` without its leading separators. */
  function TrimLeadingSlashes(s: string): (r: string)
    ensures |r| <= |s| && r == s[|s| - |r|..]
    ensures forall i :: 0 <= i < |s| - |r| ==> s[i] == '/'
    ensures r == [] || r[0] != '/'
  {
    if s == [] || s[0] != '/' then s else TrimLeadingSlashes(s[1..])
  }

  /**
   * `Path::parent`: `None` for a path with no component to drop (the root, or the
   * empty path); otherwise the path up to its last component, with the separators
   * before that component removed, and the root kept when nothing else is left.
   */
  function Parent(p: string): Option<string> {
    var q := TrimTrailingSlashes(p);
    if q == [] then None
    else
      match LastIndex(q, '/')
      case None => Some("")
      case Some(i) =>
        var h := TrimTrailingSlashes(q[..i]);
        if h == [] then Some("/") else Some(h)
  }

  /** The path `dir` extended by one component, as the build tool would spell it. */
  function Join(dir: string, seg: string): string {
    if dir == "" then seg else if dir == "/" then "/" + seg else dir + "/" + seg
  }

  /** A path has no parent exactly when it is made of separators only (the root, or empty). */
  lemma ParentNone(p: string)
    ensures Parent(p).None? <==> AllSlashes(p)
  {
    var q := TrimTrailingSlashes(p);
    if q != [] {
      assert p[|q| - 1] == q[|q| - 1];
    }
  }

  /** Dropping the component that was just added gives back the directory: `parent(dir/seg) == dir`. */
  lemma ParentOfJoin(dir: string, seg: string)
    requires IsParentForm(dir) && IsSegment(seg)
    ensures Parent(Join(dir, seg)) == Some(dir)
  {
    var p := Join(dir, seg);
    assert p[|p| - 1] == seg[|seg| - 1];
    assert TrimTrailingSlashes(p) == p;
    if dir == "" {
      assert LastIndex(p, '/').None?;
    } else if dir == "/" {
      assert p[0] == '/' && p[1..] == seg;
      var i := LastIndex(p, '/').value;
      assert i == 0;
      assert TrimTrailingSlashes(p[..0]) == [];
    } else {
      assert p[|dir|] == '/' && p[|dir| + 1..] == seg;
      var i := LastIndex(p, '/').value;
      assert i == |dir|;
      assert p[..i] == dir;
    }
  }

  /** A string of separators followed by `s` loses exactly those separators. */
  lemma {:induction false} TrimLeadingAfterSlashes(pad: string, s: string)
    requires AllSlashes(pad) && (s == [] || s[0] != '/')
    ensures TrimLeadingSlashes(pad + s) == s
    decreases |pad|
  {
    if pad == [] {
      assert pad + s == s;
    } else {
      assert (pad + s)[1..] == pad[1..] + s;
      TrimLeadingAfterSlashes(pad[1..], s);
    }
  }

  /** `s` followed by separators loses exactly those separators. */
  lemma {:induction false} TrimTrailingBeforeSlashes(s: string, pad: string)
    requires AllSlashes(pad) && (s == [] || s[|s| - 1] != '/')
    ensures TrimTrailingSlashes(s + pad) == s
    decreases |pad|
  {
    if pad == [] {
      assert s + pad == s;
    } else {
      assert (s + pad)[..|s + pad| - 1] == s + pad[..|pad| - 1];
      TrimTrailingBeforeSlashes(s, pad[..|pad| - 1]);
    }
  }

  /** One component with separators on either side trims down to that component. */
  lemma PaddedSegment(pad: string, seg: string, tail: string)
    requires AllSlashes(pad) && IsSegment(seg) && AllSlashes(tail)
    ensures TrimTrailingSlashes(TrimLeadingSlashes(pad + seg + tail)) == seg
  {
    assert (seg + tail)[0] == seg[0];
    assert pad + seg + tail == pad + (seg + tail);
    TrimLeadingAfterSlashes(pad, seg + tail);
    TrimTrailingBeforeSlashes(seg, tail);
  }

  /**
   * `parent` removes exactly one component: the parent is a proper prefix of the path,
   * has one of the shapes `parent` returns, and what follows it is one component with
   * only separators around it. An absolute path keeps its root: its parent is absolute,
   * and a relative path's parent is relative (or empty).
   */
  lemma ParentSplit(p: string, r: string)
    requires Parent(p) == Some(r)
    ensures IsParentForm(r) && |r| < |p| && p[..|r|] == r
    ensures IsSegment(TrimTrailingSlashes(TrimLeadingSlashes(p[|r|..])))
    ensures p[0] == '/' ==> r != "" && r[0] == '/'
    ensures p[0] != '/' ==> r == "" || r[0] == p[0]
    ensures r == "" || r == "/" || p[|r|] == '/'
  {
    var q := TrimTrailingSlashes(p);
    var tail := p[|q|..];
    assert p == q + tail;
    assert q[0] == p[0];
    match LastIndex(q, '/')
    case None =>
      ParentSplitWhole(p, q, tail, r);
    case Some(i) =>
      var h := TrimTrailingSlashes(q[..i]);
      assert r == if h == [] then "/" else h;
      ParentSplitAt(p, q, tail, i, h, r);
  }

  /** The case of `ParentSplit` where the trimmed path `q` is a single relative component. */
  lemma ParentSplitWhole(p: string, q: string, tail: string, r: string)
    requires p == q + tail && AllSlashes(tail)
    requires q != [] && q[|q| - 1] != '/' && '/' !in q
    requires r == ""
    ensures IsParentForm(r) && |r| < |p| && p[..|r|] == r
    ensures IsSegment(TrimTrailingSlashes(TrimLeadingSlashes(p[|r|..])))
    ensures p[0] != '/'
  {
    assert p[|r|..] == [] + q + tail;
    PaddedSegment([], q, tail);
    assert q[0] != '/';
  }

  /**
   * The case of `ParentSplit` where the last component `q[i + 1..]` follows a separator
   * at index `i` and `h` is what stands before that separator, trailing separators removed.
   */
  lemma ParentSplitAt(p: string, q: string, tail: string, i: nat, h: string, r: string)
    requires p == q + tail && AllSlashes(tail)
    requires q != [] && q[|q| - 1] != '/'
    requires i < |q| && q[i] == '/' && '/' !in q[i + 1..]
    requires h == TrimTrailingSlashes(q[..i])
    requires r == if h == [] then "/" else h
    ensures IsParentForm(r) && |r| <= i + 1 && p[..|r|] == r
    ensures IsSegment(TrimTrailingSlashes(TrimLeadingSlashes(p[|r|..])))
    ensures r != "" && (q[0] == '/' <==> r[0] == '/')
    ensures r == "/" || p[|r|] == '/'
  {
    if h == [] {
      assert q[0] == '/';
      assert p[..|r|] == r;
    } else {
      assert h == q[..i][..|h|];
      assert p[..|r|] == r;
    }
    assert forall j :: |h| <= j < i ==> q[..i][j] == '/';
    PaddedTail(p, q, tail, i, |r|);
  }

  /** What follows the parent's end `start` is separators, the last component, separators. */
  lemma PaddedTail(p: string, q: string, tail: string, i: nat, start: nat)
    requires p == q + tail && AllSlashes(tail)
    requires q != [] && q[|q| - 1] != '/'
    requires i < |q| && q[i] == '/' && '/' !in q[i + 1..]
    requires start <= i + 1 && forall j :: start <= j < i ==> q[j] == '/'
    ensures IsSegment(TrimTrailingSlashes(TrimLeadingSlashes(p[start..])))
  {
    var seg := q[i + 1..];
    assert IsSegment(seg);
    var pad := q[start..i + 1];
    assert AllSlashes(pad);
    assert q[start..] == pad + seg;
    assert p[start..] == pad + seg + tail;
    PaddedSegment(pad, seg, tail);
  }
}
