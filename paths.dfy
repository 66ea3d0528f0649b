/**
 * Lexical path operations of Python's `posixpath` and Go's `path/filepath`
 * on POSIX: splitting off the base name, joining, and normalisation
 * (`posixpath.normpath`, `filepath.Clean`).
 */
module Paths {
  import opened Text

  /** The index just past the last '/', or 0 when there is none. */
  function BaseStart(p: String): (i: nat)
    ensures i <= |p|
    ensures '/' !in p[i..]
    ensures i > 0 ==> p[i - 1] == '/'
  {
    if p == [] then 0
    else if p[|p| - 1] == '/' then |p|
    else BaseStart(p[..|p| - 1])
  }

  predicate AllSlashes(s: String) { forall i :: 0 <= i < |s| ==> s[i] == '/' }

  /** `posixpath.split(p)`: the head loses its trailing slashes unless it is made only of slashes. */
  function PySplit(p: String): (r: (String, String))
    ensures r.1 == p[BaseStart(p)..]
  {
    var i := BaseStart(p);
    var head := p[..i];
    if head != [] && !AllSlashes(head) then (TrimRight(head, c => c == '/'), p[i..])
    else (head, p[i..])
  }

  /** A head that is empty or made only of slashes is kept as it is. */
  lemma {:induction false} PySplitKeepsHead(p: String)
    requires var i := BaseStart(p); i == 0 || AllSlashes(p[..i])
    ensures PySplit(p) == (p[..BaseStart(p)], p[BaseStart(p)..])
  {
  }

  /** A head ending in exactly one slash loses that slash. */
  lemma {:induction false} PySplitDropsSlash(p: String)
    requires var i := BaseStart(p); i >= 2 && p[i - 2] != '/'
    ensures PySplit(p) == (p[..BaseStart(p) - 1], p[BaseStart(p)..])
  {
    var i := BaseStart(p);
    var head := p[..i];
    var slash := (c: char) => c == '/';
    assert head[..|head| - 1] == p[..i - 1];
    assert TrailingCount(p[..i - 1], slash) == 0 by {
      TrailingCountZero(p[..i - 1], slash);
    }
    assert TrimRight(head, slash) == p[..i - 1];
    assert !AllSlashes(head) by { assert head[i - 2] != '/'; }
  }

  /** `posixpath.join(a, b)` for two components. */
  function PyJoin(a: String, b: String): (r: String)
  {
    if StartsWith(b, "/") then b
    else if a == [] || EndsWith(a, "/") then a + b
    else a + "/" + b
  }

  /** A relative component is appended to a directory that already ends in '/' (or is empty). */
  lemma {:induction false} PyJoinOntoDir(a: String, b: String)
    requires a == [] || a[|a| - 1] == '/'
    requires b != [] && b[0] != '/'
    ensures PyJoin(a, b) == a + b
  {
    assert !StartsWith(b, "/") by { assert b[..1] != "/"; }
  }

  /** Otherwise a '/' goes between them. */
  lemma {:induction false} PyJoinAddsSlash(a: String, b: String)
    requires a != [] && a[|a| - 1] != '/'
    requires b != [] && b[0] != '/'
    ensures PyJoin(a, b) == a + "/" + b
  {
    assert !StartsWith(b, "/") by { assert b[..1] != "/"; }
    assert !EndsWith(a, "/") by { assert a[|a| - 1..] != "/"; }
  }

  /** `posixpath.join(a, *parts)`. */
  function PyJoinAll(a: String, parts: seq<String>): String
    decreases |parts|
  {
    if parts == [] then a else PyJoinAll(PyJoin(a, parts[0]), parts[1..])
  }

  /** A component that neither starts nor ends with a slash. */
  predicate Unslashed(c: String) { c != [] && c[0] != '/' && c[|c| - 1] != '/' }

  /** Non-empty components without a slash are unslashed. */
  lemma {:induction false} UnslashedParts(parts: seq<String>)
    requires forall k :: 0 <= k < |parts| ==> parts[k] != [] && '/' !in parts[k]
    ensures forall k :: 0 <= k < |parts| ==> Unslashed(parts[k])
  {
    forall k | 0 <= k < |parts| ensures Unslashed(parts[k]) {
      var c := parts[k];
      assert c[0] in c && c[|c| - 1] in c;
    }
  }

  /** Joining unslashed components onto a non-empty path puts exactly one
    * '/' between consecutive parts. */
  lemma {:induction false} PyJoinAllPlain(a: String, parts: seq<String>)
    requires a != []
    requires forall k :: 0 <= k < |parts| ==> Unslashed(parts[k])
    ensures PyJoinAll(a, parts) ==
            if parts == [] then a else a + (if a[|a| - 1] == '/' then "" else "/") + Join(parts, '/')
    decreases |parts|
  {
    if parts != [] {
      var p0 := parts[0];
      var tail := parts[1..];
      var b := PyJoin(a, p0);
      PyJoinStep(a, p0);
      PyJoinAllPlain(b, tail);
      if tail != [] {
        var jt := Join(tail, '/');
        var x := a + (if a[|a| - 1] == '/' then "" else "/");
        assert Join(parts, '/') == p0 + "/" + jt;
        Assoc(x + p0, "/", jt);
        Assoc(x, p0, "/" + jt);
        Assoc(p0, "/", jt);
      }
    }
  }

  /** Joining an unslashed component onto a non-empty path. */
  lemma {:induction false} PyJoinStep(a: String, c: String)
    requires a != [] && Unslashed(c)
    ensures PyJoin(a, c) == a + (if a[|a| - 1] == '/' then "" else "/") + c
    ensures PyJoin(a, c) != [] && PyJoin(a, c)[|PyJoin(a, c)| - 1] != '/'
  {
    if a[|a| - 1] == '/' {
      PyJoinOntoDir(a, c);
    } else {
      PyJoinAddsSlash(a, c);
    }
  }

  /** Joining the components of an absolute file name whose components are
    * all non-empty onto the root puts the name right after the root. */
  lemma {:induction false} JoinOntoRoot(root: String, f: String)
    requires root != [] && root[|root| - 1] != '/'
    requires f != [] && f[0] == '/'
    requires forall k :: 0 <= k < |Split(f[1..], '/')| ==> Split(f[1..], '/')[k] != []
    ensures PyJoinAll(root, Split(f, '/')) == root + f
  {
    var rest := Split(f[1..], '/');
    assert Split(f, '/') == [[]] + rest by {
      assert f == [f[0]] + f[1..];
      SplitCons(f[0], f[1..], '/');
    }
    var a := root + "/";
    assert PyJoin(root, []) == a by {
      assert !StartsWith([], "/");
      assert !EndsWith(root, "/") by { assert root[|root| - 1..] != "/"; }
    }
    assert PyJoinAll(root, [[]] + rest) == PyJoinAll(a, rest) by {
      assert ([[]] + rest)[1..] == rest;
    }
    assert PyJoinAll(a, rest) == a + Join(rest, '/') by {
      assert a[|a| - 1] == '/';
      UnslashedParts(rest);
      PyJoinAllPlain(a, rest);
    }
    JoinSplit(f[1..], '/');
    assert f == "/" + f[1..];
    Assoc(root, "/", f[1..]);
  }

  /** `posixpath.join` always ends with its last argument. */
  lemma {:induction false} PyJoinAllEnds(a: String, parts: seq<String>)
    requires parts != []
    ensures EndsWith(PyJoinAll(a, parts), parts[|parts| - 1])
    decreases |parts|
  {
    if |parts| == 1 {
      var r := PyJoin(a, parts[0]);
      assert r[|r| - |parts[0]|..] == parts[0];
    } else {
      PyJoinAllEnds(PyJoin(a, parts[0]), parts[1..]);
    }
  }

  /** Joining one more component joins it onto the result so far. */
  lemma {:induction false} PyJoinAllAppend(a: String, parts: seq<String>, w: String)
    ensures PyJoinAll(a, parts + [w]) == PyJoin(PyJoinAll(a, parts), w)
    decreases |parts|
  {
    if parts == [] {
      assert parts + [w] == [w];
    } else {
      PyJoinAllAppend(PyJoin(a, parts[0]), parts[1..], w);
      assert (parts + [w])[1..] == parts[1..] + [w];
    }
  }

  /** The plain components, in order: "", "." and ".." dropped. */
  function PlainOnly(comps: seq<String>): (r: seq<String>)
    ensures forall k :: 0 <= k < |r| ==> Plain(r[k])
    ensures forall c :: c in r ==> c in comps
  {
    if comps == [] then []
    else
      assert forall c :: c in comps[1..] ==> c in comps;
      (if Plain(comps[0]) then [comps[0]] else []) + PlainOnly(comps[1..])
  }

  /** Components that are all plain pass through unchanged. */
  lemma {:induction false} PlainOnlyOfPlain(comps: seq<String>)
    requires forall k :: 0 <= k < |comps| ==> Plain(comps[k])
    ensures PlainOnly(comps) == comps
    decreases |comps|
  {
    if comps != [] {
      PlainOnlyOfPlain(comps[1..]);
    }
  }

  /** `filepath.Split(p)`: the directory keeps its trailing separator. */
  function GoSplit(p: String): (r: (String, String))
    ensures r.0 + r.1 == p
    ensures '/' !in r.1
  {
    var i := BaseStart(p);
    assert p[..i] + p[i..] == p;
    (p[..i], p[i..])
  }

  /** A component that normalisation keeps as it is. */
  predicate Plain(c: String) { c != [] && c != "." && c != ".." }

  /**
   * The component stack shared by `posixpath.normpath` and `filepath.Clean`:
   * empty and "." components vanish, ".." removes the previous plain
   * component, and a ".." that cannot be removed is kept in a relative path
   * and dropped in a rooted one.
   */
  function Normalize(stack: seq<String>, comps: seq<String>, rooted: bool): seq<String>
    decreases |comps|
  {
    if comps == [] then stack
    else
      var c := comps[0];
      if c == [] || c == "." then Normalize(stack, comps[1..], rooted)
      else if c != ".." then Normalize(stack + [c], comps[1..], rooted)
      else if stack != [] && stack[|stack| - 1] != ".." then Normalize(stack[..|stack| - 1], comps[1..], rooted)
      else if rooted then Normalize(stack, comps[1..], rooted)
      else Normalize(stack + [c], comps[1..], rooted)
  }

  /** Plain components and empty ones pass through normalisation: the plain ones are kept in order. */
  lemma {:induction false} NormalizePlain(stack: seq<String>, comps: seq<String>, rooted: bool)
    requires forall k :: 0 <= k < |comps| ==> comps[k] == [] || Plain(comps[k])
    ensures Normalize(stack, comps, rooted) == stack + NonEmpty(comps)
    decreases |comps|
  {
    if comps != [] {
      NormalizePlain(if comps[0] == [] then stack else stack + [comps[0]], comps[1..], rooted);
      if comps[0] != [] {
        assert stack + [comps[0]] + NonEmpty(comps[1..]) == stack + ([comps[0]] + NonEmpty(comps[1..]));
      }
    }
  }

  function NonEmpty(comps: seq<String>): (r: seq<String>)
    ensures forall k :: 0 <= k < |r| ==> r[k] != []
    ensures forall c :: c in r ==> c in comps
  {
    if comps == [] then []
    else if comps[0] == [] then NonEmpty(comps[1..])
    else [comps[0]] + NonEmpty(comps[1..])
  }

  /** Components as normalisation leaves them: no "" or ".", and no ".." under a root. */
  predicate NormalComponents(cs: seq<String>, rooted: bool)
  {
    forall k :: 0 <= k < |cs| ==> cs[k] != [] && cs[k] != "." && (rooted ==> cs[k] != "..")
  }

  /** What normalisation returns contains no "" or "." and, in a rooted path, no "..". */
  lemma {:induction false} NormalizeComponents(stack: seq<String>, comps: seq<String>, rooted: bool)
    requires NormalComponents(stack, rooted)
    ensures NormalComponents(Normalize(stack, comps, rooted), rooted)
    decreases |comps|
  {
    if comps != [] {
      var c := comps[0];
      if c == [] || c == "." {
        NormalizeComponents(stack, comps[1..], rooted);
      } else if c != ".." {
        NormalizeComponents(stack + [c], comps[1..], rooted);
      } else if stack != [] && stack[|stack| - 1] != ".." {
        NormalizeComponents(stack[..|stack| - 1], comps[1..], rooted);
      } else if rooted {
        NormalizeComponents(stack, comps[1..], rooted);
      } else {
        NormalizeComponents(stack + [c], comps[1..], rooted);
      }
    }
  }

  /** `filepath.Clean(p)` on POSIX. */
  function GoClean(p: String): String
  {
    if p == [] then "."
    else
      var rooted := p[0] == '/';
      var r := (if rooted then "/" else "") + Join(Normalize([], Split(p, '/'), rooted), '/');
      if r == [] then "." else r
  }

  /** Dropping empty components distributes over concatenation. */
  lemma {:induction false} NonEmptyConcat(a: seq<String>, b: seq<String>)
    ensures NonEmpty(a + b) == NonEmpty(a) + NonEmpty(b)
    decreases |a|
  {
    if a == [] {
      assert a + b == b;
    } else {
      NonEmptyConcat(a[1..], b);
      assert (a + b)[1..] == a[1..] + b;
    }
  }

  /** Components that are all non-empty are kept as they are. */
  lemma {:induction false} NonEmptyAll(cs: seq<String>)
    requires forall k :: 0 <= k < |cs| ==> cs[k] != []
    ensures NonEmpty(cs) == cs
    decreases |cs|
  {
    if cs != [] {
      NonEmptyAll(cs[1..]);
    }
  }

  /**
   * Cleaning a join of '/'-free components that are empty or plain, the last
   * one plain: the root is kept and the empty components vanish.
   */
  lemma {:induction false} GoCleanOfComponents(comps: seq<String>)
    requires |comps| >= 1 && Plain(comps[|comps| - 1])
    requires forall k :: 0 <= k < |comps| ==> '/' !in comps[k]
    requires forall k :: 0 <= k < |comps| ==> comps[k] == [] || Plain(comps[k])
    ensures GoClean(Join(comps, '/')) == (if comps[0] == [] then "/" else "") + Join(NonEmpty(comps), '/')
  {
    var p := Join(comps, '/');
    var rooted := comps[0] == [];
    assert p != [] && (p[0] == '/' <==> rooted) by { JoinStart(comps); }
    assert Split(p, '/') == comps by { SplitJoin(comps, '/'); }
    assert Normalize([], comps, rooted) == NonEmpty(comps) by { NormalizePlain([], comps, rooted); }
    var r := (if rooted then "/" else "") + Join(NonEmpty(comps), '/');
    assert r != [] by {
      if !rooted {
        assert NonEmpty(comps) == [comps[0]] + NonEmpty(comps[1..]);
        JoinFirst(NonEmpty(comps), '/');
      }
    }
    assert GoClean(p) == r;
  }

  /** A join of '/'-free components ending in a non-empty one is non-empty, and starts with '/' iff its first component is empty. */
  lemma {:induction false} JoinStart(comps: seq<String>)
    requires |comps| >= 1 && comps[|comps| - 1] != []
    requires forall k :: 0 <= k < |comps| ==> '/' !in comps[k]
    ensures var p := Join(comps, '/'); p != [] && (p[0] == '/' <==> comps[0] == [])
  {
    var p := Join(comps, '/');
    JoinLast(comps, '/');
    if comps[0] == [] {
      assert p == comps[0] + ['/'] + Join(comps[1..], '/');
    } else {
      JoinFirst(comps, '/');
      assert comps[0][0] in comps[0];
    }
  }

  /** `filepath.Join(a, b)`: empty elements are ignored and the result is cleaned. */
  function GoJoin(a: String, b: String): String
  {
    if a == [] && b == [] then []
    else if a == [] then GoClean(b)
    else if b == [] then GoClean(a)
    else GoClean(a + "/" + b)
  }

  /**
   * `posixpath.normpath(p)`: like Clean, except that exactly two leading
   * slashes are kept as two.
   */
  function PyNormPath(p: String): String
  {
    if p == [] then "."
    else
      var slashes := if !StartsWith(p, "/") then 0
                     else if StartsWith(p, "//") && !StartsWith(p, "///") then 2
                     else 1;
      var comps := Normalize([], Split(p, '/'), slashes > 0);
      var r := seq(slashes, _ => '/') + Join(comps, '/');
      if r == [] then "." else r
  }
}
