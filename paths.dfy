/** File paths as sequences of components, resolved lexically the way
    `pathlib.Path.resolve` treats a path without symbolic links. */
module Paths {
  import Text

  /** Index of the first '/' in `s`, or `|s|` when there is none. */
  function SlashIndex(s: string): (i: nat)
    ensures i <= |s|
    ensures i < |s| ==> s[i] == '/'
    ensures forall k :: 0 <= k < i ==> s[k] != '/'
  {
    if |s| == 0 || s[0] == '/' then 0 else 1 + SlashIndex(s[1..])
  }

  /** `s.split("/")` */
  function Split(s: string): (parts: seq<string>)
    ensures |parts| > 0
    decreases |s|
  {
    var i := SlashIndex(s);
    if i == |s| then [s] else [s[..i]] + Split(s[i + 1..])
  }

  /** Splitting a path joined with '/' splits each side. */
  lemma {:induction false} SplitJoin(a: string, b: string)
    ensures Split(a + "/" + b) == Split(a) + Split(b)
    decreases |a|
  {
    var s := a + "/" + b;
    var i := SlashIndex(a);
    assert s == a + ("/" + b);
    assert SlashIndex("/" + b) == 0;
    if i == |a| {
      assert SlashIndex(s) == |a| by {
        SlashIndexPrefix(a, "/" + b);
      }
      assert s[..|a|] == a;
      assert s[|a| + 1..] == b;
    } else {
      assert SlashIndex(s) == i by {
        SlashIndexPrefix(a, "/" + b);
      }
      assert s[..i] == a[..i];
      assert s[i + 1..] == a[i + 1..] + "/" + b;
      SplitJoin(a[i + 1..], b);
    }
  }

  /** The first '/' of `a + rest` is the first of `a`, or else the first of `rest` shifted by `|a|`. */
  lemma {:induction false} SlashIndexPrefix(a: string, rest: string)
    ensures SlashIndex(a + rest) == if SlashIndex(a) < |a| then SlashIndex(a) else |a| + SlashIndex(rest)
    decreases |a|
  {
    if |a| > 0 && a[0] != '/' {
      assert (a + rest)[1..] == a[1..] + rest;
      SlashIndexPrefix(a[1..], rest);
    } else if |a| == 0 {
      assert a + rest == rest;
    }
  }

  /** A component that normalisation keeps as it is. */
  predicate Plain(name: string) {
    name != "" && name != "." && name != ".." && '/' !in name
  }

  /** Every component is plain: what a resolved path consists of. */
  predicate Canonical(parts: seq<string>) {
    forall k :: 0 <= k < |parts| ==> Plain(parts[k])
  }

  /** One step of lexical normalisation: empty and "." components vanish,
      ".." drops the last kept component (and stays at the root). */
  function Step(acc: seq<string>, part: string): seq<string> {
    if part == "" || part == "." then acc
    else if part == ".." then (if |acc| == 0 then acc else acc[..|acc| - 1])
    else acc + [part]
  }

  function Normalize(parts: seq<string>): seq<string>
    decreases |parts|
  {
    if |parts| == 0 then [] else Step(Normalize(parts[..|parts| - 1]), parts[|parts| - 1])
  }

  predicate IsAbsolute(p: string) {
    |p| > 0 && p[0] == '/'
  }

  /** `Path(p).resolve()` without symbolic links: a relative path is taken from
      the working directory `cwd`, then normalised. */
  function Resolve(p: string, cwd: string): seq<string> {
    if IsAbsolute(p) then Normalize(Split(p)) else Normalize(Split(cwd + "/" + p))
  }

  /** `str()` of a resolved path. */
  function Render(parts: seq<string>): string {
    "/" + Text.Join(parts, "/")
  }

  /** Splitting never yields a component with a '/'. */
  lemma {:induction false} SplitNoSlash(s: string)
    ensures forall k :: 0 <= k < |Split(s)| ==> '/' !in Split(s)[k]
    decreases |s|
  {
    var i := SlashIndex(s);
    if i < |s| {
      SplitNoSlash(s[i + 1..]);
    }
  }

  /** Normalising slash-free components gives a canonical path. */
  lemma {:induction false} NormalizeCanonical(parts: seq<string>)
    requires forall k :: 0 <= k < |parts| ==> '/' !in parts[k]
    ensures Canonical(Normalize(parts))
    decreases |parts|
  {
    if |parts| > 0 {
      NormalizeCanonical(parts[..|parts| - 1]);
    }
  }

  /** A canonical path is its own normal form. */
  lemma {:induction false} CanonicalFixed(parts: seq<string>)
    requires Canonical(parts)
    ensures Normalize(parts) == parts
    decreases |parts|
  {
    if |parts| > 0 {
      CanonicalFixed(parts[..|parts| - 1]);
      assert parts[..|parts| - 1] + [parts[|parts| - 1]] == parts;
    }
  }

  /** Resolving yields a canonical path, so resolving again changes nothing. */
  lemma ResolveCanonical(p: string, cwd: string)
    ensures Canonical(Resolve(p, cwd))
    ensures Normalize(Resolve(p, cwd)) == Resolve(p, cwd)
  {
    SplitNoSlash(p);
    SplitNoSlash(cwd + "/" + p);
    NormalizeCanonical(Split(p));
    NormalizeCanonical(Split(cwd + "/" + p));
    CanonicalFixed(Resolve(p, cwd));
  }

  /** Appending one plain component appends it to the resolved path. */
  lemma NormalizeAppendPlain(parts: seq<string>, name: string)
    requires Plain(name)
    ensures Normalize(parts + [name]) == Normalize(parts) + [name]
  {
    assert (parts + [name])[..|parts|] == parts;
  }

  /** Appending ".." drops the last component of the resolved path. */
  lemma NormalizeAppendParent(parts: seq<string>)
    ensures var n := Normalize(parts);
            Normalize(parts + [".."]) == if |n| == 0 then n else n[..|n| - 1]
  {
    assert (parts + [".."])[..|parts|] == parts;
  }
}
