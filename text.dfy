/** The Python string operations the core relies on: case mapping, whitespace
    stripping, slicing with a bound, substring search and joining.
    Case mapping is ASCII only; stripping removes the full set of code points
    Python's `str.isspace` accepts. */
module Text {

  function LowerChar(c: char): char {
    if 'A' <= c <= 'Z' then (c as int + 32) as char else c
  }

  function UpperChar(c: char): char {
    if 'a' <= c <= 'z' then (c as int - 32) as char else c
  }

  /** `s.lower()` */
  function Lower(s: string): (r: string)
    ensures |r| == |s|
    ensures forall i :: 0 <= i < |s| ==> r[i] == LowerChar(s[i])
  {
    seq(|s|, i requires 0 <= i < |s| => LowerChar(s[i]))
  }

  /** `s.upper()` */
  function Upper(s: string): (r: string)
    ensures |r| == |s|
    ensures forall i :: 0 <= i < |s| ==> r[i] == UpperChar(s[i])
  {
    seq(|s|, i requires 0 <= i < |s| => UpperChar(s[i]))
  }

  /** Python's `str.isspace` for a single code point. */
  predicate IsSpace(c: char) {
    (9 <= c as int <= 13) || (28 <= c as int <= 32) || c as int == 0x85 || c as int == 0xA0
    || c as int == 0x1680 || (0x2000 <= c as int <= 0x200A) || c as int == 0x2028
    || c as int == 0x2029 || c as int == 0x202F || c as int == 0x205F || c as int == 0x3000
  }

  function TrimLeft(s: string): string {
    if |s| > 0 && IsSpace(s[0]) then TrimLeft(s[1..]) else s
  }

  function TrimRight(s: string): string {
    if |s| > 0 && IsSpace(s[|s| - 1]) then TrimRight(s[..|s| - 1]) else s
  }

  /** `lstrip` removes exactly the leading whitespace: what it keeps is a
      suffix that starts with a non-space, and what it drops is all space. */
  lemma {:induction false} TrimLeftSpec(s: string)
    ensures var r := TrimLeft(s);
      |r| <= |s| && r == s[|s| - |r|..] && (r == [] || !IsSpace(r[0])) &&
      forall i :: 0 <= i < |s| - |r| ==> IsSpace(s[i])
  {
    if |s| > 0 && IsSpace(s[0]) {
      var t := s[1..];
      TrimLeftSpec(t);
      var r := TrimLeft(t);
      assert TrimLeft(s) == r;
      assert t[|t| - |r|..] == s[|s| - |r|..];
      forall i | 0 <= i < |s| - |r| ensures IsSpace(s[i]) {
        if i > 0 {
          assert s[i] == t[i - 1];
        }
      }
    }
  }

  /** `rstrip` removes exactly the trailing whitespace. */
  lemma {:induction false} TrimRightSpec(s: string)
    ensures var r := TrimRight(s);
      |r| <= |s| && r == s[..|r|] && (r == [] || !IsSpace(r[|r| - 1])) &&
      forall i :: |r| <= i < |s| ==> IsSpace(s[i])
  {
    if |s| > 0 && IsSpace(s[|s| - 1]) {
      var t := s[..|s| - 1];
      TrimRightSpec(t);
      var r := TrimRight(t);
      assert TrimRight(s) == r;
      assert t[..|r|] == s[..|r|];
      forall i | |r| <= i < |s| ensures IsSpace(s[i]) {
        if i < |s| - 1 {
          assert s[i] == t[i];
        }
      }
    }
  }

  /** `s.strip()` */
  function Strip(s: string): string {
    TrimRight(TrimLeft(s))
  }

  /** A string is blank when `s.strip()` is empty: every character is whitespace. */
  lemma StripEmptyIff(s: string)
    ensures Strip(s) == "" <==> forall i :: 0 <= i < |s| ==> IsSpace(s[i])
  {
    var l := TrimLeft(s);
    TrimLeftSpec(s);
    TrimRightSpec(l);
    assert l != [] ==> l[0] == s[|s| - |l|];
  }

  /** `s[:n]` for a non-negative `n`. */
  function Take(s: string, n: nat): (r: string)
    ensures |r| == if n < |s| then n else |s|
    ensures r <= s
  {
    if n < |s| then s[..n] else s
  }

  predicate StartsWith(s: string, t: string) {
    |t| <= |s| && s[..|t|] == t
  }

  /** `t` occurs in `s` starting at index `i`. */
  predicate OccursAt(t: string, s: string, i: int) {
    0 <= i && i + |t| <= |s| && s[i..i + |t|] == t
  }

  /** `t in s`, as a left-to-right scan. */
  predicate Occurs(t: string, s: string)
    decreases |s|
  {
    StartsWith(s, t) || (|s| > 0 && Occurs(t, s[1..]))
  }

  /** The scan finds `t` exactly when it occurs at some index. */
  lemma {:induction false} OccursIff(t: string, s: string)
    ensures Occurs(t, s) <==> exists i :: OccursAt(t, s, i)
    decreases |s|
  {
    if StartsWith(s, t) {
      assert OccursAt(t, s, 0);
    } else if |s| > 0 {
      OccursIff(t, s[1..]);
      if Occurs(t, s[1..]) {
        var i :| OccursAt(t, s[1..], i);
        assert s[1..][i..i + |t|] == s[i + 1..i + 1 + |t|];
        assert OccursAt(t, s, i + 1);
      }
      if exists i :: OccursAt(t, s, i) {
        var i :| OccursAt(t, s, i);
        assert i != 0 ==> s[1..][i - 1..i - 1 + |t|] == s[i..i + |t|];
        assert i != 0 ==> OccursAt(t, s[1..], i - 1);
      }
    }
  }

  /** A witness index makes the scan succeed. */
  lemma OccursFromWitness(t: string, s: string, i: int)
    requires OccursAt(t, s, i)
    ensures Occurs(t, s)
  {
    OccursIff(t, s);
  }

  /** `sep.join(parts)` */
  function Join(parts: seq<string>, sep: string): string
    decreases |parts|
  {
    if |parts| == 0 then ""
    else if |parts| == 1 then parts[0]
    else Join(parts[..|parts| - 1], sep) + sep + parts[|parts| - 1]
  }
}
