/** The four PII patterns of the guard policy as explicit scanners, and the
    `re.sub` pass that replaces every match of one pattern with its token.

    Character classes follow the patterns: `\d` is an ASCII digit, `\b` a change
    between a word character (ASCII letter, digit, '_') and a non-word
    character or the ends of the text. */
module Pii {
  import opened Wrappers
  import Text

  /** The PII categories, one per pattern. */
  datatype Kind = Email | Ssn | Phone | CreditCard

  /** The pattern table, in the order the masking passes run. */
  const PiiTable: seq<Kind> := [Email, Ssn, Phone, CreditCard]

  function TypeName(k: Kind): string {
    match k
    case Email => "email"
    case Ssn => "ssn"
    case Phone => "phone"
    case CreditCard => "credit_card"
  }

  /** The replacement of pattern `k`; `TokenFormat` shows it is
      `f"[REDACTED_{pii_type.upper()}]"`. */
  function Token(k: Kind): string {
    match k
    case Email => "[REDACTED_EMAIL]"
    case Ssn => "[REDACTED_SSN]"
    case Phone => "[REDACTED_PHONE]"
    case CreditCard => "[REDACTED_CREDIT_CARD]"
  }

  predicate IsDigit(c: char) {
    '0' <= c <= '9'
  }

  predicate IsLetter(c: char) {
    ('A' <= c <= 'Z') || ('a' <= c <= 'z')
  }

  predicate IsWordChar(c: char) {
    IsDigit(c) || IsLetter(c) || c == '_'
  }

  /** `\b` at position `p` of `s`. */
  predicate Boundary(s: string, p: int)
    requires 0 <= p <= |s|
  {
    (p > 0 && IsWordChar(s[p - 1])) != (p < |s| && IsWordChar(s[p]))
  }

  // ---------------------------------------------------------------------
  // Fixed-width patterns: SSN, phone and credit card

  /** The shape of a fixed-width pattern: 'd' stands for `\d`, any other
      character for itself. */
  function Shape(k: Kind): string
    requires k != Email
  {
    if k == Ssn then "ddd-dd-dddd"
    else if k == Phone then "ddd.ddd.dddd"
    else "dddddddddddddddd"
  }

  predicate Fits(pattern: char, c: char) {
    if pattern == 'd' then IsDigit(c) else c == pattern
  }

  predicate ShapeAt(shape: string, s: string, i: nat) {
    i + |shape| <= |s| && forall q :: 0 <= q < |shape| ==> Fits(shape[q], s[i + q])
  }

  /** `\b<shape>\b` tried at position `i`: the end of the match, if any. */
  function FixedAt(shape: string, s: string, i: nat): Option<nat>
    requires i <= |s|
  {
    if ShapeAt(shape, s, i) && Boundary(s, i) && Boundary(s, i + |shape|) then Some(i + |shape|) else None
  }

  // ---------------------------------------------------------------------
  // The email pattern `\b[A-Za-z0-9._%+-]+@[A-Za-z0-9.-]+\.[A-Z|a-z]{2,}\b`

  datatype CharClass = Local | Domain | Tld

  predicate InClass(cls: CharClass, c: char) {
    match cls
    case Local => IsLetter(c) || IsDigit(c) || c in "._%+-"
    case Domain => IsLetter(c) || IsDigit(c) || c == '.' || c == '-'
    case Tld => IsLetter(c) || c == '|'
  }

  /** The end of the longest run of `cls` characters starting at `i`. */
  function RunEnd(s: string, i: nat, cls: CharClass): (j: nat)
    requires i <= |s|
    ensures i <= j <= |s|
    ensures forall p :: i <= p < j ==> InClass(cls, s[p])
    ensures j < |s| ==> !InClass(cls, s[j])
    decreases |s| - i
  {
    if i < |s| && InClass(cls, s[i]) then RunEnd(s, i + 1, cls) else i
  }

  /** `[A-Z|a-z]{2,}\b` from `start`, trying `len`, `len - 1`, ..., 2 characters
      (greedy, then backtracking). */
  function TldTry(s: string, start: nat, len: nat): (r: Option<nat>)
    requires start + len <= |s|
    ensures r.Some? ==> start + 2 <= r.value <= start + len
    decreases len
  {
    if len < 2 then None
    else if Boundary(s, start + len) then Some(start + len)
    else TldTry(s, start, len - 1)
  }

  /** The domain part ending before `d`, `d - 1`, ..., `lo`, each followed by `\.`
      and a top-level domain (greedy, then backtracking). */
  function DomainTry(s: string, lo: nat, d: nat): (r: Option<nat>)
    requires 1 <= lo && d <= |s|
    ensures r.Some? ==> lo < r.value <= |s|
    decreases d
  {
    if d < lo then None
    else
      var here := if d < |s| && s[d] == '.' then TldTry(s, d + 1, RunEnd(s, d + 1, Tld) - (d + 1)) else None;
      if here.Some? then here else DomainTry(s, lo, d - 1)
  }

  /** The email pattern tried at position `i`. The local part is the whole run of
      local characters: a shorter one would leave a local character where '@'
      must stand. */
  function EmailAt(s: string, i: nat): (r: Option<nat>)
    requires i <= |s|
    ensures r.Some? ==> i < r.value <= |s|
  {
    if !(i < |s| && InClass(Local, s[i]) && Boundary(s, i)) then None
    else
      var j := RunEnd(s, i, Local);
      if !(j < |s| && s[j] == '@') then None
      else DomainTry(s, j + 2, RunEnd(s, j + 1, Domain))
  }

  /** Pattern `k` tried at position `i`: the end of its match, if any. */
  function MatchAt(k: Kind, s: string, i: nat): (r: Option<nat>)
    requires i <= |s|
    ensures r.Some? ==> i < r.value <= |s|
  {
    if k == Email then EmailAt(s, i) else FixedAt(Shape(k), s, i)
  }

  /** Some match of `k` starts at or after `i` (the list `re.findall` returns is non-empty). */
  predicate HasMatchFrom(k: Kind, s: string, i: nat)
    requires i <= |s|
    decreases |s| - i
  {
    i < |s| && (MatchAt(k, s, i).Some? || HasMatchFrom(k, s, i + 1))
  }

  /** `re.sub(pattern_k, token_k, s[i..])`: scan left to right, replace each match
      by the token and resume after it. */
  function Substitute(k: Kind, s: string, i: nat): string
    requires i <= |s|
    decreases |s| - i
  {
    if i == |s| then ""
    else
      var m := MatchAt(k, s, i);
      if m.Some? then Token(k) + Substitute(k, s, m.value)
      else [s[i]] + Substitute(k, s, i + 1)
  }

  // ---------------------------------------------------------------------
  // Properties

  /** A match starts with a digit or a local-part character, never with '['. */
  lemma MatchStart(k: Kind, s: string, i: nat)
    requires i <= |s| && MatchAt(k, s, i).Some?
    ensures s[i] != '['
  {
    if k != Email {
      assert Fits(Shape(k)[0], s[i]);
    }
  }

  /** A fixed-width match consists of digits, '-' and '.' only. */
  lemma FixedMatchChars(k: Kind, s: string, i: nat)
    requires k != Email && i <= |s| && MatchAt(k, s, i).Some?
    ensures forall p :: i <= p < MatchAt(k, s, i).value ==> IsDigit(s[p]) || s[p] == '-' || s[p] == '.'
  {
    var shape := Shape(k);
    forall p | i <= p < MatchAt(k, s, i).value
      ensures IsDigit(s[p]) || s[p] == '-' || s[p] == '.'
    {
      assert Fits(shape[p - i], s[i + (p - i)]);
    }
  }

  /** Each token is the type name upper-cased inside `[REDACTED_...]`. */
  lemma TokenFormat(k: Kind)
    ensures Token(k) == "[REDACTED_" + Text.Upper(TypeName(k)) + "]"
  {
    match k
    case Email => UpperName("email", "EMAIL");
    case Ssn => UpperName("ssn", "SSN");
    case Phone => UpperName("phone", "PHONE");
    case CreditCard => UpperName("credit_card", "CREDIT_CARD");
  }

  /** Upper-casing a lower-case name character by character. */
  lemma UpperName(name: string, upper: string)
    requires |name| == |upper|
    requires forall q :: 0 <= q < |name| ==> Text.UpperChar(name[q]) == upper[q]
    ensures Text.Upper(name) == upper
  {
  }

  /** No token contains '@', a digit, '-' or '.'. */
  lemma TokenChars(k: Kind)
    ensures forall q :: 0 <= q < |Token(k)| ==>
      var c := Token(k)[q]; !IsDigit(c) && c != '@' && c != '-' && c != '.'
  {
  }

  /** A fixed-width pattern never matches across a token put in by an earlier
      pass: its match lies wholly before or wholly after the token. */
  lemma PlaceholderOpaque(k: Kind, u: string, t: Kind, v: string, i: nat)
    requires k != Email
    requires i <= |u + Token(t) + v| && MatchAt(k, u + Token(t) + v, i).Some?
    ensures var e := MatchAt(k, u + Token(t) + v, i).value;
            e <= |u| || |u| + |Token(t)| <= i
  {
    var s := u + Token(t) + v;
    var e := MatchAt(k, s, i).value;
    FixedMatchChars(k, s, i);
    TokenChars(t);
    forall p | |u| <= p < |u| + |Token(t)| ensures s[p] == Token(t)[p - |u|] && !(i <= p < e) {
      assert s[p] == Token(t)[p - |u|];
    }
    var p := if i < |u| then |u| else i;
    if p < |u| + |Token(t)| {
      assert s[p] == Token(t)[p - |u|];
      assert e <= p;
    }
  }

  /** With no match from `i` on, the pass copies the text. */
  lemma {:induction false} SubstituteNoMatch(k: Kind, s: string, i: nat)
    requires i <= |s| && !HasMatchFrom(k, s, i)
    ensures Substitute(k, s, i) == s[i..]
    decreases |s| - i
  {
    if i < |s| {
      SubstituteNoMatch(k, s, i + 1);
      assert s[i..] == [s[i]] + s[i + 1..];
    }
  }

  /** A pass leaves the text unchanged exactly when the pattern matches nowhere in it. */
  lemma {:induction false} SubstituteUnchangedIff(k: Kind, s: string, i: nat)
    requires i <= |s|
    ensures Substitute(k, s, i) == s[i..] <==> !HasMatchFrom(k, s, i)
    decreases |s| - i
  {
    if i < |s| {
      assert s[i..] == [s[i]] + s[i + 1..];
      if MatchAt(k, s, i).Some? {
        MatchStart(k, s, i);
        SubstituteHit(k, s, i);
        assert Token(k)[0] == '[';
        assert Substitute(k, s, i)[0] != s[i..][0];
      } else {
        SubstituteUnchangedIff(k, s, i + 1);
        SubstituteSkip(k, s, i);
        assert HasMatchFrom(k, s, i) == HasMatchFrom(k, s, i + 1);
      }
    }
  }

  /** A position without a match copies its character. */
  lemma SubstituteSkip(k: Kind, s: string, i: nat)
    requires i < |s| && MatchAt(k, s, i).None?
    ensures Substitute(k, s, i) == [s[i]] + Substitute(k, s, i + 1)
  {
  }

  /** A position with a match puts the token in and resumes after the match. */
  lemma SubstituteHit(k: Kind, s: string, j: nat)
    requires j < |s| && MatchAt(k, s, j).Some?
    ensures Substitute(k, s, j) == Token(k) + Substitute(k, s, MatchAt(k, s, j).value)
  {
  }

  lemma ConsAssoc(s: string, i: nat, j: nat, t: string)
    requires i < j <= |s|
    ensures [s[i]] + (s[i + 1..j] + t) == s[i..j] + t
  {
    assert s[i..j] == [s[i]] + s[i + 1..j];
  }

  /** Text with a match at `j` and none between `i` and `j` keeps `s[i..j]` and
      puts the token where the match was. */
  lemma {:induction false} SubstituteFirstMatch(k: Kind, s: string, i: nat, j: nat)
    requires i <= j < |s| && MatchAt(k, s, j).Some?
    requires forall p :: i <= p < j ==> MatchAt(k, s, p).None?
    ensures Substitute(k, s, i) == s[i..j] + (Token(k) + Substitute(k, s, MatchAt(k, s, j).value))
    decreases j - i
  {
    if i < j {
      SubstituteSkip(k, s, i);
      SubstituteFirstMatch(k, s, i + 1, j);
      ConsAssoc(s, i, j, Token(k) + Substitute(k, s, MatchAt(k, s, j).value));
    } else {
      SubstituteHit(k, s, j);
      assert s[i..j] == "";
    }
  }
}
