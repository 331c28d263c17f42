/** Character-level building blocks shared by the request parser, the
    handlers and the option scanner: C's `strtok` over a set of delimiter
    characters and the scans that skip a character class. */
module Strings {

  datatype Option<+T> = None | Some(value: T)

  datatype Result<+T, +E> = Ok(value: T) | Err(error: E)

  /** Every character of s belongs to d. */
  predicate AllIn(s: string, d: set<char>) {
    forall k :: 0 <= k < |s| ==> s[k] in d
  }

  /** No character of s belongs to d. */
  predicate NoneIn(s: string, d: set<char>) {
    forall k :: 0 <= k < |s| ==> s[k] !in d
  }

  /** Where a scan that starts at i and skips the characters of d stops:
      the first position at or after i holding a character outside d. */
  function SkipIn(s: string, d: set<char>, i: nat): (j: nat)
    requires i <= |s|
    ensures i <= j <= |s|
    ensures forall k :: i <= k < j ==> s[k] in d
    ensures j < |s| ==> s[j] !in d
    decreases |s| - i
  {
    if i == |s| || s[i] !in d then i else SkipIn(s, d, i + 1)
  }

  /** Where a scan that starts at i and stops at the first character of d
      stops (|s| when there is none). */
  function SkipOut(s: string, d: set<char>, i: nat): (j: nat)
    requires i <= |s|
    ensures i <= j <= |s|
    ensures forall k :: i <= k < j ==> s[k] !in d
    ensures j < |s| ==> s[j] in d
    decreases |s| - i
  {
    if i == |s| || s[i] in d then i else SkipOut(s, d, i + 1)
  }

  /** A scan skipping the characters of d stops at the first position
      holding a character outside d. */
  lemma SkipInAt(s: string, d: set<char>, i: nat, j: nat)
    requires i <= j <= |s|
    requires forall k :: i <= k < j ==> s[k] in d
    requires j == |s| || s[j] !in d
    ensures SkipIn(s, d, i) == j
  {
  }

  /** A scan stopping at the characters of d stops at the first position
      holding one. */
  lemma SkipOutAt(s: string, d: set<char>, i: nat, j: nat)
    requires i <= j <= |s|
    requires forall k :: i <= k < j ==> s[k] !in d
    requires j == |s| || s[j] in d
    ensures SkipOut(s, d, i) == j
  {
  }

  /** Position of a token inside the string strtok was given: the token is
      s[start..end]; when end < |s| the delimiter there is overwritten with
      NUL and the next call resumes just after it. */
  datatype Span = Span(start: nat, end: nat)

  /** C's strtok(s, d): skip the leading delimiters, then take the longest
      run of non-delimiters. None is strtok's NULL (nothing but delimiters). */
  function Strtok(s: string, d: set<char>): (t: Option<Span>)
    ensures t.None? <==> AllIn(s, d)
    ensures t.Some? ==> t.value.start < t.value.end <= |s|
    ensures t.Some? ==> forall k :: 0 <= k < t.value.start ==> s[k] in d
    ensures t.Some? ==> forall k :: t.value.start <= k < t.value.end ==> s[k] !in d
    ensures t.Some? && t.value.end < |s| ==> s[t.value.end] in d
  {
    var start := SkipIn(s, d, 0);
    if start == |s| then None else Some(Span(start, SkipOut(s, d, start)))
  }

  /** The text of a token. */
  function Text(s: string, t: Span): string
    requires t.start <= t.end <= |s|
  {
    s[t.start..t.end]
  }

  /** What a following strtok(NULL, ...) call scans: the text after the
      delimiter that ended the token, or nothing when the token ran to the
      end of the string. */
  function Rest(s: string, t: Span): string
    requires t.end <= |s|
  {
    if t.end < |s| then s[t.end + 1..] else []
  }

  /** strtok finds exactly the token that a decomposition of the string
      into delimiters, a run of non-delimiters and a delimited tail names. */
  lemma StrtokAt(lead: string, tok: string, tail: string, d: set<char>)
    requires AllIn(lead, d)
    requires tok != [] && NoneIn(tok, d)
    requires tail == [] || tail[0] in d
    ensures Strtok(lead + tok + tail, d) == Some(Span(|lead|, |lead| + |tok|))
    ensures Text(lead + tok + tail, Span(|lead|, |lead| + |tok|)) == tok
    ensures Rest(lead + tok + tail, Span(|lead|, |lead| + |tok|)) == if tail == [] then [] else tail[1..]
  {
    var s := lead + tok + tail;
    assert s[|lead|] == tok[0];
    var t := Strtok(s, d);
    assert t.Some?;
    var sp := t.value;
    assert sp.start == |lead|;
    assert sp.end == |lead| + |tok|;
    assert s[|lead|..|lead| + |tok|] == tok;
    if tail != [] {
      assert s[|lead| + |tok| + 1..] == tail[1..];
    }
  }

  /** A string with no delimiter is one whole token (or none when empty). */
  lemma StrtokWhole(s: string, d: set<char>)
    requires NoneIn(s, d)
    ensures s == [] ==> Strtok(s, d).None?
    ensures s != [] ==> Strtok(s, d) == Some(Span(0, |s|)) && Text(s, Span(0, |s|)) == s
    ensures Rest(s, Span(0, |s|)) == []
  {
    if s != [] {
      StrtokAt([], s, [], d);
      assert [] + s + [] == s;
    }
  }

  /** Dropping i elements and then j drops i + j. */
  lemma DropDrop<T>(s: seq<T>, i: nat, j: nat)
    requires i + j <= |s|
    ensures s[i..][j..] == s[i + j..]
  {
  }
}
