/**
 * Splitting the base64 signature into header-sized pieces with
 * `signedCanonicalReq.match(/.{1,60}/g)`. In a JavaScript regular expression
 * `.` matches any character except a line terminator, so the split is modelled
 * on strings that may hold line terminators; the signature itself never holds
 * one. A `char` here is a whole character, where JavaScript's `.` (without the
 * `u` flag) takes one UTF-16 code unit; for base64 text, which is ASCII, the
 * two agree.
 */
module SignatureChunks {
  import opened Wrappers

  /** The most characters a single match of `.{1,60}` takes. */
  const ChunkSize: nat := 60

  /** The characters `.` does not match. */
  predicate IsLineTerminator(c: char)
  {
    c == '\n' || c == '\r' || c == '\U{2028}' || c == '\U{2029}'
  }

  predicate NoLineTerminator(s: string)
  {
    forall i :: 0 <= i < |s| ==> !IsLineTerminator(s[i])
  }

  function Min(a: int, b: int): int
  {
    if a <= b then a else b
  }

  /** How many characters the greedy `.{1,cap}` takes at the start of `s` (0 when it does not match there). */
  function RunLength(s: string, cap: nat): (n: nat)
    ensures n <= cap && n <= |s|
    ensures NoLineTerminator(s[..n])
    ensures n < cap && n < |s| ==> IsLineTerminator(s[n])
  {
    if cap == 0 || s == [] || IsLineTerminator(s[0]) then 0
    else
      var m := RunLength(s[1..], cap - 1);
      assert s[..m + 1] == [s[0]] + s[1..][..m];
      1 + m
  }

  /**
   * The successive matches of the global regular expression `/.{1,60}/g`:
   * where a match starts it takes as many matchable characters as it can, up
   * to 60; a line terminator where no match can start is skipped.
   */
  function Chunks(s: string): (cs: seq<string>)
    ensures forall i :: 0 <= i < |cs| ==> 1 <= |cs[i]| <= ChunkSize && NoLineTerminator(cs[i])
    decreases |s|
  {
    if s == [] then []
    else if IsLineTerminator(s[0]) then Chunks(s[1..])
    else
      var n := RunLength(s, ChunkSize);
      [s[..n]] + Chunks(s[n..])
  }

  /** `s.match(/.{1,60}/g)`: the list of matches, or null when nothing matches. */
  function Match(s: string): Option<seq<string>>
  {
    var cs := Chunks(s);
    if cs == [] then None else Some(cs)
  }

  function Concat(cs: seq<string>): string
  {
    if cs == [] then "" else cs[0] + Concat(cs[1..])
  }

  lemma ConcatFrom(cs: seq<string>, k: nat)
    requires k < |cs|
    ensures Concat(cs[k..]) == cs[k] + Concat(cs[k + 1..])
  {
    assert cs[k..][1..] == cs[k + 1..];
  }

  /** The characters of `s` that `.` can match, in their order. */
  function Matchable(s: string): string
  {
    if s == [] then ""
    else (if IsLineTerminator(s[0]) then "" else [s[0]]) + Matchable(s[1..])
  }

  lemma {:induction false} MatchableAppend(a: string, b: string)
    ensures Matchable(a + b) == Matchable(a) + Matchable(b)
  {
    if a == [] {
      assert a + b == b;
    } else {
      assert (a + b)[0] == a[0] && (a + b)[1..] == a[1..] + b;
      MatchableAppend(a[1..], b);
    }
  }

  lemma {:induction false} MatchableOfPlain(s: string)
    requires NoLineTerminator(s)
    ensures Matchable(s) == s
  {
    if s != [] {
      MatchableOfPlain(s[1..]);
    }
  }

  /** The matches, put back together, are exactly the matchable characters: nothing is lost, repeated or reordered. */
  lemma {:induction false} ChunksConcatenate(s: string)
    ensures Concat(Chunks(s)) == Matchable(s)
    decreases |s|
  {
    if s == [] {
    } else if IsLineTerminator(s[0]) {
      ChunksConcatenate(s[1..]);
    } else {
      var n := RunLength(s, ChunkSize);
      var cs := Chunks(s);
      assert cs[0] == s[..n] && cs[1..] == Chunks(s[n..]);
      ChunksConcatenate(s[n..]);
      MatchableOfPlain(s[..n]);
      MatchableAppend(s[..n], s[n..]);
      assert s[..n] + s[n..] == s;
    }
  }

  /** `match` yields null exactly when `s` has no character that `.` matches (in particular on the empty string). */
  lemma MatchIsNull(s: string)
    ensures Match(s).None? <==> Matchable(s) == ""
  {
    ChunksConcatenate(s);
    var cs := Chunks(s);
    if cs != [] {
      assert |Concat(cs)| >= |cs[0]| >= 1;
    }
  }

  /**
   * On a string without line terminators the matches are consecutive 60-character
   * slices, the last one holding the 1 to 60 characters that remain, and there
   * are ceil(|s| / 60) of them.
   */
  lemma {:induction false} ChunksOfPlain(s: string)
    requires NoLineTerminator(s)
    ensures |Chunks(s)| == (|s| + ChunkSize - 1) / ChunkSize
    ensures forall i :: 0 <= i < |Chunks(s)| ==>
      Chunks(s)[i] == s[ChunkSize * i .. Min(ChunkSize * (i + 1), |s|)]
    decreases |s|
  {
    if s != [] {
      var n := RunLength(s, ChunkSize);
      assert n == Min(ChunkSize, |s|);
      var rest := s[n..];
      var cs := Chunks(s);
      assert cs[0] == s[..n] && cs[1..] == Chunks(rest);
      PlainSuffix(s, n);
      ChunksOfPlain(rest);
      forall i | 1 <= i < |cs|
        ensures cs[i] == s[ChunkSize * i .. Min(ChunkSize * (i + 1), |s|)]
      {
        assert cs[i] == Chunks(rest)[i - 1];
        ShiftSlice(s, i);
      }
    }
  }

  /** A suffix of a string without line terminators has none either. */
  lemma PlainSuffix(s: string, n: nat)
    requires NoLineTerminator(s) && n <= |s|
    ensures NoLineTerminator(s[n..])
  {
    forall i | 0 <= i < |s| - n
      ensures !IsLineTerminator(s[n..][i])
    {
      assert s[n..][i] == s[n + i];
    }
  }

  /** Slice `i - 1` of what follows the first 60 characters is slice `i` of the whole. */
  lemma ShiftSlice(s: string, i: nat)
    requires 1 <= i && ChunkSize * i < |s|
    ensures s[ChunkSize..][ChunkSize * (i - 1) .. Min(ChunkSize * i, |s| - ChunkSize)]
         == s[ChunkSize * i .. Min(ChunkSize * (i + 1), |s|)]
  {
    assert ChunkSize + ChunkSize * (i - 1) == ChunkSize * i;
    assert ChunkSize + Min(ChunkSize * i, |s| - ChunkSize) == Min(ChunkSize * (i + 1), |s|);
  }

  /** The size bounds that follow: every match but the last has 60 characters, the last 1 to 60. */
  lemma ChunkSizesOfPlain(s: string)
    requires NoLineTerminator(s)
    ensures forall i :: 0 <= i < |Chunks(s)| - 1 ==> |Chunks(s)[i]| == ChunkSize
    ensures |Chunks(s)| > 0 ==> 1 <= |Chunks(s)[|Chunks(s)| - 1]| <= ChunkSize
  {
    ChunksOfPlain(s);
  }
}
