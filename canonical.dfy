/**
 * The canonical request string that the Chef Infra Server signing protocol
 * ("canonical header format 1.0 using SHA-1") has the client encrypt and the
 * server rebuild: five labelled lines in a fixed order, joined by newlines,
 * with no trailing newline. A parser is given beside it as its inverse.
 */
module Canonical {
  import opened Wrappers

  datatype CanonicalRequest = CanonicalRequest(
    verb: string,
    hashedPath: string,
    contentHash: string,
    timestamp: string,
    userId: string)

  const MethodLabel: string := "Method:"
  const PathLabel: string := "Hashed Path:"
  const ContentHashLabel: string := "X-Ops-Content-Hash:"
  const TimestampLabel: string := "X-Ops-Timestamp:"
  const UserIdLabel: string := "X-Ops-UserId:"

  /** The string the client encrypts, built by concatenation as the signer builds it. */
  function Canonicalize(c: CanonicalRequest): string
  {
    MethodLabel + c.verb + "\n" +
    PathLabel + c.hashedPath + "\n" +
    ContentHashLabel + c.contentHash + "\n" +
    TimestampLabel + c.timestamp + "\n" +
    UserIdLabel + c.userId
  }

  /** The five lines of the canonical string, in their fixed order. */
  function Lines(c: CanonicalRequest): seq<string>
  {
    [MethodLabel + c.verb, PathLabel + c.hashedPath, ContentHashLabel + c.contentHash,
     TimestampLabel + c.timestamp, UserIdLabel + c.userId]
  }

  predicate NewlineFree(c: CanonicalRequest)
  {
    '\n' !in c.verb && '\n' !in c.hashedPath && '\n' !in c.contentHash &&
    '\n' !in c.timestamp && '\n' !in c.userId
  }

  function JoinLines(ls: seq<string>): string
    requires |ls| >= 1
  {
    if |ls| == 1 then ls[0] else ls[0] + "\n" + JoinLines(ls[1..])
  }

  /** The lines of `s`, split at every newline (one more line than there are newlines). */
  function SplitLines(s: string): (ls: seq<string>)
    ensures |ls| >= 1
  {
    if s == [] then [""]
    else
      var rest := SplitLines(s[1..]);
      if s[0] == '\n' then [""] + rest else [[s[0]] + rest[0]] + rest[1..]
  }

  /** Splitting undoes joining, when no line holds a newline of its own. */
  lemma {:induction false} SplitJoin(ls: seq<string>)
    requires |ls| >= 1
    requires forall i :: 0 <= i < |ls| ==> '\n' !in ls[i]
    ensures SplitLines(JoinLines(ls)) == ls
  {
    if |ls| == 1 {
      SplitPlain(ls[0]);
    } else {
      SplitJoin(ls[1..]);
      SplitAfterLine(ls[0], JoinLines(ls[1..]));
      assert [ls[0]] + ls[1..] == ls;
    }
  }

  lemma {:induction false} SplitPlain(a: string)
    requires '\n' !in a
    ensures SplitLines(a) == [a]
  {
    if a != [] {
      assert a[0] != '\n' by { assert a[0] in a; }
      SplitPlain(a[1..]);
      assert [a[0]] + a[1..] == a;
    }
  }

  lemma {:induction false} SplitAfterLine(a: string, b: string)
    requires '\n' !in a
    ensures SplitLines(a + "\n" + b) == [a] + SplitLines(b)
  {
    var s := a + "\n" + b;
    if a == [] {
      assert s == "\n" + b && s[1..] == b;
    } else {
      assert s[0] == a[0] && s[1..] == a[1..] + "\n" + b;
      SplitAfterLine(a[1..], b);
      assert [a[0]] + a[1..] == a;
    }
  }

  /** Joining undoes splitting, for every string. */
  lemma {:induction false} JoinSplit(s: string)
    ensures JoinLines(SplitLines(s)) == s
  {
    if s != [] {
      var rest := SplitLines(s[1..]);
      JoinSplit(s[1..]);
      if s[0] == '\n' {
        assert ([""] + rest)[1..] == rest;
      } else {
        var ls := [[s[0]] + rest[0]] + rest[1..];
        if |rest| > 1 {
          assert ls[1..] == rest[1..];
        }
      }
    }
  }

  lemma CanonicalizeIsJoin(c: CanonicalRequest)
    ensures Canonicalize(c) == JoinLines(Lines(c))
  {
    var ls := Lines(c);
    var tail3 := ls[3] + "\n" + ls[4];
    var tail2 := ls[2] + "\n" + tail3;
    var tail1 := ls[1] + "\n" + tail2;
    assert JoinLines(ls[3..]) == tail3 by {
      assert ls[3..][1..] == [ls[4]];
    }
    assert JoinLines(ls[2..]) == tail2 by {
      assert ls[2..][1..] == ls[3..];
    }
    assert JoinLines(ls[1..]) == tail1 by {
      assert ls[1..][1..] == ls[2..];
    }
    assert JoinLines(ls) == ls[0] + "\n" + tail1;
    Flatten(ls[0], ls[1], ls[2], ls[3], ls[4]);
    assert Canonicalize(c) == ls[0] + "\n" + ls[1] + "\n" + ls[2] + "\n" + ls[3] + "\n" + ls[4] by {
      FlattenLabelled(c);
    }
  }

  // Associativity of string concatenation, a hint for the solver in CanonicalizeIsJoin.
  lemma Flatten(a: string, b: string, c: string, d: string, e: string)
    ensures a + "\n" + (b + "\n" + (c + "\n" + (d + "\n" + e)))
         == a + "\n" + b + "\n" + c + "\n" + d + "\n" + e
  {
  }

  lemma FlattenLabelled(c: CanonicalRequest)
    ensures Canonicalize(c) == (MethodLabel + c.verb) + "\n" + (PathLabel + c.hashedPath) + "\n" +
      (ContentHashLabel + c.contentHash) + "\n" + (TimestampLabel + c.timestamp) + "\n" + (UserIdLabel + c.userId)
  {
  }

  /** The rest of `line` after `prefix`, if `line` starts with `prefix`. */
  function StripLabel(prefix: string, line: string): (r: Option<string>)
    ensures r.Some? <==> |prefix| <= |line| && line[..|prefix|] == prefix
    ensures r.Some? ==> prefix + r.value == line
  {
    if |prefix| <= |line| && line[..|prefix|] == prefix then Some(line[|prefix|..]) else None
  }

  /** The server's reading of a canonical string: exactly five lines, each with its prefix. */
  function ParseCanonical(s: string): (r: Option<CanonicalRequest>)
    ensures r.Some? ==> Canonicalize(r.value) == s
  {
    var ls := SplitLines(s);
    if |ls| != 5 then None
    else
      var m := StripLabel(MethodLabel, ls[0]);
      var p := StripLabel(PathLabel, ls[1]);
      var h := StripLabel(ContentHashLabel, ls[2]);
      var t := StripLabel(TimestampLabel, ls[3]);
      var u := StripLabel(UserIdLabel, ls[4]);
      if m.Some? && p.Some? && h.Some? && t.Some? && u.Some? then
        var c := CanonicalRequest(m.value, p.value, h.value, t.value, u.value);
        assert Lines(c) == ls;
        JoinSplit(s);
        CanonicalizeIsJoin(c);
        Some(c)
      else None
  }

  /** Parsing a canonical string recovers every field, when no field holds a newline. */
  lemma CanonicalRoundTrip(c: CanonicalRequest)
    requires NewlineFree(c)
    ensures ParseCanonical(Canonicalize(c)) == Some(c)
  {
    var ls := Lines(c);
    LabelledLine(MethodLabel, c.verb);
    LabelledLine(PathLabel, c.hashedPath);
    LabelledLine(ContentHashLabel, c.contentHash);
    LabelledLine(TimestampLabel, c.timestamp);
    LabelledLine(UserIdLabel, c.userId);
    assert forall i :: 0 <= i < |ls| ==> '\n' !in ls[i];
    CanonicalizeIsJoin(c);
    SplitJoin(ls);
  }

  /** A label followed by a newline-free value is a newline-free line from which the label strips off to the value. */
  lemma LabelledLine(prefix: string, v: string)
    requires '\n' !in prefix && '\n' !in v
    ensures '\n' !in prefix + v
    ensures StripLabel(prefix, prefix + v) == Some(v)
  {
    assert (prefix + v)[..|prefix|] == prefix;
    assert (prefix + v)[|prefix|..] == v;
  }

  /** Two newline-free requests with the same canonical string are the same request. */
  lemma CanonicalizeInjective(c1: CanonicalRequest, c2: CanonicalRequest)
    requires NewlineFree(c1) && NewlineFree(c2)
    requires Canonicalize(c1) == Canonicalize(c2)
    ensures c1 == c2
  {
    CanonicalRoundTrip(c1);
    CanonicalRoundTrip(c2);
  }
}
