/** The terminator test of a read and the search it amounts to (matches_suffix.hpp). */
module Terminators {
  import opened Options
  import opened ChunkIo

  /** memcmp of the last `terminatorSize` bytes. */
  predicate MatchesSuffix(buffer: seq<byte>, bufferSize: int, terminator: seq<byte>, terminatorSize: int)
    requires 0 <= bufferSize <= |buffer| && terminatorSize <= |terminator|
  {
    terminatorSize > 0 && bufferSize >= terminatorSize &&
    buffer[bufferSize - terminatorSize..bufferSize] == terminator[..terminatorSize]
  }

  predicate EndsWith(s: seq<byte>, t: seq<byte>) {
    |t| <= |s| && s[|s| - |t|..] == t
  }

  /** It is the suffix test, whatever bytes occur in the terminator. */
  lemma MatchIsSuffix(buffer: seq<byte>, bufferSize: int, terminator: seq<byte>, terminatorSize: int)
    requires 0 <= bufferSize <= |buffer| && 0 < terminatorSize <= |terminator|
    ensures MatchesSuffix(buffer, bufferSize, terminator, terminatorSize)
      <==> EndsWith(buffer[..bufferSize], terminator[..terminatorSize])
  {
    if terminatorSize <= bufferSize {
      assert buffer[..bufferSize][bufferSize - terminatorSize..] == buffer[bufferSize - terminatorSize..bufferSize];
    }
  }

  /** The naive search: the length of the shortest prefix of `s` that ends with `t`. */
  function Search(s: seq<byte>, t: seq<byte>, from: nat): Option<nat>
    requires from <= |s|
    decreases |s| - from
  {
    if EndsWith(s[..from], t) then Some(from)
    else if from == |s| then None
    else Search(s, t, from + 1)
  }

  lemma {:induction false} SearchFindsFirst(s: seq<byte>, t: seq<byte>, from: nat, n: nat)
    requires from <= n <= |s|
    requires EndsWith(s[..n], t) && (forall m :: from <= m < n ==> !EndsWith(s[..m], t))
    ensures Search(s, t, from) == Some(n)
    decreases n - from
  {
    if from < n {
      SearchFindsFirst(s, t, from + 1, n);
    }
  }

  lemma {:induction false} SearchFindsNothing(s: seq<byte>, t: seq<byte>, from: nat)
    requires from <= |s| && forall m :: from <= m <= |s| ==> !EndsWith(s[..m], t)
    ensures Search(s, t, from) == None
    decreases |s| - from
  {
    if from < |s| {
      SearchFindsNothing(s, t, from + 1);
    }
  }

  /** No prefix of length `from` to `to` ends with `t`. */
  ghost predicate NoneBetween(s: seq<byte>, t: seq<byte>, from: nat, to: int)
    requires to <= |s|
  {
    forall k :: from <= k <= to ==> !EndsWith(s[..k], t)
  }

  lemma {:induction false} SearchFindsShortest(s: seq<byte>, t: seq<byte>, from: nat)
    requires from <= |s|
    ensures match Search(s, t, from)
      case Some(n) => from <= n <= |s| && EndsWith(s[..n], t) && NoneBetween(s, t, from, n - 1)
      case None => NoneBetween(s, t, from, |s|)
    decreases |s| - from
  {
    if from < |s| && !EndsWith(s[..from], t) {
      SearchFindsShortest(s, t, from + 1);
      var to := if Search(s, t, from).Some? then Search(s, t, from).value - 1 else |s|;
      NoneOneLower(s, t, from, to);
    }
  }

  lemma NoneOneLower(s: seq<byte>, t: seq<byte>, from: nat, to: int)
    requires from <= |s| && to <= |s| && !EndsWith(s[..from], t) && NoneBetween(s, t, from + 1, to)
    ensures NoneBetween(s, t, from, to)
  {
  }

  /** What the search of a prefix finds is what the search of the whole finds. */
  lemma {:induction false} SearchOfPrefix(s: seq<byte>, n: nat, t: seq<byte>, from: nat)
    requires from <= n <= |s|
    ensures match Search(s[..n], t, from)
      case Some(m) => from <= m <= n && EndsWith(s[..m], t) && Search(s, t, from) == Some(m)
      case None => Search(s, t, from) == (if n == |s| then None else Search(s, t, n + 1))
    decreases n - from
  {
    assert s[..n][..from] == s[..from];
    if from < n && !EndsWith(s[..from], t) {
      SearchOfPrefix(s, n, t, from + 1);
    }
  }

  /** One more byte: the search of the longer text finds it, or still nothing. */
  lemma SearchOneMore(s: seq<byte>, before: seq<byte>, t: seq<byte>)
    requires |s| == |before| + 1 && s[..|before|] == before && Search(before, t, 0) == None
    ensures Search(s, t, 0) == if EndsWith(s, t) then Some(|s|) else None
  {
    SearchFindsShortest(before, t, 0);
    assert s[..|s|] == s;
    forall m | 0 <= m < |s| ensures !EndsWith(s[..m], t) {
      assert s[..m] == before[..m];
    }
    if EndsWith(s, t) {
      SearchFindsFirst(s, t, 0, |s|);
    } else {
      SearchFindsNothing(s, t, 0);
    }
  }

  /** With a terminator one byte came in: it completes the first match, or there is still none. */
  lemma TurnMatches(stream: seq<byte>, buffer: seq<byte>, origin: nat, total: nat, terminator: seq<byte>,
                    terminatorSize: int)
    requires 0 < terminatorSize <= |terminator| && total + 1 <= |buffer| && origin + total + 1 <= |stream|
    requires buffer[..total + 1] == stream[origin..origin + total + 1]
    requires Search(stream[origin..origin + total], terminator[..terminatorSize], 0) == None
    ensures Search(stream[origin..origin + total + 1], terminator[..terminatorSize], 0) ==
      if MatchesSuffix(buffer, total + 1, terminator, terminatorSize) then Some(total + 1) else None
  {
    MatchIsSuffix(buffer, total + 1, terminator, terminatorSize);
    var before, after := stream[origin..origin + total], stream[origin..origin + total + 1];
    assert after[..|before|] == before;
    SearchOneMore(after, before, terminator[..terminatorSize]);
  }
}
