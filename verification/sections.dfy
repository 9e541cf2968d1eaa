/**
 * `ChunkString` (internal/utils/section.go): cutting a text into pieces no
 * longer than an embed field allows, in order.
 */
module Sections {

  /** The pieces glued back together. */
  function Flatten(chunks: seq<string>): string {
    if chunks == [] then "" else chunks[0] + Flatten(chunks[1..])
  }

  lemma {:induction false} FlattenAppend(chunks: seq<string>, last: string)
    ensures Flatten(chunks + [last]) == Flatten(chunks) + last
  {
    if chunks != [] {
      assert (chunks + [last])[1..] == chunks[1..] + [last];
      FlattenAppend(chunks[1..], last);
    }
  }

  /**
   * `math.Ceil(n / d)` for a positive divisor: the least number of blocks of
   * `d` that cover `n`.
   */
  function CeilDiv(n: int, d: int): (q: nat)
    requires d > 0
    ensures n <= 0 ==> q == 0
    ensures n > 0 ==> q * d >= n && (q - 1) * d < n
    decreases n
  {
    if n <= 0 then 0 else 1 + CeilDiv(n - d, d)
  }

  /**
   * `ChunkString` for a positive `maxLen`: the chunks glue back to `s`, each
   * is non-empty and at most `maxLen` long, all but the last are exactly
   * `maxLen` long, and there are ceil(|s| / maxLen) of them.
   */
  method ChunkString(s: string, maxLen: int) returns (chunks: seq<string>)
    requires maxLen > 0
    ensures Flatten(chunks) == s
    ensures forall i :: 0 <= i < |chunks| ==> 0 < |chunks[i]| <= maxLen
    ensures forall i :: 0 <= i < |chunks| - 1 ==> |chunks[i]| == maxLen
    ensures |chunks| == CeilDiv(|s|, maxLen)
  {
    chunks := [];
    var rest := s;
    while |rest| > maxLen
      invariant Flatten(chunks) + rest == s
      invariant forall i :: 0 <= i < |chunks| ==> |chunks[i]| == maxLen
      invariant |chunks| + CeilDiv(|rest|, maxLen) == CeilDiv(|s|, maxLen)
      decreases |rest|
    {
      FlattenAppend(chunks, rest[..maxLen]);
      assert rest == rest[..maxLen] + rest[maxLen..];
      chunks := chunks + [rest[..maxLen]];
      rest := rest[maxLen..];
    }
    if |rest| > 0 {
      FlattenAppend(chunks, rest);
      chunks := chunks + [rest];
    }
  }

  /** `chunks` cut `s` into non-empty pieces of at most `m`, all but the last exactly `m` long. */
  predicate IsChunking(chunks: seq<string>, s: string, m: int) {
    && Flatten(chunks) == s
    && (forall i :: 0 <= i < |chunks| ==> 0 < |chunks[i]| <= m)
    && (forall i :: 0 <= i < |chunks| - 1 ==> |chunks[i]| == m)
  }

  /** The contract of `ChunkString` admits one result only. */
  lemma {:induction false} ChunkingUnique(a: seq<string>, b: seq<string>, s: string, m: int)
    requires IsChunking(a, s, m) && IsChunking(b, s, m)
    ensures a == b
    decreases |s|
  {
    ChunkingEmpty(a, s, m);
    ChunkingEmpty(b, s, m);
    if a != [] {
      FirstChunkLength(a, s, m);
      FirstChunkLength(b, s, m);
      assert a[0] == s[..|a[0]|] && b[0] == s[..|b[0]|];
      assert a[0] == b[0];
      var rest := s[|a[0]|..];
      assert Flatten(a[1..]) == rest && Flatten(b[1..]) == rest;
      assert IsChunking(a[1..], rest, m) by {
        assert forall i :: 0 <= i < |a| - 1 ==> a[1..][i] == a[i + 1];
      }
      assert IsChunking(b[1..], rest, m) by {
        assert forall i :: 0 <= i < |b| - 1 ==> b[1..][i] == b[i + 1];
      }
      ChunkingUnique(a[1..], b[1..], rest, m);
      assert a == [a[0]] + a[1..] && b == [b[0]] + b[1..];
    }
  }

  /** Only the empty text has no chunks. */
  lemma ChunkingEmpty(chunks: seq<string>, s: string, m: int)
    requires IsChunking(chunks, s, m)
    ensures chunks == [] <==> s == ""
  {
    if chunks != [] {
      FirstChunkLength(chunks, s, m);
    }
  }

  /** The first chunk is a prefix of the text: `m` long when more follow, the whole text otherwise. */
  lemma FirstChunkLength(chunks: seq<string>, s: string, m: int)
    requires IsChunking(chunks, s, m) && chunks != []
    ensures s == chunks[0] + Flatten(chunks[1..])
    ensures |chunks[0]| == if |s| > m then m else |s|
  {
    if |chunks| > 1 {
      assert Flatten(chunks[1..]) == chunks[1] + Flatten(chunks[2..]);
      assert |Flatten(chunks[1..])| >= |chunks[1]| > 0;
    }
  }
}
