/** Splitting a chat reply into Discord-sized messages (lighty_mtg.py, the
    `discord_chat` branch of `process_queue`): `response[i:i + 2000]` for
    `i` in `range(0, len(response), 2000)`, each piece sent in turn. */
module Replies {

  /** The longest message the bot sends in one piece. */
  const ChunkSize: nat := 2000

  function Min(a: int, b: int): int
  {
    if a <= b then a else b
  }

  /** The pieces, in order, that the slicing loop produces for `s`. */
  function Chunks(s: string): seq<string>
    decreases |s|
  {
    if s == [] then []
    else
      var k := Min(ChunkSize, |s|);
      [s[..k]] + Chunks(s[k..])
  }

  /** All the pieces glued together, in order. */
  function Concat(parts: seq<string>): string
  {
    if parts == [] then [] else parts[0] + Concat(parts[1..])
  }

  /** No text is lost, duplicated or reordered: the pieces concatenate to the reply. */
  lemma {:induction false} ChunksConcat(s: string)
    ensures Concat(Chunks(s)) == s
    decreases |s|
  {
    if s != [] {
      var k := Min(ChunkSize, |s|);
      ChunksConcat(s[k..]);
      assert Chunks(s)[1..] == Chunks(s[k..]);
      assert s[..k] + s[k..] == s;
    }
  }

  /** There are ceil(|s| / 2000) pieces. */
  lemma {:induction false} ChunksCount(s: string)
    ensures |Chunks(s)| == (|s| + ChunkSize - 1) / ChunkSize
    decreases |s|
  {
    if s != [] {
      var k := Min(ChunkSize, |s|);
      ChunksCount(s[k..]);
    }
  }

  /** Piece j is exactly Python's `s[2000 * j : 2000 * (j + 1)]` (a slice
      clamps at the end of the string), so it starts inside the reply, is
      non-empty and is at most 2000 characters long. */
  lemma {:induction false} ChunkAt(s: string, j: nat)
    requires j < |Chunks(s)|
    ensures j * ChunkSize < |s|
    ensures Chunks(s)[j] == s[j * ChunkSize .. Min((j + 1) * ChunkSize, |s|)]
    ensures 1 <= |Chunks(s)[j]| <= ChunkSize
    decreases j
  {
    var k := Min(ChunkSize, |s|);
    if j > 0 {
      var rest := s[k..];
      assert Chunks(s)[1..] == Chunks(rest);
      ChunkAt(rest, j - 1);
      assert k == ChunkSize;
    }
  }

  /** The pieces of a suffix: the first piece from position i, then the pieces after it. */
  lemma ChunksFrom(s: string, i: nat)
    requires i < |s|
    ensures Chunks(s[i..]) == [s[i..Min(i + ChunkSize, |s|)]] + Chunks(s[Min(i + ChunkSize, |s|)..])
  {
    var tail := s[i..];
    var end := Min(i + ChunkSize, |s|);
    assert tail[..end - i] == s[i..end];
    assert tail[end - i..] == s[end..];
  }

  /** The loop that sends the pieces of `response`, one message each, in order. */
  method SendChunks(response: string) returns (sent: seq<string>)
    ensures sent == Chunks(response)
  {
    sent := [];
    var i := 0;
    while i < |response|
      invariant 0 <= i
      invariant sent + Chunks(response[Min(i, |response|)..]) == Chunks(response)
      decreases |response| - i
    {
      var end := Min(i + ChunkSize, |response|);
      var chunk := response[i..end];
      ChunksFrom(response, i);
      assert sent + ([chunk] + Chunks(response[end..])) == (sent + [chunk]) + Chunks(response[end..]);
      sent := sent + [chunk];
      i := i + ChunkSize;
    }
  }
}
