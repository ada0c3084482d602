/** `splitIntoChunks` of workspace-chatbot.js: fixed-size, non-overlapping character windows. */
module Chunker {
  import opened JsText

  function Min(a: int, b: int): int
  {
    if a <= b then a else b
  }

  /** The windows of `n` characters cut from the start of `text`; the last one may be shorter. */
  function Chunks(text: string, n: nat): seq<string>
    requires n > 0
    decreases |text|
  {
    if text == [] then [] else [text[..Min(n, |text|)]] + Chunks(text[Min(n, |text|)..], n)
  }

  /** The pieces placed back to back. */
  function Concat(parts: seq<string>): string
    decreases |parts|
  {
    if parts == [] then [] else parts[0] + Concat(parts[1..])
  }

  /** `splitIntoChunks(text, chunkSize)`: `text.substring(i, i + chunkSize)` for i = 0, chunkSize,
      2 * chunkSize, ... while i is below the length of the text. */
  method SplitIntoChunks(text: string, chunkSize: nat) returns (chunks: seq<string>)
    requires chunkSize > 0
    ensures chunks == Chunks(text, chunkSize)
  {
    chunks := [];
    var i := 0;
    while i < |text|
      invariant 0 <= i
      invariant chunks + Chunks(text[Min(i, |text|)..], chunkSize) == Chunks(text, chunkSize)
      decreases |text| - i
    {
      var j := Min(i + chunkSize, |text|);
      ChunksStep(text, i, chunkSize);
      chunks := chunks + [text[i..j]];
      i := i + chunkSize;
    }
  }

  /** One step of the loop: the chunks from offset i are the window at i and the chunks after it. */
  lemma ChunksStep(text: string, i: nat, n: nat)
    requires n > 0 && i < |text|
    ensures Chunks(text[i..], n) == [text[i..Min(i + n, |text|)]] + Chunks(text[Min(i + n, |text|)..], n)
  {
    var t := text[i..];
    assert t[..Min(n, |t|)] == text[i..Min(i + n, |text|)];
    assert t[Min(n, |t|)..] == text[Min(i + n, |text|)..];
  }

  /** Concatenating the chunks gives the text back. */
  lemma {:induction false} ChunksConcat(text: string, n: nat)
    requires n > 0
    ensures Concat(Chunks(text, n)) == text
    decreases |text|
  {
    if text != [] {
      var k := Min(n, |text|);
      ChunksConcat(text[k..], n);
      assert text[..k] + text[k..] == text;
    }
  }

  /** Every chunk but the last has exactly `n` characters, and the last has between 1 and `n`. */
  lemma {:induction false} ChunkSizes(text: string, n: nat)
    requires n > 0
    ensures var r := Chunks(text, n);
              && (forall i :: 0 <= i < |r| - 1 ==> |r[i]| == n)
              && (r != [] ==> 1 <= |r[|r| - 1]| <= n)
    decreases |text|
  {
    if text != [] {
      var k := Min(n, |text|);
      var r, rest := Chunks(text, n), Chunks(text[k..], n);
      ChunkSizes(text[k..], n);
      assert r == [text[..k]] + rest;
      if rest != [] {
        assert |text| > n;
        assert forall i :: 1 <= i < |r| - 1 ==> r[i] == rest[i - 1];
      }
    }
  }

  /** There are ceil(|text| / n) chunks: the one count c with (c - 1) * n < |text| <= c * n. */
  lemma {:induction false} ChunkCount(text: string, n: nat)
    requires n > 0 && text != []
    ensures var c := |Chunks(text, n)|; (c - 1) * n < |text| <= c * n
    decreases |text|
  {
    if |text| > n {
      var c, c' := |Chunks(text, n)|, |Chunks(text[n..], n)|;
      ChunkCount(text[n..], n);
      assert c == c' + 1;
      assert (c - 1) * n == (c' - 1) * n + n;
      assert c * n == c' * n + n;
    }
  }

  /** An empty text has no chunks, and a non-empty one has at least one. */
  lemma ChunksEmpty(text: string, n: nat)
    requires n > 0
    ensures Chunks(text, n) == [] <==> text == []
  {
  }

  /** Every character of every part is a character of `text`. */
  predicate CharactersFrom(parts: seq<string>, text: string)
  {
    forall i, k :: 0 <= i < |parts| && 0 <= k < |parts[i]| ==> parts[i][k] in text
  }

  /** Every character of a chunk is a character of the text. */
  lemma {:induction false} ChunksKeepCharacters(text: string, n: nat)
    requires n > 0
    ensures CharactersFrom(Chunks(text, n), text)
    decreases |text|
  {
    if text != [] {
      var m := Min(n, |text|);
      var r, rest := Chunks(text, n), Chunks(text[m..], n);
      ChunksKeepCharacters(text[m..], n);
      assert r == [text[..m]] + rest;
      forall i, k | 0 <= i < |r| && 0 <= k < |r[i]|
        ensures r[i][k] in text
      {
        if i == 0 {
          assert r[i][k] == text[k];
        } else {
          assert r[i] == rest[i - 1];
          assert rest[i - 1][k] in text[m..];
          var j :| 0 <= j < |text[m..]| && text[m..][j] == r[i][k];
          assert text[m + j] == r[i][k];
        }
      }
    }
  }

  /** Within the Basic Multilingual Plane a character is one UTF-16 code unit, as JavaScript
      counts `length` and `substring` offsets, so there the chunks are those of the source: each
      chunk's length in code units is its length, and there are ceil(length / n) of them. */
  lemma BmpChunksInCodeUnits(text: string, n: nat)
    requires n > 0 && text != []
    requires forall k :: 0 <= k < |text| ==> text[k] as int < 0x1_0000
    ensures var r := Chunks(text, n);
              && (forall i :: 0 <= i < |r| ==> Utf16Length(r[i]) == |r[i]|)
              && (|r| - 1) * n < Utf16Length(text) <= |r| * n
  {
    var r := Chunks(text, n);
    ChunksKeepCharacters(text, n);
    ChunkCount(text, n);
    forall i | 0 <= i < |r|
      ensures Utf16Length(r[i]) == |r[i]|
    {
      forall k | 0 <= k < |r[i]|
        ensures r[i][k] as int < 0x1_0000
      {
        assert r[i][k] in text;
      }
    }
  }

  /** Beyond that plane the two counts part: 300 emoji are 600 code units, which the source cuts
      into two chunks, while the model, counting characters, keeps them as one. */
  lemma AstralTextIsOneChunk()
    ensures var text := seq(300, _ => '\U{1F600}');
              Utf16Length(text) == 600 && |Chunks(text, 500)| == 1
  {
    var text := seq(300, _ => '\U{1F600}');
    AstralLength(text);
    assert Chunks(text, 500) == [text[..300]] + Chunks(text[300..], 500);
    assert text[300..] == [];
  }
}
