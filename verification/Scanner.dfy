/** The streaming signature scanner: one pass over chunks, keeping a window across chunk borders. */
module Scanner {
  import opened Wrappers

  predicate OccursAt(hay: Bytes, needle: Bytes, i: nat) {
    i + |needle| <= |hay| && hay[i..i + |needle|] == needle
  }

  /** The signature occurs contiguously somewhere. */
  predicate Occurs(hay: Bytes, needle: Bytes) {
    exists i :: 0 <= i <= |hay| && OccursAt(hay, needle, i)
  }

  /** `windows(n).any(...)`. */
  method Contains(hay: Bytes, needle: Bytes) returns (found: bool)
    ensures found <==> Occurs(hay, needle)
  {
    var i := 0;
    while i + |needle| <= |hay|
      invariant forall j :: 0 <= j < i && j <= |hay| ==> !OccursAt(hay, needle, j)
      decreases |hay| - i
    {
      if hay[i..i + |needle|] == needle {
        assert OccursAt(hay, needle, i);
        return true;
      }
      i := i + 1;
    }
    return false;
  }

  function Flatten(chunks: seq<Bytes>): Bytes {
    if chunks == [] then [] else Flatten(chunks[..|chunks| - 1]) + chunks[|chunks| - 1]
  }

  /** What the window must hold: the end of what was read, long enough that no occurrence can start before it and end
      after it. */
  predicate WindowOf(window: Bytes, read: Bytes, m: nat) {
    && |window| <= |read| && window == read[|read| - |window|..]
    && (|window| == |read| || |window| >= m - 1)
  }

  /** Appending a chunk creates an occurrence in the whole exactly when it creates one in the extended window. */
  lemma WindowSeesAll(window: Bytes, read: Bytes, chunk: Bytes, needle: Bytes)
    requires |needle| > 0 && WindowOf(window, read, |needle|) && !Occurs(read, needle)
    ensures Occurs(read + chunk, needle) <==> Occurs(window + chunk, needle)
  {
    var whole, part := read + chunk, window + chunk;
    var off := |read| - |window|;
    assert part == whole[off..];
    if Occurs(whole, needle) {
      var i :| 0 <= i <= |whole| && OccursAt(whole, needle, i);
      if i < off {
        InsideRead(read, chunk, needle, i);
      } else {
        assert part[i - off..i - off + |needle|] == whole[i..i + |needle|];
        assert OccursAt(part, needle, i - off);
      }
    }
    if Occurs(part, needle) {
      var i :| 0 <= i <= |part| && OccursAt(part, needle, i);
      assert whole[i + off..i + off + |needle|] == part[i..i + |needle|];
      assert OccursAt(whole, needle, i + off);
    }
  }

  lemma InsideRead(read: Bytes, chunk: Bytes, needle: Bytes, i: nat)
    requires OccursAt(read + chunk, needle, i)
    ensures i + |needle| <= |read| ==> Occurs(read, needle)
  {
    if i + |needle| <= |read| {
      assert read[i..i + |needle|] == (read + chunk)[i..i + |needle|];
      assert OccursAt(read, needle, i);
    }
  }

  lemma StillOccurs(read: Bytes, chunk: Bytes, needle: Bytes)
    requires Occurs(read, needle)
    ensures Occurs(read + chunk, needle)
  {
    var i :| 0 <= i <= |read| && OccursAt(read, needle, i);
    assert (read + chunk)[i..i + |needle|] == read[i..i + |needle|];
    assert OccursAt(read + chunk, needle, i);
  }

  /** Scan an object read in non-empty chunks. For every stream and every way of cutting it, the verdict is whether the
      signature occurs in the whole stream, and the count is the stream's length. */
  method Scan(chunks: seq<Bytes>, signature: Bytes) returns (infected: bool, byteCount: nat)
    requires |signature| > 0
    requires forall c <- chunks :: c != []
    ensures infected <==> Occurs(Flatten(chunks), signature)
    ensures byteCount == |Flatten(chunks)|
  {
    infected, byteCount := false, 0;
    var window: Bytes := [];
    for i := 0 to |chunks|
      invariant byteCount == |Flatten(chunks[..i])|
      invariant infected <==> Occurs(Flatten(chunks[..i]), signature)
      invariant !infected ==> WindowOf(window, Flatten(chunks[..i]), |signature|)
    {
      var chunk := chunks[i];
      ghost var read := Flatten(chunks[..i]);
      assert chunks[..i + 1][..i] == chunks[..i];
      assert Flatten(chunks[..i + 1]) == read + chunk;
      byteCount := byteCount + |chunk|;
      if infected {
        StillOccurs(read, chunk, signature);
      } else {
        WindowSeesAll(window, read, chunk, signature);
        window := window + chunk;
        infected := Contains(window, signature);
        assert window == (read + chunk)[|read + chunk| - |window|..];
        if |window| > |signature| {
          var drop := |window| - (|signature| - 1);
          window := window[drop..];
        }
      }
    }
    assert chunks[..|chunks|] == chunks;
  }
}
