/** The object store: open multiparts and assembled objects. */
module BlobStore {
  import opened Wrappers
  import opened Domain

  /** `tenants/<tenant>/blobs/<upload>/original`, as the pair it is a function of. */
  datatype ObjectKey = ObjectKey(tenant: Id, upload: Id)

  datatype MultipartKey = MultipartKey(key: ObjectKey, id: Id)

  datatype Part = Part(number: nat, etag: string, bytes: Bytes)

  datatype CompletedPart = CompletedPart(number: nat, etag: string)

  datatype Blobs = Blobs(multiparts: map<MultipartKey, seq<Part>>, objects: map<ObjectKey, Bytes>)

  // ------------------------------------------------------------------ ordering the parts

  predicate Ascending(ps: seq<Part>) {
    forall i, j :: 0 <= i < j < |ps| ==> ps[i].number <= ps[j].number
  }

  predicate DistinctNumbers(ps: seq<Part>) {
    forall i, j :: 0 <= i < j < |ps| ==> ps[i].number != ps[j].number
  }

  function InsertPart(p: Part, ps: seq<Part>): seq<Part> {
    if ps == [] || p.number <= ps[0].number then [p] + ps else [ps[0]] + InsertPart(p, ps[1..])
  }

  /** Stable sort by part number. */
  function SortParts(ps: seq<Part>): seq<Part> {
    if ps == [] then [] else InsertPart(ps[0], SortParts(ps[1..]))
  }

  lemma {:induction false} InsertKeeps(p: Part, ps: seq<Part>)
    ensures multiset(InsertPart(p, ps)) == multiset(ps) + multiset{p}
  {
    if ps != [] && p.number > ps[0].number {
      InsertKeeps(p, ps[1..]);
      assert ps == [ps[0]] + ps[1..];
    }
  }

  lemma {:induction false} InsertSorted(p: Part, ps: seq<Part>)
    requires Ascending(ps)
    ensures Ascending(InsertPart(p, ps)) && multiset(InsertPart(p, ps)) == multiset(ps) + multiset{p}
  {
    InsertKeeps(p, ps);
    if ps != [] && p.number > ps[0].number {
      InsertSorted(p, ps[1..]);
      var rest := InsertPart(p, ps[1..]);
      forall q <- rest
        ensures ps[0].number <= q.number
      {
        assert q in multiset(rest);
        assert q == p || q in ps[1..];
      }
      ConsAscends(ps[0], rest);
    }
  }

  lemma ConsAscends(p: Part, rest: seq<Part>)
    requires Ascending(rest) && forall q <- rest :: p.number <= q.number
    ensures Ascending([p] + rest)
  {
  }

  /** Assembly order is ascending, and no part is lost or invented. */
  lemma {:induction false} SortedParts(ps: seq<Part>)
    ensures Ascending(SortParts(ps)) && multiset(SortParts(ps)) == multiset(ps)
  {
    if ps != [] {
      SortedParts(ps[1..]);
      InsertSorted(ps[0], SortParts(ps[1..]));
      assert ps == [ps[0]] + ps[1..];
    }
  }

  function Completed(ps: seq<Part>): seq<CompletedPart> {
    seq(|ps|, i requires 0 <= i < |ps| => CompletedPart(ps[i].number, ps[i].etag))
  }

  // ------------------------------------------------------------------ completing a multipart

  function FindPart(ps: seq<Part>, number: nat): Option<Part> {
    if ps == [] then None else if ps[0].number == number then Some(ps[0]) else FindPart(ps[1..], number)
  }

  /** The assembled bytes, or nothing when a named part is missing or its tag differs. */
  function Assembled(uploaded: seq<Part>, parts: seq<CompletedPart>): Option<Bytes> {
    if parts == [] then Some([])
    else
      var n := |parts| - 1;
      match Assembled(uploaded, parts[..n])
      case None => None
      case Some(bytes) =>
        match FindPart(uploaded, parts[n].number)
        case None => None
        case Some(p) => if p.etag == parts[n].etag then Some(bytes + p.bytes) else None
  }

  function Concatenated(ps: seq<Part>): Bytes {
    if ps == [] then [] else Concatenated(ps[..|ps| - 1]) + ps[|ps| - 1].bytes
  }

  /** A part named for completion matches a stored one: same number, same tag. */
  predicate Matches(p: CompletedPart, uploaded: seq<Part>) {
    exists i :: 0 <= i < |uploaded| && uploaded[i].number == p.number && uploaded[i].etag == p.etag
  }

  /** Completion succeeds exactly when every named part matches a stored one. */
  lemma {:induction false} AssembledExactly(uploaded: seq<Part>, parts: seq<CompletedPart>)
    requires DistinctNumbers(uploaded)
    ensures Assembled(uploaded, parts).Some? <==> forall p <- parts :: Matches(p, uploaded)
  {
    if parts != [] {
      var n := |parts| - 1;
      AssembledExactly(uploaded, parts[..n]);
      FindMatches(uploaded, parts[n]);
      assert parts == parts[..n] + [parts[n]];
    }
  }

  lemma FindMatches(uploaded: seq<Part>, p: CompletedPart)
    requires DistinctNumbers(uploaded)
    ensures Matches(p, uploaded) <==>
            FindPart(uploaded, p.number).Some? && FindPart(uploaded, p.number).value.etag == p.etag
  {
    FindPartIn(uploaded, p.number);
    if Matches(p, uploaded) {
      var i :| 0 <= i < |uploaded| && uploaded[i].number == p.number && uploaded[i].etag == p.etag;
      FindOwn(uploaded, uploaded[i]);
    }
  }

  lemma {:induction false} FindPartIn(ps: seq<Part>, number: nat)
    ensures FindPart(ps, number).Some? ==>
              exists i :: 0 <= i < |ps| && ps[i] == FindPart(ps, number).value && ps[i].number == number
  {
    if ps != [] && ps[0].number != number {
      FindPartIn(ps[1..], number);
      if FindPart(ps, number).Some? {
        var i :| 0 <= i < |ps[1..]| && ps[1..][i] == FindPart(ps[1..], number).value && ps[1..][i].number == number;
        assert ps[i + 1] == ps[1..][i];
      }
    }
  }

  lemma {:induction false} FindOwn(ps: seq<Part>, p: Part)
    requires DistinctNumbers(ps) && p in ps
    ensures FindPart(ps, p.number) == Some(p)
  {
    if ps[0] != p {
      assert p in ps[1..];
      FindOwn(ps[1..], p);
    }
  }

  lemma {:induction false} AssembledConcat(uploaded: seq<Part>, ps: seq<Part>)
    requires DistinctNumbers(uploaded) && forall p <- ps :: p in uploaded
    ensures Assembled(uploaded, Completed(ps)) == Some(Concatenated(ps))
  {
    if ps != [] {
      var n := |ps| - 1;
      assert Completed(ps)[..n] == Completed(ps[..n]);
      AssembledConcat(uploaded, ps[..n]);
      FindOwn(uploaded, ps[n]);
    }
  }

  /** Completing with the store's own listing, however it was ordered, assembles exactly the uploaded parts in
      ascending order. */
  lemma OwnListingAssembles(uploaded: seq<Part>)
    requires DistinctNumbers(uploaded)
    ensures Assembled(uploaded, Completed(SortParts(uploaded))) == Some(Concatenated(SortParts(uploaded)))
  {
    SortedParts(uploaded);
    forall p <- SortParts(uploaded)
      ensures p in uploaded
    {
      assert p in multiset(SortParts(uploaded));
    }
    AssembledConcat(uploaded, SortParts(uploaded));
  }

  /** Completing consumes the multipart and, when the parts fit, creates the object. */
  function Complete(b: Blobs, m: MultipartKey, parts: seq<CompletedPart>): Blobs {
    if m !in b.multiparts then b
    else
      var rest := b.(multiparts := b.multiparts - {m});
      match Assembled(b.multiparts[m], parts)
      case None => rest
      case Some(bytes) => rest.(objects := b.objects[m.key := bytes])
  }

  function Abort(b: Blobs, m: MultipartKey): Blobs {
    b.(multiparts := b.multiparts - {m})
  }

  function Delete(b: Blobs, k: ObjectKey): Blobs {
    b.(objects := b.objects - {k})
  }

  const PREFIX_BYTES := 512

  function Min(a: nat, b: nat): nat {
    if a < b then a else b
  }

  function Prefix(bytes: Bytes): Bytes {
    if |bytes| <= PREFIX_BYTES then bytes else bytes[..PREFIX_BYTES]
  }

  // ------------------------------------------------------------------ the in-memory port

  datatype BlobError = NoSuchUpload | InvalidParts | NotFound

  class MemoryBlobStore {
    var multiparts: map<MultipartKey, seq<Part>>
    var objects: map<ObjectKey, Bytes>

    constructor ()
      ensures Value() == Blobs(map[], map[])
    {
      multiparts, objects := map[], map[];
    }

    ghost function Value(): Blobs
      reads this
    {
      Blobs(multiparts, objects)
    }

    method ListParts(m: MultipartKey) returns (r: Option<seq<Part>>)
      ensures r == if m in Value().multiparts then Some(Value().multiparts[m]) else None
    {
      r := if m in multiparts then Some(multiparts[m]) else None;
    }

    method CompleteMultipart(m: MultipartKey, parts: seq<CompletedPart>) returns (r: Result<(), BlobError>)
      modifies this
      ensures Value() == Complete(old(Value()), m, parts)
      ensures r == if m !in old(multiparts) then Err(NoSuchUpload)
                   else if Assembled(old(multiparts)[m], parts).None? then Err(InvalidParts)
                   else Ok(())
      ensures multiparts == old(multiparts) - {m}
      ensures objects == if r.Ok? then old(objects)[m.key := Assembled(old(multiparts)[m], parts).value]
                         else old(objects)
    {
      if m !in multiparts {
        return Err(NoSuchUpload);
      }
      var uploaded := multiparts[m];
      multiparts := multiparts - {m};
      var bytes: Bytes := [];
      for i := 0 to |parts|
        invariant Assembled(uploaded, parts[..i]) == Some(bytes)
        invariant multiparts == old(multiparts) - {m} && objects == old(objects)
      {
        assert parts[..i + 1][..i] == parts[..i];
        var found := FindPart(uploaded, parts[i].number);
        if found.None? || found.value.etag != parts[i].etag {
          MissingPart(uploaded, parts, i + 1);
          return Err(InvalidParts);
        }
        bytes := bytes + found.value.bytes;
      }
      assert parts[..|parts|] == parts;
      objects := objects[m.key := bytes];
      return Ok(());
    }

    method AbortMultipart(m: MultipartKey)
      modifies this
      ensures Value() == Abort(old(Value()), m)
      ensures multiparts == old(multiparts) - {m} && objects == old(objects)
    {
      multiparts := multiparts - {m};
    }

    method DeleteObject(k: ObjectKey)
      modifies this
      ensures Value() == Delete(old(Value()), k)
      ensures multiparts == old(multiparts) && objects == old(objects) - {k}
    {
      objects := objects - {k};
    }

    method ReadPrefix(k: ObjectKey) returns (r: Result<Bytes, BlobError>)
      ensures r == if k in Value().objects then Ok(Prefix(Value().objects[k])) else Err(NotFound)
      ensures r.Ok? ==> r.value <= Value().objects[k] && |r.value| == Min(512, |Value().objects[k]|)
    {
      if k !in objects {
        return Err(NotFound);
      }
      var bytes := objects[k];
      return Ok(if |bytes| > PREFIX_BYTES then bytes[..PREFIX_BYTES] else bytes);
    }
  }

  lemma {:induction false} MissingPart(uploaded: seq<Part>, parts: seq<CompletedPart>, k: nat)
    requires k <= |parts| && Assembled(uploaded, parts[..k]).None?
    ensures Assembled(uploaded, parts).None?
    decreases |parts|
  {
    if k == |parts| {
      assert parts[..k] == parts;
    } else {
      var n := |parts| - 1;
      assert parts[..n][..k] == parts[..k];
      MissingPart(uploaded, parts[..n], k);
    }
  }
}
