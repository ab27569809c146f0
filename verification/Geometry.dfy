/** Part geometry of a multipart upload, what each part must weigh, and which parts a client is
    asked to send. */
module Geometry {
  import opened Wrappers

  const MIB := 1024 * 1024
  const GIB := 1024 * MIB
  const MAX_OBJECT_BYTES := 5 * 1024 * GIB
  const MIN_PART_BYTES := 5 * MIB
  const MAX_PARTS := 10_000
  const MAX_PART_BYTES := 5 * GIB
  const MAX_U64 := 0xFFFF_FFFF_FFFF_FFFF
  const MAX_U16 := 0xFFFF

  datatype GeometryError = EmptyFile | InvalidPartSize | TooLarge | ZeroPartSize | TooManyParts

  function DivCeil(a: nat, b: nat): nat
    requires b > 0
  {
    (a + b - 1) / b
  }

  function PartSizeBytes(fileSize: nat, target: nat): Result<nat, GeometryError> {
    if !(MIN_PART_BYTES <= target <= MAX_PART_BYTES) then Err(InvalidPartSize)
    else if fileSize == 0 then Err(EmptyFile)
    else if fileSize > MAX_OBJECT_BYTES then Err(TooLarge)
    else
      var floor := DivCeil(fileSize, MAX_PARTS);
      Ok(if target < floor then floor else target)
  }

  /** Saturating product in 64 bits. */
  function LargestSizeHonouring(target: nat): nat {
    if target * MAX_PARTS > MAX_U64 then MAX_U64 else target * MAX_PARTS
  }

  function PartCount(fileSize: nat, partSize: nat): Result<nat, GeometryError> {
    if fileSize == 0 then Err(EmptyFile)
    else if partSize == 0 then Err(ZeroPartSize)
    else
      var parts := DivCeil(fileSize, partSize);
      if parts > MAX_PARTS || parts > MAX_U16 then Err(TooManyParts) else Ok(parts)
  }

  /** `ceil(a / b)` is the `k` with `(k - 1) b < a <= k b`. */
  lemma DivCeilIs(a: nat, b: nat, k: nat)
    requires b > 0 && k > 0 && (k - 1) * b < a <= k * b
    ensures DivCeil(a, b) == k
  {
    var r := a - (k - 1) * b;
    assert a + b - 1 == k * b + (r - 1);
    DivOf(k, b, r - 1);
  }

  /** Whole steps of `b` apart. */
  lemma {:induction false} MulApart(q: nat, k: nat, b: nat)
    ensures q > k ==> q * b >= k * b + b
    ensures q < k ==> k * b >= q * b + b
  {
    if q > k + 1 {
      MulApart(q - 1, k, b);
      assert q * b == (q - 1) * b + b;
    } else if k > q + 1 {
      MulApart(q, k - 1, b);
      assert k * b == (k - 1) * b + b;
    } else {
      assert (q + 1) * b == q * b + b && (k + 1) * b == k * b + b;
    }
  }

  lemma DivOf(k: nat, b: nat, r: nat)
    requires r < b
    ensures (k * b + r) / b == k
  {
    var q := (k * b + r) / b;
    assert q * b + (k * b + r) % b == k * b + r;
    MulApart(q, k, b);
  }

  lemma DivCeilBounds(a: nat, b: nat)
    requires b > 0
    ensures DivCeil(a, b) * b < a + b && a <= DivCeil(a, b) * b
  {
    var q := DivCeil(a, b);
    assert q * b + (a + b - 1) % b == a + b - 1;
  }

  /** Targets of 5 MiB to 5 GiB, files of one byte to 5 TiB. */
  predicate ValidInput(fileSize: nat, target: nat) {
    5_242_880 <= target <= 5_368_709_120 && 0 < fileSize <= 5_497_558_138_880
  }

  /** For every valid size and target: part size in range and equal to the target exactly up to the honoured size; part
      count at most the cap, and exactly the cap above it. */
  lemma GeometryHolds(fileSize: nat, target: nat)
    ensures PartSizeBytes(fileSize, target).Ok? <==> ValidInput(fileSize, target)
    ensures ValidInput(fileSize, target) ==>
              var p := PartSizeBytes(fileSize, target).value;
              var n := PartCount(fileSize, p);
              && 5_242_880 <= p <= 5_368_709_120
              && (p == target <==> fileSize <= LargestSizeHonouring(target))
              && LargestSizeHonouring(target) == 10_000 * target
              && n.Ok? && 1 <= n.value <= 10_000
              && (fileSize > LargestSizeHonouring(target) ==> n.value == 10_000)
              && (n.value - 1) * p < fileSize <= n.value * p
  {
    if ValidInput(fileSize, target) {
      var floor := DivCeil(fileSize, MAX_PARTS);
      var p := PartSizeBytes(fileSize, target).value;
      DivCeilBounds(fileSize, p);
      CountBounds(fileSize, p);
      if target < floor {
        assert (MAX_PARTS - 1) * p < fileSize <= MAX_PARTS * p;
        DivCeilIs(fileSize, p, MAX_PARTS);
      }
    }
  }

  /** What is refused, and as what: a target out of range first, then an empty file, then one too large; an empty
      file before a part size of zero, and otherwise only a file of more than ten thousand parts. */
  lemma GeometryRefuses(fileSize: nat, target: nat, partSize: nat)
    ensures PartSizeBytes(fileSize, target) == Err(InvalidPartSize) <==> !(5_242_880 <= target <= 5_368_709_120)
    ensures PartSizeBytes(fileSize, target) == Err(EmptyFile)
            <==> 5_242_880 <= target <= 5_368_709_120 && fileSize == 0
    ensures PartSizeBytes(fileSize, target) == Err(TooLarge)
            <==> 5_242_880 <= target <= 5_368_709_120 && fileSize > 5_497_558_138_880
    ensures PartCount(fileSize, partSize) == Err(EmptyFile) <==> fileSize == 0
    ensures PartCount(fileSize, partSize) == Err(ZeroPartSize) <==> fileSize > 0 && partSize == 0
    ensures PartCount(fileSize, partSize) == Err(TooManyParts)
            <==> fileSize > 0 && partSize > 0 && fileSize > 10_000 * partSize
    ensures var r := PartCount(fileSize, partSize); r.Err? ==> r.error in {EmptyFile, ZeroPartSize, TooManyParts}
  {
    if partSize > 0 {
      var q := DivCeil(fileSize, partSize);
      DivCeilBounds(fileSize, partSize);
      MulApart(q, 10_000, partSize);
    }
  }

  lemma CountBounds(fileSize: nat, p: nat)
    requires 0 < fileSize <= MAX_PARTS * p && p > 0
    ensures 1 <= DivCeil(fileSize, p) <= MAX_PARTS
    ensures (DivCeil(fileSize, p) - 1) * p < fileSize <= DivCeil(fileSize, p) * p
  {
    var q := DivCeil(fileSize, p);
    DivCeilBounds(fileSize, p);
    MulApart(q, 0, p);
    MulApart(q, MAX_PARTS, p);
    assert q * p == (q - 1) * p + p;
  }

  // ------------------------------------------------------------------ what each part weighs

  datatype Slicing = Slicing(declaredSize: nat, partSize: nat, partCount: nat)

  /** Checked 64-bit arithmetic: an overflow or an underflow is "no expected size". */
  function ExpectedPartSize(s: Slicing, number: nat): Option<nat> {
    if number == 0 || number > s.partCount then None
    else if number < s.partCount then Some(s.partSize)
    else
      var consumed := (s.partCount - 1) * s.partSize;
      if consumed > MAX_U64 || s.declaredSize < consumed then None else Some(s.declaredSize - consumed)
  }

  function ExpectedTotal(s: Slicing, upto: nat): Option<nat> {
    if upto == 0 then Some(0)
    else
      match (ExpectedTotal(s, upto - 1), ExpectedPartSize(s, upto))
      case (Some(a), Some(b)) => Some(a + b)
      case _ => None
  }

  lemma {:induction false} FullParts(s: Slicing, upto: nat)
    requires upto < s.partCount
    ensures ExpectedTotal(s, upto) == Some(upto * s.partSize)
  {
    if upto > 0 {
      FullParts(s, upto - 1);
      assert upto * s.partSize == (upto - 1) * s.partSize + s.partSize;
    }
  }

  predicate WellSliced(s: Slicing) {
    && s.partCount >= 1 && s.partSize >= 1
    && (s.partCount - 1) * s.partSize < s.declaredSize <= s.partCount * s.partSize <= MAX_U64
  }

  /** The slicing preflight hands out. */
  lemma GeometrySlicesWell(fileSize: nat, target: nat, p: nat, n: nat)
    requires PartSizeBytes(fileSize, target) == Ok(p) && PartCount(fileSize, p) == Ok(n)
    ensures WellSliced(Slicing(fileSize, p, n))
  {
    GeometryHolds(fileSize, target);
    SliceBounds(fileSize, p, n);
  }

  lemma SliceBounds(fileSize: nat, p: nat, n: nat)
    requires fileSize <= MAX_OBJECT_BYTES && 1 <= p <= MAX_PART_BYTES && n >= 1
    requires (n - 1) * p < fileSize <= n * p
    ensures WellSliced(Slicing(fileSize, p, n))
  {
    assert n * p == (n - 1) * p + p;
  }

  /** Every part of a well-sliced upload weighs something, and together they weigh the declared size. */
  lemma PartsSumToDeclared(s: Slicing, number: nat)
    requires WellSliced(s)
    ensures ExpectedTotal(s, s.partCount) == Some(s.declaredSize)
    ensures ExpectedPartSize(s, number).Some? <==> 1 <= number <= s.partCount
    ensures ExpectedPartSize(s, number).Some? ==> 0 < ExpectedPartSize(s, number).value <= s.partSize
    ensures 1 <= number < s.partCount ==> ExpectedPartSize(s, number) == Some(s.partSize)
  {
    FullParts(s, s.partCount - 1);
    assert s.partCount * s.partSize == (s.partCount - 1) * s.partSize + s.partSize;
  }

  // ------------------------------------------------------------------ resuming

  datatype UploadedPart = UploadedPart(number: nat, size: nat)

  /** Parts the client may skip: those of exactly the expected size. */
  function Resumable(s: Slicing, uploaded: seq<UploadedPart>): seq<UploadedPart> {
    if uploaded == [] then []
    else
      var n := |uploaded| - 1;
      Resumable(s, uploaded[..n])
      + (if ExpectedPartSize(s, uploaded[n].number) == Some(uploaded[n].size) then [uploaded[n]] else [])
  }

  function TotalSize(parts: seq<UploadedPart>): nat {
    if parts == [] then 0 else TotalSize(parts[..|parts| - 1]) + parts[|parts| - 1].size
  }

  predicate Fits(s: Slicing, p: UploadedPart) {
    ExpectedPartSize(s, p.number) == Some(p.size)
  }

  /** A listing keeps exactly its parts of the expected size, each as often as it is listed, in the listing's order:
      what is kept of two listings in a row is what is kept of the one followed by what is kept of the other. */
  lemma {:induction false} ResumableIsExact(s: Slicing, uploaded: seq<UploadedPart>, more: seq<UploadedPart>)
    ensures forall p :: multiset(Resumable(s, uploaded))[p] == if Fits(s, p) then multiset(uploaded)[p] else 0
    ensures forall p :: p in Resumable(s, uploaded) <==> p in uploaded && Fits(s, p)
    ensures Resumable(s, uploaded + more) == Resumable(s, uploaded) + Resumable(s, more)
    decreases |uploaded|, |more|
  {
    if more == [] {
      assert uploaded + more == uploaded;
      if uploaded != [] {
        var n := |uploaded| - 1;
        ResumableIsExact(s, uploaded[..n], []);
        assert uploaded == uploaded[..n] + [uploaded[n]];
        CountsMean(s, uploaded);
      }
    } else {
      var n := |more| - 1;
      ResumableIsExact(s, uploaded, more[..n]);
      assert (uploaded + more)[..|uploaded + more| - 1] == uploaded + more[..n];
    }
  }

  lemma CountsMean(s: Slicing, uploaded: seq<UploadedPart>)
    requires forall p :: multiset(Resumable(s, uploaded))[p] == if Fits(s, p) then multiset(uploaded)[p] else 0
    ensures forall p :: p in Resumable(s, uploaded) <==> p in uploaded && Fits(s, p)
  {
    forall p
      ensures p in Resumable(s, uploaded) <==> p in uploaded && Fits(s, p)
    {
      assert p in Resumable(s, uploaded) <==> p in multiset(Resumable(s, uploaded));
      assert p in uploaded <==> p in multiset(uploaded);
    }
  }

  predicate DistinctNumbers(parts: seq<UploadedPart>) {
    forall i, j :: 0 <= i < j < |parts| ==> parts[i].number != parts[j].number
  }

  /** A listed number is either resumable or must be sent again, never both. */
  lemma ResumeOrSendAgain(s: Slicing, uploaded: seq<UploadedPart>, p: UploadedPart)
    requires DistinctNumbers(uploaded) && p in uploaded
    ensures (exists q :: q in Resumable(s, uploaded) && q.number == p.number) <==> Fits(s, p)
  {
    ResumableIsExact(s, uploaded, []);
    if exists q :: q in Resumable(s, uploaded) && q.number == p.number {
      var q :| q in Resumable(s, uploaded) && q.number == p.number;
      assert q in uploaded;
      var i :| 0 <= i < |uploaded| && uploaded[i] == p;
      var j :| 0 <= j < |uploaded| && uploaded[j] == q;
      assert i == j;
    }
  }

  /** A listing that resumes to parts 1, 2, ..., `n` holds exactly the declared bytes, so the assembled object passes
      the size check. */
  lemma {:induction false} CompleteListingHasDeclaredSize(s: Slicing, parts: seq<UploadedPart>)
    requires forall i :: 0 <= i < |parts| ==> parts[i].number == i + 1
    requires forall p <- parts :: ExpectedPartSize(s, p.number) == Some(p.size)
    ensures ExpectedTotal(s, |parts|) == Some(TotalSize(parts))
    ensures WellSliced(s) && |parts| == s.partCount ==> TotalSize(parts) == s.declaredSize
  {
    if parts != [] {
      var n := |parts| - 1;
      assert parts[n] in parts;
      CompleteListingHasDeclaredSize(s, parts[..n]);
    }
    if WellSliced(s) && |parts| == s.partCount {
      PartsSumToDeclared(s, 1);
    }
  }

  /** Numbers `lo..=hi` that are not in `skip`. */
  function Missing(lo: nat, hi: int, skip: seq<nat>): seq<nat>
    decreases hi - lo + 1
  {
    if hi < lo then [] else Missing(lo, hi - 1, skip) + (if hi in skip then [] else [hi])
  }

  ghost predicate Ascending(r: seq<nat>) {
    forall i, j :: 0 <= i < j < |r| ==> r[i] < r[j]
  }

  /** Exactly those numbers, each once, in ascending order. */
  lemma {:induction false} MissingIsExact(lo: nat, hi: int, skip: seq<nat>)
    ensures forall n :: n in Missing(lo, hi, skip) <==> lo <= n <= hi && n !in skip
    ensures Ascending(Missing(lo, hi, skip))
    decreases hi - lo + 1
  {
    if lo <= hi {
      MissingIsExact(lo, hi - 1, skip);
      PushAscends(Missing(lo, hi - 1, skip), hi);
    }
  }

  lemma PushAscends(init: seq<nat>, hi: nat)
    requires Ascending(init) && forall n <- init :: n < hi
    ensures Ascending(init + [hi])
  {
    assert forall i :: 0 <= i < |init| ==> init[i] in init;
  }

  /** Sign the window, part by part. */
  method PresignWindow(first: nat, last: nat, skip: seq<nat>) returns (signed: seq<nat>)
    ensures signed == Missing(first, last, skip)
  {
    signed := [];
    var n := first;
    while n <= last
      invariant first <= n && (n <= last + 1 || n == first)
      invariant signed == Missing(first, n - 1, skip)
    {
      if n !in skip {
        signed := signed + [n];
      }
      n := n + 1;
    }
    if first <= last {
      assert n == last + 1;
    }
  }

  datatype RenewError = InvalidFromPart | Gone

  function SaturatingU16(n: nat): nat {
    if n > MAX_U16 then MAX_U16 else n
  }

  function MinOf(a: nat, b: nat): nat {
    if a < b then a else b
  }

  /** Where a resume starts: the least number from `lo` on that is not there, or the last part when all are. */
  function ResumeAt(lo: nat, partCount: nat, already: seq<nat>): nat
    decreases partCount - lo
  {
    if lo >= partCount then partCount else if lo !in already then lo else ResumeAt(lo + 1, partCount, already)
  }

  lemma {:induction false} ResumeAtLeastMissing(lo: nat, partCount: nat, already: seq<nat>)
    requires lo <= partCount
    ensures var first := ResumeAt(lo, partCount, already);
            && lo <= first <= partCount && (forall n :: lo <= n < first ==> n in already)
            && (first in already <==> forall n :: lo <= n <= partCount ==> n in already)
    decreases partCount - lo
  {
    if lo < partCount && lo in already {
      ResumeAtLeastMissing(lo + 1, partCount, already);
    }
  }

  /** The last part of a window of `count` parts. */
  function WindowEnd(first: nat, count: Option<nat>, partCount: nat): nat {
    if count.None? then partCount else MinOf(first + (if count.value == 0 then 1 else count.value) - 1, partCount)
  }

  /** A resume signs exactly the missing parts of its window; the window starts at the least missing part, so it is
      empty only when none is missing, and without a count it is all of them. */
  lemma ResumeWindow(partCount: nat, count: Option<nat>, already: seq<nat>)
    requires partCount >= 1
    ensures var first := ResumeAt(1, partCount, already);
            var window := Missing(first, WindowEnd(first, count, partCount), already);
            && window <= Missing(1, partCount, already)
            && (count.None? ==> window == Missing(1, partCount, already))
            && (window == [] <==> Missing(1, partCount, already) == [])
  {
    var first := ResumeAt(1, partCount, already);
    var last := WindowEnd(first, count, partCount);
    ResumeAtLeastMissing(1, partCount, already);
    NothingBelow(first, last, partCount, already);
    MissingIsExact(1, partCount, already);
    MissingIsExact(first, last, already);
    if first !in already {
      assert first in Missing(first, last, already);
    } else {
      NoneMissing(Missing(1, partCount, already));
    }
  }

  lemma NoneMissing(r: seq<nat>)
    ensures (forall n :: n !in r) ==> r == []
  {
    if r != [] {
      assert r[0] in r;
    }
  }

  /** The part-signing endpoint. `listing` is what storage holds, `None` when the multipart is gone.
      - With `fromPart`, exactly the named window is signed, uploaded or not.
      - Without it, exactly the missing parts of the window that starts at the least missing one, in ascending order. */
  method Renew(partCount: nat, fromPart: Option<nat>, count: Option<nat>, listing: Option<seq<nat>>)
    returns (r: Result<seq<nat>, RenewError>)
    requires 1 <= partCount <= MAX_U16
    ensures fromPart.Some? && !(1 <= fromPart.value <= partCount) ==> r == Err(InvalidFromPart)
    ensures fromPart.None? && listing.None? ==> r == Err(Gone)
    ensures fromPart.Some? && 1 <= fromPart.value <= partCount ==>
              r == Ok(Missing(fromPart.value, WindowEnd(fromPart.value, count, partCount), []))
    ensures fromPart.None? && listing.Some? ==>
              var first := ResumeAt(1, partCount, listing.value);
              r == Ok(Missing(first, WindowEnd(first, count, partCount), listing.value))
    ensures fromPart.None? && listing.Some? ==>
              && r.value <= Missing(1, partCount, listing.value)
              && (count.None? ==> r.value == Missing(1, partCount, listing.value))
              && (r.value == [] <==> Missing(1, partCount, listing.value) == [])
  {
    var first: nat := 1;
    var skip: seq<nat> := [];
    match fromPart {
      case Some(n) =>
        if n < 1 || n > partCount {
          return Err(InvalidFromPart);
        }
        first := n;
      case None =>
        if listing.None? {
          return Err(Gone);
        }
        skip := listing.value;
        first := FirstMissing(partCount, skip);
    }
    var last := partCount;
    if count.Some? {
      var size := if count.value == 0 then 1 else count.value;
      last := MinOf(SaturatingU16(first + size - 1), partCount);
    }
    var signed := PresignWindow(first, last, skip);
    ResumeWindow(partCount, count, skip);
    return Ok(signed);
  }

  method FirstMissing(partCount: nat, already: seq<nat>) returns (first: nat)
    requires partCount >= 1
    ensures first == ResumeAt(1, partCount, already)
  {
    first := 1;
    while first <= partCount
      invariant 1 <= first <= partCount + 1
      invariant ResumeAt(first, partCount, already) == ResumeAt(1, partCount, already)
    {
      if first !in already {
        return;
      }
      first := first + 1;
    }
    first := partCount;
  }

  lemma {:induction false} MissingFrom(lo: nat, first: nat, hi: nat, skip: seq<nat>)
    requires lo <= first && forall n :: lo <= n < first ==> n in skip
    ensures hi + 1 >= first ==> Missing(lo, hi, skip) == Missing(first, hi, skip)
    ensures hi < first ==> Missing(lo, hi, skip) == []
    decreases hi
  {
    if hi >= lo && hi > 0 {
      MissingFrom(lo, first, hi - 1, skip);
    }
  }

  lemma {:induction false} MissingPrefix(first: nat, last: nat, hi: nat, skip: seq<nat>)
    requires last <= hi
    ensures Missing(first, last, skip) <= Missing(first, hi, skip)
    decreases hi
  {
    if last < hi {
      MissingPrefix(first, last, hi - 1, skip);
    }
  }

  lemma NothingBelow(first: nat, last: nat, partCount: nat, skip: seq<nat>)
    requires 1 <= first <= partCount && last <= partCount && forall n :: 1 <= n < first ==> n in skip
    ensures Missing(first, last, skip) <= Missing(1, partCount, skip)
    ensures last == partCount ==> Missing(first, last, skip) == Missing(1, partCount, skip)
  {
    MissingFrom(1, first, partCount, skip);
    MissingPrefix(first, last, partCount, skip);
  }
}
