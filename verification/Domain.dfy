/** Optional values, results and bytes, used by every module. */
module Wrappers {
  datatype Option<+T> = None | Some(value: T)

  datatype Result<+T, +E> = Ok(value: T) | Err(error: E)

  type Byte = b: int | 0 <= b < 256

  type Bytes = seq<Byte>

  /** How a call to a store goes: it works; it fails before taking effect; it takes effect and the reply
      is lost; or the store refuses it for good. */
  datatype Port = Works | Down | LostReply | Refused

  predicate TakesEffect(p: Port) {
    p.Works? || p.LostReply?
  }
}

/** The document domain: event kinds, the folded row and the fold step.

    The five blob columns of the row are always written together, so they are
    grouped in `BlobFacts`; the four patchable columns are grouped in `Labels`. */
module Domain {
  import opened Wrappers

  type Id = string

  datatype Actor = User(userId: Id) | System(component: string)

  datatype Json = Json(text: string)

  const EMPTY_OBJECT := Json("{}")

  datatype MetadataPatch = MetadataPatch(
    title: Option<string>,
    tags: Option<seq<string>>,
    description: Option<string>,
    metadata: Option<Json>)

  datatype BlobFacts = BlobFacts(
    blobRef: Id,
    filename: string,
    contentType: string,
    byteSize: nat,
    checksum: string)

  datatype Payload =
    | DocumentCreated(created: BlobFacts, createdPatch: MetadataPatch)
    | DocumentBlobValidated(validated: BlobFacts, validatedPatch: MetadataPatch, basedOnVersion: Option<nat>)
    | DocumentMetadataChanged(patch: MetadataPatch)
    | DocumentTextExtracted(textForVersion: nat, extractorVersion: string, charCount: nat, textChecksum: string)
    | DocumentIndexed(indexForVersion: nat, vectorCount: nat, embeddingModel: string)
    | DocumentStageFailed(failedForVersion: nat, stage: string, failure: string, attempts: nat)
    | DocumentReverted(revertedTo: nat, revertPatch: MetadataPatch)
    | DocumentDeleted(deleteReason: string)
    | DocumentBlobPruned(prunedRef: Id, pruneReason: string)

  /** Event ids are digests of a tuple in the source; here they are the tuple. */
  datatype EventId =
    | CreatedId(tenant: Id, upload: Id)
    | BlobValidatedId(tenant: Id, upload: Id)
    | OtherId(token: string)

  datatype DocumentEvent = DocumentEvent(
    eventId: EventId,
    tenantId: Id,
    documentId: Id,
    actor: Actor,
    version: nat,
    ts: int,
    payload: Payload)

  const INDEX_STAGE := "index"

  /** The blob an event introduced. A pruned blob is one the event removes, so it does not count. */
  function BlobRef(p: Payload): Option<Id> {
    match p
    case DocumentCreated(b, _) => Some(b.blobRef)
    case DocumentBlobValidated(b, _, _) => Some(b.blobRef)
    case _ => None
  }

  datatype DocState = Active | Deleted

  datatype IndexState = Pending | Current | Failed

  datatype Labels = Labels(
    title: Option<string>,
    tags: seq<string>,
    description: Option<string>,
    metadata: Json)

  datatype DocumentState = DocumentState(
    tenantId: Id,
    documentId: Id,
    ownerUserId: Id,
    version: nat,
    streamSeq: nat,
    state: DocState,
    indexState: IndexState,
    indexVersion: Option<nat>,
    blob: Option<BlobFacts>,
    labels: Labels,
    createdAt: int,
    updatedAt: int)

  datatype FoldError = NoPriorState | SystemActorCreate | DocumentMismatch

  function MergePatch(l: Labels, p: MetadataPatch): Labels {
    Labels(
      if p.title.Some? then Some(p.title.value) else l.title,
      if p.tags.Some? then p.tags.value else l.tags,
      if p.description.Some? then Some(p.description.value) else l.description,
      if p.metadata.Some? then p.metadata.value else l.metadata)
  }

  const NO_LABELS := Labels(None, [], None, EMPTY_OBJECT)

  function Seed(e: DocumentEvent, seqNo: nat, createdAt: int): DocumentState
    requires e.payload.DocumentCreated? && e.actor.User?
  {
    DocumentState(
      e.tenantId, e.documentId, e.actor.userId, e.version, seqNo, Active, Pending, None,
      Some(e.payload.created), MergePatch(NO_LABELS, e.payload.createdPatch), createdAt, e.ts)
  }

  /** Effect of a non-create event on a row that has already been stamped with the event's
      version, sequence and time. */
  function Amend(next: DocumentState, p: Payload): DocumentState
    requires !p.DocumentCreated?
  {
    match p
    case DocumentBlobValidated(b, patch, _) =>
      next.(blob := Some(b), indexState := Pending, labels := MergePatch(next.labels, patch))
    case DocumentMetadataChanged(patch) => next.(labels := MergePatch(next.labels, patch))
    case DocumentReverted(_, patch) => next.(labels := MergePatch(next.labels, patch))
    case DocumentDeleted(_) => next.(state := Deleted)
    case DocumentIndexed(forVersion, _, _) =>
      next.(indexVersion := Some(forVersion),
            indexState := if forVersion >= next.version then Current else Pending)
    case DocumentStageFailed(_, stage, _, _) =>
      if stage == INDEX_STAGE then next.(indexState := Failed) else next
    case DocumentTextExtracted(_, _, _, _) => next
    case DocumentBlobPruned(_, _) => next
  }

  /** Fold one event into a row. */
  function Apply(prior: Option<DocumentState>, e: DocumentEvent, seqNo: nat): Result<DocumentState, FoldError> {
    if prior.Some? && prior.value.documentId != e.documentId then Err(DocumentMismatch)
    else if e.payload.DocumentCreated? then
      if e.actor.System? then Err(SystemActorCreate)
      else Ok(Seed(e, seqNo, if prior.Some? then prior.value.createdAt else e.ts))
    else if prior.None? then Err(NoPriorState)
    else Ok(Amend(prior.value.(version := e.version, streamSeq := seqNo, updatedAt := e.ts), e.payload))
  }
}

/** What folding a document's events means: per column, the last event that writes
    the column wins. Stated as an algebra of overlays, which is what makes folding
    a second time harmless. */
module Fold {
  import opened Wrappers
  import opened Domain

  datatype Entry = Entry(seqNo: nat, event: DocumentEvent)

  /** One event folded, or skipped when the fold refuses it. */
  function ApplySkip(prior: Option<DocumentState>, x: Entry): Option<DocumentState> {
    match Apply(prior, x.event, x.seqNo)
    case Ok(s) => Some(s)
    case Err(_) => prior
  }

  function FoldSkip(prior: Option<DocumentState>, xs: seq<Entry>): Option<DocumentState> {
    if xs == [] then prior else ApplySkip(FoldSkip(prior, xs[..|xs| - 1]), xs[|xs| - 1])
  }

  lemma {:induction false} FoldSkipConcat(prior: Option<DocumentState>, xs: seq<Entry>, ys: seq<Entry>)
    ensures FoldSkip(prior, xs + ys) == FoldSkip(FoldSkip(prior, xs), ys)
  {
    if ys == [] {
      assert xs + ys == xs;
    } else {
      var n := |ys| - 1;
      assert (xs + ys)[..|xs + ys| - 1] == xs + ys[..n];
      FoldSkipConcat(prior, xs, ys[..n]);
    }
  }

  /** A set of column writes: `Some` overwrites, `None` leaves the column alone. */
  datatype Overlay = Overlay(
    owner: Option<Id>,
    version: Option<nat>,
    streamSeq: Option<nat>,
    state: Option<DocState>,
    indexState: Option<IndexState>,
    indexVersion: Option<Option<nat>>,
    blob: Option<Option<BlobFacts>>,
    title: Option<Option<string>>,
    tags: Option<seq<string>>,
    description: Option<Option<string>>,
    metadata: Option<Json>,
    updatedAt: Option<int>)

  const NOTHING := Overlay(None, None, None, None, None, None, None, None, None, None, None, None)

  function Or<T>(o: Option<T>, kept: T): T {
    if o.Some? then o.value else kept
  }

  function Later<T>(a: Option<T>, b: Option<T>): Option<T> {
    if b.Some? then b else a
  }

  function Write(s: DocumentState, o: Overlay): DocumentState {
    DocumentState(
      s.tenantId, s.documentId,
      Or(o.owner, s.ownerUserId), Or(o.version, s.version), Or(o.streamSeq, s.streamSeq),
      Or(o.state, s.state), Or(o.indexState, s.indexState), Or(o.indexVersion, s.indexVersion),
      Or(o.blob, s.blob),
      Labels(Or(o.title, s.labels.title), Or(o.tags, s.labels.tags),
             Or(o.description, s.labels.description), Or(o.metadata, s.labels.metadata)),
      s.createdAt, Or(o.updatedAt, s.updatedAt))
  }

  function Then(a: Overlay, b: Overlay): Overlay {
    Overlay(
      Later(a.owner, b.owner), Later(a.version, b.version), Later(a.streamSeq, b.streamSeq),
      Later(a.state, b.state), Later(a.indexState, b.indexState), Later(a.indexVersion, b.indexVersion),
      Later(a.blob, b.blob), Later(a.title, b.title), Later(a.tags, b.tags),
      Later(a.description, b.description), Later(a.metadata, b.metadata), Later(a.updatedAt, b.updatedAt))
  }

  lemma WriteThen(s: DocumentState, a: Overlay, b: Overlay)
    ensures Write(Write(s, a), b) == Write(s, Then(a, b))
  {
  }

  function Lift<T>(o: Option<T>): Option<Option<T>> {
    if o.Some? then Some(o) else None
  }

  function PatchOverlay(o: Overlay, p: MetadataPatch): Overlay {
    o.(title := Later(o.title, Lift(p.title)), tags := Later(o.tags, p.tags),
       description := Later(o.description, Lift(p.description)), metadata := Later(o.metadata, p.metadata))
  }

  /** The columns an event writes on a row that exists: a function of the event alone. */
  function Writes(x: Entry): Overlay {
    var e := x.event;
    var stamp := NOTHING.(version := Some(e.version), streamSeq := Some(x.seqNo), updatedAt := Some(e.ts));
    match e.payload
    case DocumentCreated(b, patch) =>
      if e.actor.System? then NOTHING
      else PatchOverlay(
          stamp.(owner := Some(e.actor.userId), state := Some(Active), indexState := Some(Pending),
                 indexVersion := Some(None), blob := Some(Some(b)), title := Some(None), tags := Some([]),
                 description := Some(None), metadata := Some(EMPTY_OBJECT)),
          patch)
    case DocumentBlobValidated(b, patch, _) =>
      PatchOverlay(stamp.(blob := Some(Some(b)), indexState := Some(Pending)), patch)
    case DocumentMetadataChanged(patch) => PatchOverlay(stamp, patch)
    case DocumentReverted(_, patch) => PatchOverlay(stamp, patch)
    case DocumentDeleted(_) => stamp.(state := Some(Deleted))
    case DocumentIndexed(forVersion, _, _) =>
      stamp.(indexVersion := Some(Some(forVersion)),
             indexState := Some(if forVersion >= e.version then Current else Pending))
    case DocumentStageFailed(_, stage, _, _) =>
      if stage == INDEX_STAGE then stamp.(indexState := Some(Failed)) else stamp
    case DocumentTextExtracted(_, _, _, _) => stamp
    case DocumentBlobPruned(_, _) => stamp
  }

  predicate About(tenant: Id, doc: Id, xs: seq<Entry>) {
    forall x <- xs :: x.event.tenantId == tenant && x.event.documentId == doc
  }

  /** On an existing row of the same document the fold step is exactly the event's overlay. */
  lemma ApplyIsOverlay(s: DocumentState, x: Entry)
    requires x.event.tenantId == s.tenantId && x.event.documentId == s.documentId
    ensures ApplySkip(Some(s), x) == Some(Write(s, Writes(x)))
  {
    match x.event.payload
    case DocumentCreated(b, patch) =>
    case _ =>
  }

  function WritesAll(xs: seq<Entry>): Overlay {
    if xs == [] then NOTHING else Then(WritesAll(xs[..|xs| - 1]), Writes(xs[|xs| - 1]))
  }

  /** Folding any run of events over an existing row is one overlay. */
  lemma {:induction false} FoldIsOverlay(s: DocumentState, xs: seq<Entry>)
    requires About(s.tenantId, s.documentId, xs)
    ensures FoldSkip(Some(s), xs) == Some(Write(s, WritesAll(xs)))
  {
    if xs != [] {
      var n := |xs| - 1;
      FoldIsOverlay(s, xs[..n]);
      WriteThen(s, WritesAll(xs[..n]), Writes(xs[n]));
      ApplyIsOverlay(Write(s, WritesAll(xs[..n])), xs[n]);
    }
  }

  /** When a fold step refuses, and why: an event of another document; a create by a component; anything else with no
      row. */
  lemma ApplyRefuses(prior: Option<DocumentState>, x: Entry)
    ensures Apply(prior, x.event, x.seqNo) == Err(DocumentMismatch)
            <==> prior.Some? && prior.value.documentId != x.event.documentId
    ensures Apply(prior, x.event, x.seqNo) == Err(SystemActorCreate)
            <==> (prior.Some? ==> prior.value.documentId == x.event.documentId)
                 && x.event.payload.DocumentCreated? && x.event.actor.System?
    ensures Apply(prior, x.event, x.seqNo) == Err(NoPriorState) <==> prior.None? && !x.event.payload.DocumentCreated?
  {
  }

  predicate CreatesByUser(x: Entry) {
    x.event.payload.DocumentCreated? && x.event.actor.User?
  }

  /** With no row, only a user's create starts one. */
  lemma {:induction false} FoldFromNothing(tenant: Id, doc: Id, xs: seq<Entry>)
    requires About(tenant, doc, xs)
    ensures FoldSkip(None, xs).None? <==> forall x <- xs :: !CreatesByUser(x)
    ensures FoldSkip(None, xs).Some? ==>
              FoldSkip(None, xs).value.tenantId == tenant && FoldSkip(None, xs).value.documentId == doc
  {
    if xs != [] {
      var n := |xs| - 1;
      var init, x := xs[..n], xs[n];
      FoldFromNothing(tenant, doc, init);
      assert xs == init + [x];
      assert (forall y <- xs :: !CreatesByUser(y)) <==> (forall y <- init :: !CreatesByUser(y)) && !CreatesByUser(x);
      if FoldSkip(None, init).Some? {
        ApplyIsOverlay(FoldSkip(None, init).value, x);
      }
    }
  }

  /** A user's create overwrites every column but `createdAt`, so what came before it is forgotten. */
  lemma CreateForgets(s: DocumentState, t: DocumentState, x: Entry)
    requires CreatesByUser(x)
    requires s.tenantId == t.tenantId && s.documentId == t.documentId && s.createdAt == t.createdAt
    ensures Write(s, Writes(x)) == Write(t, Writes(x))
  {
  }

  /** Main law: folding an already folded suffix again changes nothing. */
  lemma RefoldSuffix(tenant: Id, doc: Id, prefix: seq<Entry>, suffix: seq<Entry>)
    requires About(tenant, doc, prefix) && About(tenant, doc, suffix)
    ensures FoldSkip(FoldSkip(None, prefix + suffix), suffix) == FoldSkip(None, prefix + suffix)
  {
    FoldSkipConcat(None, prefix, suffix);
    FoldFromNothing(tenant, doc, prefix);
    var p := FoldSkip(None, prefix);
    if p.Some? {
      var o := WritesAll(suffix);
      FoldIsOverlay(p.value, suffix);
      FoldIsOverlay(Write(p.value, o), suffix);
      WriteThen(p.value, o, o);
      assert Then(o, o) == o;
    } else {
      RefoldFresh(tenant, doc, suffix);
    }
  }

  lemma {:induction false} RefoldFresh(tenant: Id, doc: Id, xs: seq<Entry>)
    requires About(tenant, doc, xs)
    ensures FoldSkip(FoldSkip(None, xs), xs) == FoldSkip(None, xs)
  {
    if xs != [] {
      var n := |xs| - 1;
      var init, x := xs[..n], xs[n];
      var p := FoldSkip(None, init);
      FoldFromNothing(tenant, doc, init);
      if p.Some? {
        RefoldFresh(tenant, doc, init);
        // The row after `init` absorbs `init`; so does the row after `init` and `x`, up to x's own columns.
        var i, o := WritesAll(init), Writes(x);
        ApplyIsOverlay(p.value, x);
        FoldIsOverlay(p.value, init);
        FoldIsOverlay(Write(p.value, o), init);
        WriteThen(p.value, o, i);
        WriteThen(Write(p.value, o), i, o);
        WriteThen(p.value, i, o);
        WriteThen(p.value, Then(o, i), o);
        WriteTwice(p.value, o, i);
        ApplyIsOverlay(Write(Write(p.value, o), i), x);
      } else if CreatesByUser(x) {
        var s := Seed(x.event, x.seqNo, x.event.ts);
        FoldIsOverlay(s, init);
        var t := Write(s, WritesAll(init));
        ApplyIsOverlay(t, x);
        CreateForgets(t, s, x);
        SeedIsFixed(x);
      }
    }
  }

  lemma WriteTwice(s: DocumentState, o: Overlay, i: Overlay)
    requires Write(s, i) == s
    ensures Write(Write(Write(s, o), i), o) == Write(s, o)
  {
  }

  lemma SeedIsFixed(x: Entry)
    requires CreatesByUser(x)
    ensures var s := Seed(x.event, x.seqNo, x.event.ts); Write(s, Writes(x)) == s
  {
  }

  /** A row carries the time of the first user's create, whatever came later, and that create's tenant and document. */
  lemma {:induction false} RowKeepsItsBirth(tenant: Id, doc: Id, xs: seq<Entry>, i: nat)
    requires About(tenant, doc, xs) && i < |xs| && CreatesByUser(xs[i]) && forall x <- xs[..i] :: !CreatesByUser(x)
    ensures FoldSkip(None, xs).Some? && FoldSkip(None, xs).value.createdAt == xs[i].event.ts
  {
    var n := |xs| - 1;
    var init := xs[..n];
    FoldFromNothing(tenant, doc, init);
    FoldFromNothing(tenant, doc, xs);
    if i < n {
      assert init[..i] == xs[..i];
      RowKeepsItsBirth(tenant, doc, init, i);
      ApplyIsOverlay(FoldSkip(None, init).value, xs[n]);
    } else {
      assert init == xs[..i];
      assert xs[i] in xs;
    }
  }

  // ------------------------------------------------------------------ index freshness

  /** Position of the last event that introduced a blob, or -1. */
  function LastIntroduced(xs: seq<Entry>): (k: int)
    ensures -1 <= k < |xs|
    ensures k >= 0 ==> BlobRef(xs[k].event.payload).Some?
  {
    if xs == [] then -1
    else
      var n := |xs| - 1;
      if BlobRef(xs[n].event.payload).Some? then n else LastIntroduced(xs[..n])
  }

  predicate VersionsNeverDrop(xs: seq<Entry>) {
    forall i, j :: 0 <= i <= j < |xs| ==> xs[i].event.version <= xs[j].event.version
  }

  /** Strict fold, as the worker folds a history before appending to it. */
  function FoldHistory(xs: seq<Entry>): Result<Option<DocumentState>, FoldError> {
    if xs == [] then Ok(None)
    else
      match FoldHistory(xs[..|xs| - 1])
      case Err(e) => Err(e)
      case Ok(prior) =>
        match Apply(prior, xs[|xs| - 1].event, xs[|xs| - 1].seqNo)
        case Err(e) => Err(e)
        case Ok(s) => Ok(Some(s))
  }

  /** A row whose index is current serves the last blob any event introduced, and the index
      was built for a version no older than the event that introduced that blob. */
  lemma {:induction false} IndexCurrentCoversServedBlob(xs: seq<Entry>)
    requires VersionsNeverDrop(xs)
    requires FoldHistory(xs).Ok? && FoldHistory(xs).value.Some?
    ensures var s := FoldHistory(xs).value.value;
            var k := LastIntroduced(xs);
            && k >= 0 && s.blob.Some?
            && BlobRef(xs[k].event.payload) == Some(s.blob.value.blobRef)
            && (s.indexState.Current? ==>
                  s.indexVersion.Some? && s.indexVersion.value >= xs[k].event.version)
  {
    var n := |xs| - 1;
    var init := xs[..n];
    if FoldHistory(init).value.Some? {
      IndexCurrentCoversServedBlob(init);
      var k := LastIntroduced(init);
      assert xs[k].event.version <= xs[n].event.version;
      match xs[n].event.payload
      case DocumentCreated(_, _) =>
      case _ =>
    }
  }

  /** The loop over a mutable state that computes the strict fold. */
  method FoldHistoryLoop(history: seq<Entry>) returns (r: Result<Option<DocumentState>, FoldError>)
    ensures r == FoldHistory(history)
  {
    var state: Option<DocumentState> := None;
    for i := 0 to |history|
      invariant FoldHistory(history[..i]) == Ok(state)
    {
      assert history[..i + 1][..i] == history[..i];
      match Apply(state, history[i].event, history[i].seqNo) {
        case Ok(next) => state := Some(next);
        case Err(e) =>
          FoldErrorSticks(history, i + 1);
          return Err(e);
      }
    }
    assert history[..|history|] == history;
    return Ok(state);
  }

  lemma {:induction false} FoldErrorSticks(xs: seq<Entry>, k: nat)
    requires k <= |xs| && FoldHistory(xs[..k]).Err?
    ensures FoldHistory(xs) == FoldHistory(xs[..k])
    decreases |xs|
  {
    if k == |xs| {
      assert xs[..k] == xs;
    } else {
      assert xs[..|xs| - 1][..k] == xs[..k];
      FoldErrorSticks(xs[..|xs| - 1], k);
    }
  }

  /** When the strict fold succeeds it is the skipping fold. */
  lemma {:induction false} StrictIsSkip(xs: seq<Entry>)
    requires FoldHistory(xs).Ok?
    ensures FoldSkip(None, xs) == FoldHistory(xs).value
  {
    if xs != [] {
      StrictIsSkip(xs[..|xs| - 1]);
    }
  }
}
