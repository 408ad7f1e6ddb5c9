/** The `PushResourcesToRagflow` task: resources marked for deletion are deleted first, then
    every lab resource carrying the send-to-RAG tag is uploaded to a RagFlow dataset, one by
    one, unless it is already synced and up to date or cannot be sent. An upload of a
    resource already synced replaces its old document. The upload stops before the next
    resource once `max_errors` uploads have failed. The task reports what it uploaded,
    skipped, failed and deleted.

    The RagFlow dataset and the tags of the lab resources are the state of the task below.
    What the RagFlow calls do for a resource (whether deleting the old document fails, the
    id of the uploaded document or the exception of the upload, whether parsing raises) is
    given per resource as `Calls`. */
module PushResources {
  import opened Wrappers
  import opened PyText
  import opened TagStore
  import opened RagResource

  /** A resource the tag search found: its id, the `name` of its file (empty when unset), the
      file itself and its last modification time. */
  datatype Candidate = Candidate(id: string, name: string, content: Content, lastModifiedAt: int)

  /** What RagFlow does for one resource: `delete_document` of the old document raises, the
      result of `upload_document` (the new document's id), the outcome of `parse_documents`. */
  datatype Calls = Calls(deleteFails: bool, upload: Result<string>, parse: Outcome)

  /** The task's configuration and the time marks are written at. */
  datatype Setup = Setup(datasetId: string, limits: Limits, tmpDir: string, nowMs: nat)

  /** The tags of the lab resources (by id) and the documents of the RagFlow dataset, with
      those it has been asked to parse. */
  datatype Remote = Remote(tags: map<string, seq<Tag>>, documents: set<string>, parsed: set<string>)

  datatype SkipReason = AlreadySynced | Incompatible

  /** The report entries of `_process_single_upload` and `_create_failure_result`; an error
      is the exception's kind. */
  datatype UploadedDoc = UploadedDoc(resourceId: string, resourceName: string, documentId: string, wasUpdate: bool)
  datatype SkippedDoc = SkippedDoc(resourceId: string, resourceName: string, reason: SkipReason)
  datatype FailedDoc = FailedDoc(resourceId: string, resourceName: string, error: ErrorKind)

  /** What one resource comes to. */
  datatype UploadResult = WasUploaded(uploaded: UploadedDoc) | WasSkipped(skipped: SkippedDoc) | HasFailed(failed: FailedDoc)

  /** A `RagResource` wraps the lab resource. */
  const KEYS: TagKeys := KindKeys(LabResource)

  /** `file_resource.name or resource_model.id`. */
  function FileName(c: Candidate): (n: string)
    ensures c.name != "" ==> n == c.name
    ensures c.name == "" ==> n == c.id
  {
    if c.name != "" then c.name else c.id
  }

  function TagsOf(remote: Remote, id: string): seq<Tag>
  {
    if id in remote.tags then remote.tags[id] else []
  }

  function ResultId(r: UploadResult): string
  {
    match r
    case WasUploaded(u) => u.resourceId
    case WasSkipped(s) => s.resourceId
    case HasFailed(f) => f.resourceId
  }

  /** The decision of `_process_single_upload` before anything is sent. */
  datatype Decision = Skip(reason: SkipReason) | Send(updating: bool, oldDocumentId: Option<string>) | Raise(kind: ErrorKind)

  /** A synced resource whose sync date is not before its last change is skipped; otherwise an
      incompatible one is skipped; otherwise it is sent, as an update of its old document
      exactly when it is synced. A sync date that does not parse, or JSON content that does
      not parse, raises. */
  function Decide(limits: Limits, tags: seq<Tag>, c: Candidate): (d: Decision)
    ensures d == Skip(AlreadySynced) <==> IsSynced(KEYS, tags) && IsUpToDate(KEYS, tags, c.lastModifiedAt) == Ok(true)
    ensures d == Skip(Incompatible) <==>
              (IsSynced(KEYS, tags) ==> IsUpToDate(KEYS, tags, c.lastModifiedAt) == Ok(false)) &&
              IsCompatible(limits, c.content) == Ok(false)
    ensures d.Send? ==> IsCompatible(limits, c.content) == Ok(true)
    ensures d.Send? ==> (d.updating <==> IsSynced(KEYS, tags))
    ensures d.Send? ==> (d.oldDocumentId.Some? <==> d.updating)
    ensures d.Send? && d.updating ==> d.oldDocumentId == DocumentId(KEYS, tags) &&
                                      IsUpToDate(KEYS, tags, c.lastModifiedAt) == Ok(false)
    ensures d.Raise? ==> d.kind == GenericException || d.kind == ValueError
  {
    var synced := IsSynced(KEYS, tags);
    var upToDate := if synced then IsUpToDate(KEYS, tags, c.lastModifiedAt) else Ok(false);
    if upToDate.Err? then Raise(upToDate.kind)
    else if synced && upToDate.value then Skip(AlreadySynced)
    else match IsCompatible(limits, c.content)
      case Err(k) => Raise(k)
      case Ok(compatible) =>
        if !compatible then Skip(Incompatible)
        else Send(synced, if synced then DocumentId(KEYS, tags) else None)
  }

  /** `_upload_resource` for a resource `Decide` sends: the old document is deleted first
      (when it has a non-empty id; a failure is ignored), then the file is uploaded, the new
      document parsed and the resource marked as sent. `get_file` cannot raise here, since
      `GetFile` succeeds on every compatible resource. Returns the new document's id, or the
      exception with the state reached when it was raised. */
  function SendFile(setup: Setup, remote: Remote, c: Candidate, updating: bool, oldDocumentId: Option<string>, calls: Calls): (r: (Result<string>, Remote))
    ensures r.1.tags == (if r.0.Ok? then remote.tags[c.id := Replace(TagsOf(remote, c.id), MarkTags(KEYS, r.0.value, setup.datasetId, setup.nowMs))]
                         else remote.tags)
    ensures r.0.Ok? <==> calls.upload.Ok? && calls.parse.Pass?
    ensures r.0.Ok? ==> r.0.value == calls.upload.value && r.0.value in r.1.documents && r.0.value in r.1.parsed
    ensures r.0.Err? ==> r.0.kind == (if calls.upload.Err? then calls.upload.kind else calls.parse.kind)
    ensures var deleted := updating && oldDocumentId.Some? && oldDocumentId.value != "" && !calls.deleteFails;
            && (deleted ==> r.1.documents == (remote.documents - {oldDocumentId.value}) + (if calls.upload.Ok? then {calls.upload.value} else {}))
            && (!deleted ==> r.1.documents == remote.documents + (if calls.upload.Ok? then {calls.upload.value} else {}))
  {
    var afterDelete :=
      if updating && oldDocumentId.Some? && oldDocumentId.value != "" && !calls.deleteFails
      then remote.(documents := remote.documents - {oldDocumentId.value})
      else remote;
    match calls.upload
    case Err(k) => (Err(k), afterDelete)
    case Ok(id) =>
      var uploaded := afterDelete.(documents := afterDelete.documents + {id});
      match calls.parse
      case Fail(k) => (Err(k), uploaded)
      case Pass =>
        var marked := Replace(TagsOf(remote, c.id), MarkTags(KEYS, id, setup.datasetId, setup.nowMs));
        (Ok(id), uploaded.(parsed := uploaded.parsed + {id}, tags := uploaded.tags[c.id := marked]))
  }

  /** One turn of the upload loop: `_process_single_upload`, with an exception turned into a
      failure entry. */
  function Step(setup: Setup, remote: Remote, c: Candidate, calls: Calls): (r: (UploadResult, Remote))
    ensures ResultId(r.0) == c.id
    ensures r.0.WasSkipped? ==> r.1 == remote
  {
    var name := FileName(c);
    match Decide(setup.limits, TagsOf(remote, c.id), c)
    case Raise(k) => (HasFailed(FailedDoc(c.id, name, k)), remote)
    case Skip(reason) => (WasSkipped(SkippedDoc(c.id, name, reason)), remote)
    case Send(updating, oldId) =>
      var (sent, after) := SendFile(setup, remote, c, updating, oldId, calls);
      match sent
      case Err(k) => (HasFailed(FailedDoc(c.id, name, k)), after)
      case Ok(id) => (WasUploaded(UploadedDoc(c.id, name, id, updating)), after)
  }

  /** A resource is uploaded exactly when it is sent and both RagFlow calls succeed; it is
      then recorded as an update exactly when it was synced before, and afterwards it is
      synced with the new document in the task's dataset, parsed, and up to date unless it
      changed after the mark time. A resource synced and up to date is skipped without any
      call. */
  lemma UploadedResourceIsSynced(setup: Setup, remote: Remote, c: Candidate, calls: Calls)
    ensures var (r, after) := Step(setup, remote, c, calls);
            var d := Decide(setup.limits, TagsOf(remote, c.id), c);
            && (r.WasUploaded? <==> d.Send? && calls.upload.Ok? && calls.parse.Pass?)
            && (r.WasUploaded? ==>
                  var doc := r.uploaded.documentId;
                  && doc == calls.upload.value
                  && r.uploaded.wasUpdate == IsSynced(KEYS, TagsOf(remote, c.id))
                  && doc in after.documents && doc in after.parsed
                  && DocumentId(KEYS, TagsOf(after, c.id)) == Some(doc)
                  && DatasetId(KEYS, TagsOf(after, c.id)) == Ok(setup.datasetId)
                  && IsUpToDate(KEYS, TagsOf(after, c.id), c.lastModifiedAt) == Ok(setup.nowMs >= c.lastModifiedAt))
            && (IsSynced(KEYS, TagsOf(remote, c.id)) && IsUpToDate(KEYS, TagsOf(remote, c.id), c.lastModifiedAt) == Ok(true) ==>
                  r == WasSkipped(SkippedDoc(c.id, FileName(c), AlreadySynced)) && after == remote)
  {
    var (r, after) := Step(setup, remote, c, calls);
    if r.WasUploaded? {
      MarkedResource(KEYS, TagsOf(remote, c.id), r.uploaded.documentId, setup.datasetId, setup.nowMs, c.lastModifiedAt);
    }
  }

  /** Replacing a document: when an update's old document is deleted, it is gone from the
      dataset afterwards (unless RagFlow handed out the same id again), and a failure to
      delete it changes nothing in what the task reports. */
  lemma UpdateReplacesOldDocument(setup: Setup, remote: Remote, c: Candidate, calls: Calls)
    requires Decide(setup.limits, TagsOf(remote, c.id), c).Send?
    ensures var d := Decide(setup.limits, TagsOf(remote, c.id), c);
            var (r, after) := Step(setup, remote, c, calls);
            && (d.updating && d.oldDocumentId.value != "" && !calls.deleteFails &&
                (calls.upload.Ok? ==> calls.upload.value != d.oldDocumentId.value) ==>
                  d.oldDocumentId.value !in after.documents)
            && Step(setup, remote, c, calls.(deleteFails := true)).0 == r
  {
  }

  // ---------------------------------------------------------------- the upload loop

  /** The three lists of `_process_uploads`, the state reached and how many resources were
      taken. */
  datatype Progress = Progress(uploaded: seq<UploadedDoc>, skipped: seq<SkippedDoc>, failed: seq<FailedDoc>,
                               remote: Remote, processed: nat)

  function Record(p: Progress, r: UploadResult, after: Remote): (q: Progress)
    ensures q.processed == p.processed + 1 && q.remote == after
    ensures |q.uploaded| + |q.skipped| + |q.failed| == |p.uploaded| + |p.skipped| + |p.failed| + 1
    ensures |q.failed| <= |p.failed| + 1
    ensures p.uploaded <= q.uploaded && p.skipped <= q.skipped && p.failed <= q.failed
  {
    match r
    case WasUploaded(u) => Progress(p.uploaded + [u], p.skipped, p.failed, after, p.processed + 1)
    case WasSkipped(s) => Progress(p.uploaded, p.skipped + [s], p.failed, after, p.processed + 1)
    case HasFailed(f) => Progress(p.uploaded, p.skipped, p.failed + [f], after, p.processed + 1)
  }

  /** The rest of the loop from `p` on: it stops when the resources run out or, before the
      next one, once `maxErrors` uploads have failed. */
  function Process(setup: Setup, p: Progress, cs: seq<Candidate>, calls: seq<Calls>, maxErrors: nat): Progress
    requires |cs| == |calls|
    decreases |cs|
  {
    if |cs| == 0 || |p.failed| >= maxErrors then p
    else Process(setup, Advance(setup, p, cs[0], calls[0]), cs[1..], calls[1..], maxErrors)
  }

  /** One resource taken: its entry goes to exactly one list. */
  function Advance(setup: Setup, p: Progress, c: Candidate, calls: Calls): Progress
  {
    var (r, after) := Step(setup, p.remote, c, calls);
    Record(p, r, after)
  }

  lemma AdvanceAddsId(setup: Setup, p: Progress, c: Candidate, calls: Calls)
    ensures AllIds(Advance(setup, p, c, calls)) == AllIds(p) + multiset{c.id}
    ensures Advance(setup, p, c, calls).processed == p.processed + 1
  {
    var (r, after) := Step(setup, p.remote, c, calls);
    RecordAddsId(p, r, after);
  }

  /** Below the error limit, the loop takes the next resource. */
  lemma ProcessTakesOne(setup: Setup, p: Progress, cs: seq<Candidate>, calls: seq<Calls>, maxErrors: nat)
    requires |cs| == |calls| && |cs| > 0 && |p.failed| < maxErrors
    ensures Process(setup, p, cs, calls, maxErrors) == Process(setup, Advance(setup, p, cs[0], calls[0]), cs[1..], calls[1..], maxErrors)
  {
  }

  lemma AdvanceRecords(setup: Setup, p: Progress, c: Candidate, calls: Calls, r: UploadResult, after: Remote)
    requires Step(setup, p.remote, c, calls) == (r, after)
    ensures Advance(setup, p, c, calls) == Record(p, r, after)
  {
  }

  function Uploads(setup: Setup, remote: Remote, cs: seq<Candidate>, calls: seq<Calls>, maxErrors: nat): Progress
    requires |cs| == |calls|
  {
    Process(setup, Progress([], [], [], remote, 0), cs, calls, maxErrors)
  }

  function UploadedIds(s: seq<UploadedDoc>): multiset<string>
  {
    if |s| == 0 then multiset{} else UploadedIds(s[..|s| - 1]) + multiset{s[|s| - 1].resourceId}
  }

  function SkippedIds(s: seq<SkippedDoc>): multiset<string>
  {
    if |s| == 0 then multiset{} else SkippedIds(s[..|s| - 1]) + multiset{s[|s| - 1].resourceId}
  }

  function FailedIds(s: seq<FailedDoc>): multiset<string>
  {
    if |s| == 0 then multiset{} else FailedIds(s[..|s| - 1]) + multiset{s[|s| - 1].resourceId}
  }

  function CandidateIds(cs: seq<Candidate>): multiset<string>
  {
    if |cs| == 0 then multiset{} else CandidateIds(cs[..|cs| - 1]) + multiset{cs[|cs| - 1].id}
  }

  /** The ids of all three lists, as a bag. */
  function AllIds(p: Progress): multiset<string>
  {
    UploadedIds(p.uploaded) + SkippedIds(p.skipped) + FailedIds(p.failed)
  }

  /** Recording a step adds its resource's id to exactly one list. */
  lemma RecordAddsId(p: Progress, r: UploadResult, after: Remote)
    ensures AllIds(Record(p, r, after)) == AllIds(p) + multiset{ResultId(r)}
  {
    var q := Record(p, r, after);
    var (ups, sks, fls) := (UploadedIds(p.uploaded), SkippedIds(p.skipped), FailedIds(p.failed));
    AddToOne(ups, sks, fls, multiset{ResultId(r)});
    match r
    case WasUploaded(u) =>
      UploadedIdsAppend(p.uploaded, u);
      assert AllIds(q) == (ups + multiset{u.resourceId}) + sks + fls;
    case WasSkipped(s) =>
      SkippedIdsAppend(p.skipped, s);
      assert AllIds(q) == ups + (sks + multiset{s.resourceId}) + fls;
    case HasFailed(f) =>
      FailedIdsAppend(p.failed, f);
      assert AllIds(q) == ups + sks + (fls + multiset{f.resourceId});
  }

  /** Adding to any one of three bags adds to their sum. */
  lemma AddToOne(a: multiset<string>, b: multiset<string>, c: multiset<string>, x: multiset<string>)
    ensures (a + x) + b + c == a + b + c + x
    ensures a + (b + x) + c == a + b + c + x
    ensures a + b + (c + x) == a + b + c + x
  {
  }

  lemma UploadedIdsAppend(s: seq<UploadedDoc>, u: UploadedDoc)
    ensures UploadedIds(s + [u]) == UploadedIds(s) + multiset{u.resourceId}
  {
    assert (s + [u])[..|s|] == s;
  }

  lemma SkippedIdsAppend(s: seq<SkippedDoc>, u: SkippedDoc)
    ensures SkippedIds(s + [u]) == SkippedIds(s) + multiset{u.resourceId}
  {
    assert (s + [u])[..|s|] == s;
  }

  lemma FailedIdsAppend(s: seq<FailedDoc>, u: FailedDoc)
    ensures FailedIds(s + [u]) == FailedIds(s) + multiset{u.resourceId}
  {
    assert (s + [u])[..|s|] == s;
  }

  lemma CandidateIdsCons(cs: seq<Candidate>, n: nat)
    requires 0 < n <= |cs|
    ensures CandidateIds(cs[..n]) == multiset{cs[0].id} + CandidateIds(cs[1..][..n - 1])
    decreases n
  {
    if n > 1 {
      CandidateIdsCons(cs, n - 1);
      assert cs[..n][..n - 1] == cs[..n - 1];
      assert cs[1..][..n - 1][..n - 2] == cs[1..][..n - 2];
    } else {
      assert cs[..n][..0] == [];
    }
  }

  /** Every resource the loop takes lands in exactly one of the three lists; the lists only
      grow; failures pass `maxErrors` by at most what was there, and the loop ends early only
      at the error limit. */
  lemma {:induction false} ProcessCounts(setup: Setup, p: Progress, cs: seq<Candidate>, calls: seq<Calls>, maxErrors: nat)
    requires |cs| == |calls|
    ensures var q := Process(setup, p, cs, calls, maxErrors);
            && p.processed <= q.processed <= p.processed + |cs|
            && |q.uploaded| + |q.skipped| + |q.failed| == |p.uploaded| + |p.skipped| + |p.failed| + (q.processed - p.processed)
            && p.uploaded <= q.uploaded && p.skipped <= q.skipped && p.failed <= q.failed
            && (|p.failed| <= maxErrors ==> |q.failed| <= maxErrors)
            && (q.processed < p.processed + |cs| ==> |q.failed| >= maxErrors)
    decreases |cs|
  {
    if |cs| > 0 && |p.failed| < maxErrors {
      ProcessCounts(setup, Advance(setup, p, cs[0], calls[0]), cs[1..], calls[1..], maxErrors);
    }
  }

  /** Going from `p` to `q` took the next resources of `cs`, in order, and the lists gained
      exactly their ids. */
  predicate TookPrefix(p: Progress, cs: seq<Candidate>, q: Progress)
  {
    && p.processed <= q.processed <= p.processed + |cs|
    && AllIds(q) == AllIds(p) + CandidateIds(cs[..q.processed - p.processed])
  }

  /** The resources taken are a prefix of the input, and the lists hold exactly their ids. */
  lemma {:induction false} ProcessIds(setup: Setup, p: Progress, cs: seq<Candidate>, calls: seq<Calls>, maxErrors: nat)
    requires |cs| == |calls|
    ensures TookPrefix(p, cs, Process(setup, p, cs, calls, maxErrors))
    decreases |cs|
  {
    if |cs| == 0 || |p.failed| >= maxErrors {
      assert Process(setup, p, cs, calls, maxErrors) == p;
      assert cs[..0] == [] && CandidateIds(cs[..0]) == multiset{};
    } else {
      var p' := Advance(setup, p, cs[0], calls[0]);
      AdvanceAddsId(setup, p, cs[0], calls[0]);
      ProcessIds(setup, p', cs[1..], calls[1..], maxErrors);
      ProcessTakesOne(setup, p, cs, calls, maxErrors);
      IdsStep(p, p', Process(setup, p', cs[1..], calls[1..], maxErrors), cs);
    }
  }

  /** Taking the first resource and then some more takes a prefix of the resources. */
  lemma IdsStep(p: Progress, p': Progress, q: Progress, cs: seq<Candidate>)
    requires |cs| > 0
    requires p'.processed == p.processed + 1 && AllIds(p') == AllIds(p) + multiset{cs[0].id}
    requires TookPrefix(p', cs[1..], q)
    ensures TookPrefix(p, cs, q)
  {
    CandidateIdsCons(cs, q.processed - p.processed);
  }

  /** The whole loop from empty lists: the resources taken are the first `processed` ones,
      each in exactly one list; at most `maxErrors` failed; and a resource is left untried
      only when exactly `maxErrors` uploads failed. With `maxErrors` 0 nothing is tried. */
  lemma UploadsPartition(setup: Setup, remote: Remote, cs: seq<Candidate>, calls: seq<Calls>, maxErrors: nat)
    requires |cs| == |calls|
    ensures var q := Uploads(setup, remote, cs, calls, maxErrors);
            && q.processed <= |cs|
            && |q.uploaded| + |q.skipped| + |q.failed| == q.processed
            && AllIds(q) == CandidateIds(cs[..q.processed])
            && |q.failed| <= maxErrors
            && (q.processed < |cs| ==> |q.failed| == maxErrors)
            && (maxErrors == 0 ==> q.processed == 0)
  {
    var start := Progress([], [], [], remote, 0);
    ProcessCounts(setup, start, cs, calls, maxErrors);
    ProcessIds(setup, start, cs, calls, maxErrors);
  }

  // ---------------------------------------------------------------- deletions

  /** The entry `delete_resource_from_rag_and_lab` returns. */
  datatype DeletionRecord = DeletionRecord(resourceId: string, resourceName: string, deletedFromRag: bool,
                                           deletedFromLab: bool, error: Option<ErrorKind>)

  /** The entry of one resource marked for deletion: what the service returns, or, when it
      raises, an entry named "Unknown" with neither deletion done. */
  function DeletionEntry(id: string, outcome: Result<DeletionRecord>): (e: DeletionRecord)
    ensures outcome.Ok? ==> e == outcome.value
    ensures outcome.Err? ==> e.resourceId == id && e.resourceName == "Unknown" && !e.deletedFromRag &&
                             !e.deletedFromLab && e.error == Some(outcome.kind)
  {
    match outcome
    case Ok(record) => record
    case Err(k) => DeletionRecord(id, "Unknown", false, false, Some(k))
  }

  // ---------------------------------------------------------------- the report

  /** `upload_report`. */
  datatype Report = Report(totalFiles: nat, uploadedCount: nat, skippedCount: nat, deletedCount: nat, failedCount: nat,
                           datasetId: string, tagFilter: string, uploadedDocuments: seq<UploadedDoc>,
                           skippedDocuments: seq<SkippedDoc>, deletedDocuments: seq<DeletionRecord>,
                           failedDocuments: seq<FailedDoc>)

  /** `_create_report`: each count is its list's length and the filter reads `key=value`. */
  function CreateReport(datasetId: string, tagKey: string, tagValue: string, totalFiles: nat, uploaded: seq<UploadedDoc>,
                        skipped: seq<SkippedDoc>, failed: seq<FailedDoc>, deleted: seq<DeletionRecord>): (r: Report)
    ensures r.uploadedCount == |r.uploadedDocuments| && r.skippedCount == |r.skippedDocuments|
    ensures r.failedCount == |r.failedDocuments| && r.deletedCount == |r.deletedDocuments|
    ensures r.uploadedDocuments == uploaded && r.skippedDocuments == skipped && r.failedDocuments == failed
    ensures r.deletedDocuments == deleted && r.totalFiles == totalFiles && r.datasetId == datasetId
    ensures |r.tagFilter| == |tagKey| + 1 + |tagValue| && r.tagFilter[..|tagKey|] == tagKey &&
            r.tagFilter[|tagKey|] == '=' && r.tagFilter[|tagKey| + 1..] == tagValue
  {
    Report(totalFiles, |uploaded|, |skipped|, |deleted|, |failed|, datasetId, tagKey + "=" + tagValue,
           uploaded, skipped, deleted, failed)
  }

  // ---------------------------------------------------------------- the task

  class PushResourcesToRagflow {
    const setup: Setup
    /** The tags of the lab resources, by resource id. */
    var tags: map<string, seq<Tag>>
    /** The document ids of the RagFlow dataset. */
    var documents: set<string>
    /** The documents `parse_documents` was called for. */
    var parsed: set<string>

    constructor (setup: Setup, tags: map<string, seq<Tag>>, documents: set<string>)
      ensures this.setup == setup && this.tags == tags && this.documents == documents && parsed == {}
    {
      this.setup := setup;
      this.tags := tags;
      this.documents := documents;
      parsed := {};
    }

    function Snapshot(): Remote
      reads this
    {
      Remote(tags, documents, parsed)
    }

    /** `_upload_resource`. */
    method UploadResource(c: Candidate, updating: bool, oldDocumentId: Option<string>, calls: Calls)
      returns (r: Result<string>)
      modifies this
      ensures (r, Snapshot()) == SendFile(setup, old(Snapshot()), c, updating, oldDocumentId, calls)
    {
      if updating && oldDocumentId.Some? && oldDocumentId.value != "" && !calls.deleteFails {
        documents := documents - {oldDocumentId.value};
      }
      if calls.upload.Err? {
        return Err(calls.upload.kind);
      }
      var id := calls.upload.value;
      documents := documents + {id};
      if calls.parse.Fail? {
        return Err(calls.parse.kind);
      }
      parsed := parsed + {id};
      var current := if c.id in tags then tags[c.id] else [];
      tags := tags[c.id := Replace(current, MarkTags(KEYS, id, setup.datasetId, setup.nowMs))];
      r := Ok(id);
    }

    /** `_process_single_upload`, with an exception turned into a failure entry as the loop
        of `_process_uploads` does. */
    method ProcessSingleUpload(c: Candidate, calls: Calls) returns (r: UploadResult)
      modifies this
      ensures (r, Snapshot()) == Step(setup, old(Snapshot()), c, calls)
    {
      var name := FileName(c);
      var d := Decide(setup.limits, if c.id in tags then tags[c.id] else [], c);
      match d
      case Raise(k) =>
        r := HasFailed(FailedDoc(c.id, name, k));
      case Skip(reason) =>
        r := WasSkipped(SkippedDoc(c.id, name, reason));
      case Send(updating, oldId) =>
        var sent := UploadResource(c, updating, oldId, calls);
        if sent.Err? {
          r := HasFailed(FailedDoc(c.id, name, sent.kind));
        } else {
          r := WasUploaded(UploadedDoc(c.id, name, sent.value, updating));
        }
    }

    /** One turn of the loop of `_process_uploads`, seen as a step of `Process`. */
    method TakeNext(ghost p: Progress, c: Candidate, calls: Calls) returns (r: UploadResult)
      requires p.remote == Snapshot()
      modifies this
      ensures Advance(setup, p, c, calls) == Record(p, r, Snapshot())
    {
      r := ProcessSingleUpload(c, calls);
      AdvanceRecords(setup, p, c, calls, r, Snapshot());
    }

    /** `_process_uploads`: the lists and the new state are those of `Uploads`, so every
        resource taken lands in exactly one list and the loop stops at the error limit. */
    method ProcessUploads(cs: seq<Candidate>, calls: seq<Calls>, maxErrors: nat)
      returns (uploaded: seq<UploadedDoc>, skipped: seq<SkippedDoc>, failed: seq<FailedDoc>)
      requires |cs| == |calls|
      modifies this
      ensures var q := Uploads(setup, old(Snapshot()), cs, calls, maxErrors);
              uploaded == q.uploaded && skipped == q.skipped && failed == q.failed && Snapshot() == q.remote
      ensures |uploaded| + |skipped| + |failed| <= |cs| && |failed| <= maxErrors
      ensures |uploaded| + |skipped| + |failed| < |cs| ==> |failed| == maxErrors
    {
      ghost var goal := Uploads(setup, Snapshot(), cs, calls, maxErrors);
      uploaded, skipped, failed := [], [], [];
      var i := 0;
      assert cs[0..] == cs && calls[0..] == calls;
      while i < |cs|
        invariant 0 <= i <= |cs|
        invariant Process(setup, Progress(uploaded, skipped, failed, Snapshot(), i), cs[i..], calls[i..], maxErrors) == goal
      {
        if |failed| >= maxErrors {
          break;
        }
        ghost var before := Progress(uploaded, skipped, failed, Snapshot(), i);
        var r := TakeNext(before, cs[i], calls[i]);
        match r {
          case WasUploaded(u) => uploaded := uploaded + [u];
          case WasSkipped(s) => skipped := skipped + [s];
          case HasFailed(f) => failed := failed + [f];
        }
        assert Process(setup, Progress(uploaded, skipped, failed, Snapshot(), i + 1), cs[i + 1..], calls[i + 1..], maxErrors) == goal by {
          ProcessTakesOne(setup, before, cs[i..], calls[i..], maxErrors);
          assert cs[i..][1..] == cs[i + 1..] && calls[i..][1..] == calls[i + 1..];
          assert Progress(uploaded, skipped, failed, Snapshot(), i + 1) == Record(before, r, Snapshot());
        }
        i := i + 1;
      }
      assert Process(setup, Progress(uploaded, skipped, failed, Snapshot(), i), cs[i..], calls[i..], maxErrors) ==
             Progress(uploaded, skipped, failed, Snapshot(), i);
      ProcessCounts(setup, Progress([], [], [], old(Snapshot()), 0), cs, calls, maxErrors);
    }

    /** `_process_deletions`: one entry per resource marked for deletion, in order. */
    method ProcessDeletions(marked: seq<string>, outcomes: seq<Result<DeletionRecord>>) returns (deleted: seq<DeletionRecord>)
      requires |marked| == |outcomes|
      ensures |deleted| == |marked|
      ensures forall i :: 0 <= i < |marked| ==> deleted[i] == DeletionEntry(marked[i], outcomes[i])
    {
      deleted := [];
      for i := 0 to |marked|
        invariant |deleted| == i
        invariant forall j :: 0 <= j < i ==> deleted[j] == DeletionEntry(marked[j], outcomes[j])
      {
        deleted := deleted + [DeletionEntry(marked[i], outcomes[i])];
      }
    }

    /** `run`: deletions first, then the uploads of the resources found; with none found the
        report lists no upload. The counts of the report add up to at most the number found,
        fall short only at the error limit, and `maxErrors` bounds the failures. */
    method Run(tagKey: string, tagValue: string, marked: seq<string>, outcomes: seq<Result<DeletionRecord>>,
               found: seq<Candidate>, calls: seq<Calls>, maxErrors: nat) returns (report: Report)
      requires |marked| == |outcomes| && |found| == |calls|
      modifies this
      ensures report.totalFiles == |found| && report.datasetId == setup.datasetId
      ensures report.deletedCount == |marked| && |report.deletedDocuments| == |marked|
      ensures forall i :: 0 <= i < |marked| ==> report.deletedDocuments[i] == DeletionEntry(marked[i], outcomes[i])
      ensures report.uploadedCount + report.skippedCount + report.failedCount <= report.totalFiles
      ensures report.failedCount <= maxErrors
      ensures report.uploadedCount + report.skippedCount + report.failedCount < report.totalFiles ==>
                report.failedCount == maxErrors
      ensures var q := Uploads(setup, old(Snapshot()), found, calls, maxErrors);
              report.uploadedDocuments == q.uploaded && report.skippedDocuments == q.skipped &&
              report.failedDocuments == q.failed && Snapshot() == q.remote
    {
      var deleted := ProcessDeletions(marked, outcomes);
      if |found| == 0 {
        return CreateReport(setup.datasetId, tagKey, tagValue, 0, [], [], [], deleted);
      }
      var uploaded, skipped, failed := ProcessUploads(found, calls, maxErrors);
      report := CreateReport(setup.datasetId, tagKey, tagValue, |found|, uploaded, skipped, failed, deleted);
    }
  }
}
