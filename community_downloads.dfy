/** The tasks that copy Constellab Community content into the data lab as files sent to the
    RAG: the documentation and technical documentation of bricks, and the Community stories.
    Each task reconciles the pages Community lists with the files already stored: a file whose
    stored modification date matches is skipped, a changed page replaces its file (keeping the
    RAG link tags), a new page is downloaded, a failure is counted, and the stored files no
    page matched any more are marked for deletion. Community's answers are parameters. */
module CommunityDownloads {
  import opened Wrappers
  import opened Seqs
  import opened TagStore
  import PyDict
  import opened CommunityFiles

  /** What is being downloaded: a brick's documentation, a brick's technical documentation,
      or the stories. */
  datatype DocKind = Documentation(brick: string) | TechnicalDocumentation(brick: string) | Story

  /** A page as Community lists it: its id, its display name, its technical documentation type
      ("" for the other kinds) and its modification date. */
  datatype CommunityDoc = CommunityDoc(id: string, name: string, techDocType: string, lastModifiedAt: Option<string>)

  /** The `send_to_rag` value of the files of a kind. */
  function SendToRagValue(kind: DocKind): string
  {
    match kind
    case Documentation(_) => "CommunityDocumentations"
    case TechnicalDocumentation(_) => "CommunityTechnicalDocumentations"
    case Story => "CommunityStories"
  }

  /** The tag key under which a file records the id of its page. */
  function IdTagKey(kind: DocKind): string
  {
    match kind
    case Documentation(_) => COMMUNITY_DOCUMENTATION_ID_TAG_KEY
    case TechnicalDocumentation(_) => COMMUNITY_TECHNICAL_DOCUMENTATION_ID_TAG_KEY
    case Story => COMMUNITY_STORY_ID_TAG_KEY
  }

  /** The tags every new file of a kind gets before its date and the copied RAG tags. */
  function FixedTags(kind: DocKind, doc: CommunityDoc): (r: seq<Tag>)
    ensures Tag(SEND_TO_RAG_TAG_KEY, SendToRagValue(kind)) in r
    ensures Tag(IdTagKey(kind), doc.id) in r
    ensures forall t :: t in r ==> t.key != COMMUNITY_LAST_MODIFICATED_AT_TAG_KEY
  {
    match kind
    case Documentation(brick) =>
      [Tag(SEND_TO_RAG_TAG_KEY, SendToRagValue(kind)), Tag(COMMUNITY_BRICK_NAME_TAG_KEY, brick),
       Tag(COMMUNITY_DOCUMENTATION_ID_TAG_KEY, doc.id)]
    case TechnicalDocumentation(brick) =>
      [Tag(SEND_TO_RAG_TAG_KEY, SendToRagValue(kind)), Tag(COMMUNITY_BRICK_NAME_TAG_KEY, brick),
       Tag(COMMUNITY_TECHNICAL_DOCUMENTATION_ID_TAG_KEY, doc.id), Tag(COMMUNITY_TECH_DOC_TYPE_TAG_KEY, doc.techDocType)]
    case Story =>
      [Tag(SEND_TO_RAG_TAG_KEY, SendToRagValue(kind)), Tag(COMMUNITY_STORY_ID_TAG_KEY, doc.id)]
  }

  /** The tags of a freshly downloaded file: the fixed tags, the modification date when there
      is one, then the RAG tags copied from the file it replaces. */
  function NewFileTags(kind: DocKind, doc: CommunityDoc, copied: Option<seq<Tag>>): (r: seq<Tag>)
    ensures forall t :: t in FixedTags(kind, doc) ==> t in r
    ensures Truthy(doc.lastModifiedAt) ==> Tag(COMMUNITY_LAST_MODIFICATED_AT_TAG_KEY, doc.lastModifiedAt.value) in r
    ensures copied.Some? ==> forall t :: t in copied.value ==> t in r
  {
    FixedTags(kind, doc)
    + (if Truthy(doc.lastModifiedAt) then [Tag(COMMUNITY_LAST_MODIFICATED_AT_TAG_KEY, doc.lastModifiedAt.value)] else [])
    + copied.GetOr([])
  }

  /** A file just saved for a dated page is up to date: the next run skips it. */
  lemma SavedFileIsUpToDate(kind: DocKind, doc: CommunityDoc, copied: Option<seq<Tag>>)
    requires Truthy(doc.lastModifiedAt)
    ensures ShouldUpdateResource(Some(NewFileTags(kind, doc, copied)), doc.lastModifiedAt) == (false, None)
  {
    var key := COMMUNITY_LAST_MODIFICATED_AT_TAG_KEY;
    var fixed := FixedTags(kind, doc);
    var date := [Tag(key, doc.lastModifiedAt.value)];
    TagsByKeyOfAbsentKey(fixed, key);
    TagsByKeyAppend(fixed, date, key);
    TagsByKeyAppend(fixed + date, copied.GetOr([]), key);
  }

  /** What Community's download answered: an exception, no content (`None`), or the text. */
  datatype Download = Raised | NoContent | Content(text: string)

  /** How one listed page was counted. `NotCounted` is the loop's branch where no file exists
      and no download is needed, which `should_update_resource` never takes. */
  datatype Outcome = Skipped | Failed | Downloaded | Updated | NotCounted

  datatype Counters = Counters(downloaded: nat, updated: nat, skipped: nat, failed: nat)
  {
    function Total(): nat
    {
      downloaded + updated + skipped + failed
    }

    function Plus(other: Counters): Counters
    {
      Counters(downloaded + other.downloaded, updated + other.updated, skipped + other.skipped, failed + other.failed)
    }
  }

  const Zero: Counters := Counters(0, 0, 0, 0)

  /** Counting one outcome. */
  function Tally(c: Counters, o: Outcome): Counters
  {
    match o
    case Skipped => c.(skipped := c.skipped + 1)
    case Failed => c.(failed := c.failed + 1)
    case Downloaded => c.(downloaded := c.downloaded + 1)
    case Updated => c.(updated := c.updated + 1)
    case NotCounted => c
  }

  /** The counters of a run with these outcomes. */
  function TallyAll(os: seq<Outcome>): Counters
    decreases |os|
  {
    if |os| == 0 then Zero else Tally(TallyAll(os[..|os| - 1]), os[|os| - 1])
  }

  /** When every page is counted, the four counters add up to the number of pages. */
  lemma {:induction false} TallyAllTotal(os: seq<Outcome>)
    requires forall k :: 0 <= k < |os| ==> os[k] != NotCounted
    ensures TallyAll(os).Total() == |os|
    decreases |os|
  {
    if |os| > 0 {
      TallyAllTotal(os[..|os| - 1]);
    }
  }

  /** The download gave content the task accepts; the brick-set task also refuses empty
      technical documentation (`not markdown_content`). */
  predicate Delivered(download: Download, emptyFails: bool)
  {
    download.Content? && !(emptyFails && download.text == "")
  }

  /** A stored file whose date is the page's own (non-empty) date needs no new download. */
  predicate UpToDate(existing: Option<seq<Tag>>, date: Option<string>)
  {
    existing.Some? && Truthy(date) && FirstValue(existing.value, COMMUNITY_LAST_MODIFICATED_AT_TAG_KEY) == date
  }

  /** How one page is counted, given the tags of the file already stored for it: the check of
      `should_update_resource` first, then the download. */
  function DocOutcome(existing: Option<seq<Tag>>, doc: CommunityDoc, download: Download, emptyFails: bool): Outcome
  {
    if UpToDate(existing, doc.lastModifiedAt) then Skipped
    else if !Delivered(download, emptyFails) then Failed
    else if existing.Some? then Updated
    else Downloaded
  }

  /** Every page is counted once: skipped exactly when a stored file has the same (non-empty)
      date, failed when a needed download fails, updated when it replaces a stored file and
      downloaded when it is new. */
  lemma DocOutcomeCases(existing: Option<seq<Tag>>, doc: CommunityDoc, download: Download, emptyFails: bool)
    ensures DocOutcome(existing, doc, download, emptyFails) != NotCounted
    ensures DocOutcome(existing, doc, download, emptyFails) == Skipped <==>
              existing.Some? && Truthy(doc.lastModifiedAt)
              && FirstValue(existing.value, COMMUNITY_LAST_MODIFICATED_AT_TAG_KEY) == doc.lastModifiedAt
    ensures DocOutcome(existing, doc, download, emptyFails) == Skipped <==>
              !ShouldUpdateResource(existing, doc.lastModifiedAt).0
    ensures DocOutcome(existing, doc, download, emptyFails) == Failed <==>
              DocOutcome(existing, doc, download, emptyFails) != Skipped && !Delivered(download, emptyFails)
    ensures DocOutcome(existing, doc, download, emptyFails) == Updated <==>
              DocOutcome(existing, doc, download, emptyFails) != Skipped && Delivered(download, emptyFails) && existing.Some?
    ensures DocOutcome(existing, doc, download, emptyFails) == Downloaded <==>
              Delivered(download, emptyFails) && existing.None?
  {
  }

  /** The store after one page: a downloaded or updated page adds its new file under the next
      id, an update also deletes the file it replaces, and any other outcome leaves the store
      alone. */
  predicate StoreStep(before: map<string, seq<Tag>>, issuedBefore: nat, after: map<string, seq<Tag>>, issuedAfter: nat,
                      uuid: nat -> string, outcome: Outcome, found: Option<string>, tags: seq<Tag>)
  {
    if outcome == Downloaded || outcome == Updated then
      && issuedAfter == issuedBefore + 1
      && after == before[uuid(issuedBefore) := tags] - (if outcome == Updated && found.Some? then {found.value} else {})
    else
      after == before && issuedAfter == issuedBefore
  }

  /** One page of the reconciliation loop, from the store `before` to the store `after`: the
      lookup by id tag, the outcome it and the download give, and the store change that
      outcome makes. */
  ghost predicate PageStep(uuid: nat -> string, kind: DocKind, doc: CommunityDoc, download: Download, emptyFails: bool,
                           before: PyDict.Dict<seq<Tag>>, issuedBefore: nat, after: PyDict.Dict<seq<Tag>>, issuedAfter: nat,
                           outcome: Outcome, found: Option<string>, seen: Option<seq<Tag>>)
  {
    && found == FindByTag(before, IdTagKey(kind), doc.id)
    && (found.Some? ==> found.value in before.entries && seen == Some(before.entries[found.value]))
    && (found.None? ==> seen.None?)
    && outcome == DocOutcome(seen, doc, download, emptyFails)
    && StoreStep(before.entries, issuedBefore, after.entries, issuedAfter, uuid, outcome, found,
                 NewFileTags(kind, doc, ShouldUpdateResource(seen, doc.lastModifiedAt).1))
  }

  /** The first `n` pages took the store through the states `trace` with the id counters
      `issues`, page `k` going from state `k` to state `k + 1`. */
  ghost predicate Scanned(uuid: nat -> string, kind: DocKind, docs: seq<CommunityDoc>, download: CommunityDoc -> Download,
                          emptyFails: bool, n: nat, trace: seq<PyDict.Dict<seq<Tag>>>, issues: seq<nat>,
                          outcomes: seq<Outcome>, found: seq<Option<string>>, seen: seq<Option<seq<Tag>>>)
  {
    && n <= |docs| && |trace| == n + 1 && |issues| == n + 1
    && |outcomes| == n && |found| == n && |seen| == n
    && forall k :: 0 <= k < n ==>
         PageStep(uuid, kind, docs[k], download(docs[k]), emptyFails, trace[k], issues[k], trace[k + 1], issues[k + 1],
                  outcomes[k], found[k], seen[k])
  }

  /** Each page of a run is counted by `DocOutcome`, and its lookup found a file exactly when
      it saw that file's tags. */
  lemma ScannedOutcomes(uuid: nat -> string, kind: DocKind, docs: seq<CommunityDoc>, download: CommunityDoc -> Download,
                        emptyFails: bool, trace: seq<PyDict.Dict<seq<Tag>>>, issues: seq<nat>,
                        outcomes: seq<Outcome>, found: seq<Option<string>>, seen: seq<Option<seq<Tag>>>)
    requires Scanned(uuid, kind, docs, download, emptyFails, |docs|, trace, issues, outcomes, found, seen)
    ensures |outcomes| == |docs| && |found| == |docs| && |seen| == |docs|
    ensures forall k :: 0 <= k < |docs| ==>
              outcomes[k] == DocOutcome(seen[k], docs[k], download(docs[k]), emptyFails) && (found[k].Some? <==> seen[k].Some?)
  {
    forall k | 0 <= k < |docs|
      ensures outcomes[k] == DocOutcome(seen[k], docs[k], download(docs[k]), emptyFails) && (found[k].Some? <==> seen[k].Some?)
    {
      assert PageStep(uuid, kind, docs[k], download(docs[k]), emptyFails, trace[k], issues[k], trace[k + 1], issues[k + 1],
                      outcomes[k], found[k], seen[k]);
    }
  }

  /** The record of a run of the reconciliation loop: the store states and id counters it went
      through and, for each page, its outcome, the file its lookup found and that file's tags. */
  datatype ScanTrace = ScanTrace(states: seq<PyDict.Dict<seq<Tag>>>, issues: seq<nat>, outcomes: seq<Outcome>,
                                 found: seq<Option<string>>, seen: seq<Option<seq<Tag>>>)

  /** `run` is a run of the loop over all of `docs` that starts from the store `before`. */
  ghost predicate ScannedRun(uuid: nat -> string, kind: DocKind, docs: seq<CommunityDoc>, download: CommunityDoc -> Download,
                             emptyFails: bool, run: ScanTrace, before: PyDict.Dict<seq<Tag>>, issuedBefore: nat)
  {
    && Scanned(uuid, kind, docs, download, emptyFails, |docs|, run.states, run.issues, run.outcomes, run.found, run.seen)
    && run.states[0] == before && run.issues[0] == issuedBefore
  }

  /** One more page extends the trace. */
  lemma ScannedSnoc(uuid: nat -> string, kind: DocKind, docs: seq<CommunityDoc>, download: CommunityDoc -> Download,
                    emptyFails: bool, n: nat, trace: seq<PyDict.Dict<seq<Tag>>>, issues: seq<nat>,
                    outcomes: seq<Outcome>, found: seq<Option<string>>, seen: seq<Option<seq<Tag>>>,
                    after: PyDict.Dict<seq<Tag>>, issuedAfter: nat, outcome: Outcome, f: Option<string>, s: Option<seq<Tag>>)
    requires Scanned(uuid, kind, docs, download, emptyFails, n, trace, issues, outcomes, found, seen) && n < |docs|
    requires PageStep(uuid, kind, docs[n], download(docs[n]), emptyFails, trace[n], issues[n], after, issuedAfter, outcome, f, s)
    ensures Scanned(uuid, kind, docs, download, emptyFails, n + 1, trace + [after], issues + [issuedAfter],
                    outcomes + [outcome], found + [f], seen + [s])
  {
    var trace', issues' := trace + [after], issues + [issuedAfter];
    var outcomes', found', seen' := outcomes + [outcome], found + [f], seen + [s];
    forall k | 0 <= k < n + 1
      ensures PageStep(uuid, kind, docs[k], download(docs[k]), emptyFails, trace'[k], issues'[k], trace'[k + 1], issues'[k + 1],
                       outcomes'[k], found'[k], seen'[k])
    {
      if k < n {
        assert trace'[k] == trace[k] && trace'[k + 1] == trace[k + 1];
        assert issues'[k] == issues[k] && issues'[k + 1] == issues[k + 1];
        assert outcomes'[k] == outcomes[k] && found'[k] == found[k] && seen'[k] == seen[k];
        assert PageStep(uuid, kind, docs[k], download(docs[k]), emptyFails, trace[k], issues[k], trace[k + 1], issues[k + 1],
                        outcomes[k], found[k], seen[k]);
      } else {
        assert trace'[k] == trace[n] && trace'[k + 1] == after;
      }
    }
  }

  /** One iteration of the reconciliation loop (the body of its `try`): look the page's file
      up by its id tag, decide, download, save the new file and delete the one it replaces. */
  method ProcessDocument(store: ResourceStore, kind: DocKind, doc: CommunityDoc, download: Download, emptyFails: bool)
      returns (outcome: Outcome, found: Option<string>, ghost seen: Option<seq<Tag>>)
    requires store.Valid()
    modifies store
    ensures store.Valid() && store.tagKeys == old(store.tagKeys)
    ensures found == FindByTag(old(store.resources), IdTagKey(kind), doc.id)
    ensures found.Some? ==> found.value in old(store.resources).entries && seen == Some(old(store.resources).entries[found.value])
    ensures found.None? ==> seen.None?
    ensures outcome == DocOutcome(seen, doc, download, emptyFails)
    ensures StoreStep(old(store.resources).entries, old(store.issued), store.resources.entries, store.issued, store.uuid,
                      outcome, found, NewFileTags(kind, doc, ShouldUpdateResource(seen, doc.lastModifiedAt).1))
  {
    found := FindByTag(store.resources, IdTagKey(kind), doc.id);
    FindByTagSound(store.resources, IdTagKey(kind), doc.id);
    var existing := if found.Some? then Some(store.resources.entries[found.value]) else None;
    seen := existing;
    var decision := ShouldUpdateResource(existing, doc.lastModifiedAt);
    if !decision.0 {
      outcome := if found.Some? then Skipped else NotCounted;
      return;
    }
    if !Delivered(download, emptyFails) {
      outcome := Failed;
      return;
    }
    outcome := if found.Some? then Updated else Downloaded;
    SaveReplacing(store, NewFileTags(kind, doc, decision.1), found);
  }

  /** Saves the new file under the next id and deletes the file it replaces, if any. */
  method SaveReplacing(store: ResourceStore, tags: seq<Tag>, replaced: Option<string>)
    requires store.Valid()
    modifies store
    ensures store.Valid() && store.tagKeys == old(store.tagKeys)
    ensures store.issued == old(store.issued) + 1
    ensures store.resources.entries == old(store.resources).entries[store.uuid(old(store.issued)) := tags]
                                       - (if replaced.Some? then {replaced.value} else {})
  {
    var newId := store.Save(tags);
    if replaced.Some? {
      store.Delete(replaced.value);
    }
  }

  /** `resource_checked[existing_resource.id] = True` when the found file is tracked. */
  function Check(checked: map<string, bool>, found: Option<string>): map<string, bool>
  {
    if found.Some? && found.value in checked then checked[found.value := true] else checked
  }

  /** A tracked file is checked exactly when some page so far found it. */
  lemma CheckStep(checked: map<string, bool>, found: seq<Option<string>>, f: Option<string>)
    requires forall id :: id in checked ==> (checked[id] <==> exists k :: 0 <= k < |found| && found[k] == Some(id))
    ensures Check(checked, f).Keys == checked.Keys
    ensures forall id :: id in Check(checked, f) ==>
              (Check(checked, f)[id] <==> exists k :: 0 <= k < |found + [f]| && (found + [f])[k] == Some(id))
  {
    var found' := found + [f];
    forall id | id in Check(checked, f)
      ensures Check(checked, f)[id] <==> exists k :: 0 <= k < |found'| && found'[k] == Some(id)
    {
      if exists k :: 0 <= k < |found| && found[k] == Some(id) {
        var k :| 0 <= k < |found| && found[k] == Some(id);
        assert found'[k] == Some(id);
      }
      if exists k :: 0 <= k < |found'| && found'[k] == Some(id) {
        var k :| 0 <= k < |found'| && found'[k] == Some(id);
        if k < |found| {
          assert found[k] == Some(id);
        }
      }
      assert found'[|found|] == f;
    }
  }

  /** `resource_checked` after the pages whose lookups found `found`: every existing file
      starts unchecked and each found one is checked. */
  function CheckedAfter(existingIds: seq<string>, found: seq<Option<string>>): map<string, bool>
    decreases |found|
  {
    if |found| == 0 then map id | id in existingIds :: false
    else Check(CheckedAfter(existingIds, found[..|found| - 1]), found[|found| - 1])
  }

  /** `resource_checked` tracks exactly the existing files, and a file is checked exactly when
      some page's lookup found it. */
  lemma {:induction false} CheckedAfterSound(existingIds: seq<string>, found: seq<Option<string>>)
    ensures forall id :: id in CheckedAfter(existingIds, found) <==> id in existingIds
    ensures forall id :: id in CheckedAfter(existingIds, found) ==>
              (CheckedAfter(existingIds, found)[id] <==> exists k :: 0 <= k < |found| && found[k] == Some(id))
    decreases |found|
  {
    if |found| > 0 {
      var n := |found| - 1;
      CheckedAfterSound(existingIds, found[..n]);
      CheckStep(CheckedAfter(existingIds, found[..n]), found[..n], found[n]);
      assert found[..n] + [found[n]] == found;
    }
  }

  /** The test "a tracked resource no page matched". */
  function NotChecked(checked: map<string, bool>): string -> bool
  {
    id => id in checked && !checked[id]
  }

  /** Every page of a run is counted exactly once. */
  lemma AllCounted(outcomes: seq<Outcome>, seen: seq<Option<seq<Tag>>>, docs: seq<CommunityDoc>,
                   download: CommunityDoc -> Download, emptyFails: bool)
    requires |outcomes| == |docs| && |seen| == |docs|
    requires forall k :: 0 <= k < |docs| ==> outcomes[k] == DocOutcome(seen[k], docs[k], download(docs[k]), emptyFails)
    ensures forall k :: 0 <= k < |docs| ==> outcomes[k] != NotCounted
  {
    forall k | 0 <= k < |docs|
      ensures outcomes[k] != NotCounted
    {
      DocOutcomeCases(seen[k], docs[k], download(docs[k]), emptyFails);
    }
  }

  /** The sweep's list: the existing files that no page's lookup found, in their order. */
  lemma UncheckedSound(existingIds: seq<string>, found: seq<Option<string>>)
    ensures forall id :: id in Filter(existingIds, NotChecked(CheckedAfter(existingIds, found))) <==>
              id in existingIds && forall k :: 0 <= k < |found| ==> found[k] != Some(id)
  {
    var checked := CheckedAfter(existingIds, found);
    CheckedAfterSound(existingIds, found);
    forall id
      ensures id in Filter(existingIds, NotChecked(checked)) <==> id in existingIds && forall k :: 0 <= k < |found| ==> found[k] != Some(id)
    {
      FilterMembers(existingIds, NotChecked(checked), id);
    }
  }

  /** One pass of the reconciliation loop: the page itself, then `resource_checked` and the
      counters. */
  method VisitPage(store: ResourceStore, kind: DocKind, doc: CommunityDoc, download: Download, emptyFails: bool,
                   stats: Counters, checked: map<string, bool>)
      returns (stats': Counters, checked': map<string, bool>, outcome: Outcome, found: Option<string>, ghost seen: Option<seq<Tag>>)
    requires store.Valid()
    modifies store
    ensures store.Valid() && store.tagKeys == old(store.tagKeys)
    ensures outcome == DocOutcome(seen, doc, download, emptyFails) && (found.Some? <==> seen.Some?)
    ensures stats' == Tally(stats, outcome) && checked' == Check(checked, found)
    ensures PageStep(store.uuid, kind, doc, download, emptyFails, old(store.resources), old(store.issued),
                     store.resources, store.issued, outcome, found, seen)
  {
    outcome, found, seen := ProcessDocument(store, kind, doc, download, emptyFails);
    checked' := Check(checked, found);
    stats' := Tally(stats, outcome);
  }

  /** The reconciliation loop of every download task: each listed page in turn, with
      `resource_checked` starting false for every existing file and set when a page's lookup
      finds a tracked file. */
  method ScanDocuments(store: ResourceStore, kind: DocKind, docs: seq<CommunityDoc>, existingIds: seq<string>,
                       download: CommunityDoc -> Download, emptyFails: bool)
      returns (stats: Counters, checked: map<string, bool>,
               ghost outcomes: seq<Outcome>, ghost found: seq<Option<string>>, ghost seen: seq<Option<seq<Tag>>>,
               ghost trace: seq<PyDict.Dict<seq<Tag>>>, ghost issues: seq<nat>)
    requires store.Valid()
    modifies store
    ensures store.Valid() && store.tagKeys == old(store.tagKeys)
    ensures Scanned(store.uuid, kind, docs, download, emptyFails, |docs|, trace, issues, outcomes, found, seen)
    ensures trace[0] == old(store.resources) && issues[0] == old(store.issued)
    ensures trace[|docs|] == store.resources && issues[|docs|] == store.issued
    ensures |found| == |docs| && |seen| == |docs|
    ensures |outcomes| == |docs|
    ensures forall k :: 0 <= k < |docs| ==>
              outcomes[k] == DocOutcome(seen[k], docs[k], download(docs[k]), emptyFails) && (found[k].Some? <==> seen[k].Some?)
    ensures stats == TallyAll(outcomes)
    ensures checked == CheckedAfter(existingIds, found)
  {
    checked := map id | id in existingIds :: false;
    stats := Zero;
    outcomes, found, seen := [], [], [];
    trace, issues := [store.resources], [store.issued];
    var i := 0;
    while i < |docs|
      invariant 0 <= i <= |docs|
      invariant store.Valid() && store.tagKeys == old(store.tagKeys)
      invariant Scanned(store.uuid, kind, docs, download, emptyFails, i, trace, issues, outcomes, found, seen)
      invariant trace[0] == old(store.resources) && issues[0] == old(store.issued)
      invariant trace[i] == store.resources && issues[i] == store.issued
      invariant stats == TallyAll(outcomes)
      invariant checked == CheckedAfter(existingIds, found)
    {
      var outcome, f; ghost var s;
      stats, checked, outcome, f, s := VisitPage(store, kind, docs[i], download(docs[i]), emptyFails, stats, checked);
      ScannedSnoc(store.uuid, kind, docs, download, emptyFails, i, trace, issues, outcomes, found, seen,
                  store.resources, store.issued, outcome, f, s);
      assert (found + [f])[..i] == found;
      assert (outcomes + [outcome])[..i] == outcomes;
      outcomes, found, seen := outcomes + [outcome], found + [f], seen + [s];
      trace, issues := trace + [store.resources], issues + [store.issued];
      i := i + 1;
    }
    ScannedOutcomes(store.uuid, kind, docs, download, emptyFails, trace, issues, outcomes, found, seen);
  }

  /** The reconciliation of every download task: the loop over the listed pages, then the
      sweep, which marks for deletion exactly the existing files no page found. */
  method Reconcile(store: ResourceStore, kind: DocKind, docs: seq<CommunityDoc>, existingIds: seq<string>,
                   download: CommunityDoc -> Download, emptyFails: bool)
      returns (stats: Counters, unchecked: seq<string>, deletedCount: nat, ghost run: ScanTrace)
    requires store.Valid()
    modifies store
    ensures store.Valid() && store.tagKeys == old(store.tagKeys)
    ensures ScannedRun(store.uuid, kind, docs, download, emptyFails, run, old(store.resources), old(store.issued))
            && store.issued == run.issues[|docs|]
    ensures stats == TallyAll(run.outcomes)
    ensures stats.Total() == |docs|
    ensures forall id :: id in unchecked <==> id in existingIds && forall k :: 0 <= k < |docs| ==> run.found[k] != Some(id)
    ensures store.resources == Marked(run.states[|docs|], unchecked)
    ensures deletedCount <= |unchecked|
  {
    var checked; ghost var outcomes, found, seen, trace, issues;
    stats, checked, outcomes, found, seen, trace, issues := ScanDocuments(store, kind, docs, existingIds, download, emptyFails);
    run := ScanTrace(trace, issues, outcomes, found, seen);
    AllCounted(outcomes, seen, docs, download, emptyFails);
    TallyAllTotal(outcomes);
    unchecked := Filter(existingIds, NotChecked(checked));
    UncheckedSound(existingIds, found);
    deletedCount := store.MarkResourcesForDeletion(unchecked);
  }
}
