/** The download tasks themselves: the documentation and the technical documentation of one
    brick, the Community stories, and the documentation of a set of bricks. Each creates the
    tag keys it needs, reads Community's list, and reconciles it with the stored files. The
    answers, the conversion of an entry into a page and the downloads are parameters. */
module CommunityTasks {
  import opened Wrappers
  import opened Seqs
  import opened TagStore
  import opened CommunityFiles
  import opened CommunityDownloads
  import opened CommunityAnswers

  /** The tag keys the one-brick documentation task creates. */
  const BRICK_DOC_TAG_KEYS: seq<(string, string)> := [
    (SEND_TO_RAG_TAG_KEY, "Send to RAG"),
    (COMMUNITY_BRICK_NAME_TAG_KEY, "Community Brick Name"),
    (COMMUNITY_DOCUMENTATION_ID_TAG_KEY, "Community Documentation ID"),
    (COMMUNITY_LAST_MODIFICATED_AT_TAG_KEY, "Community Last Modified At"),
    (DELETE_IN_NEXT_SYNC_TAG_KEY, "Delete in Next Sync")
  ]

  /** The tag keys the one-brick technical documentation task creates. */
  const BRICK_TECH_DOC_TAG_KEYS: seq<(string, string)> := [
    (SEND_TO_RAG_TAG_KEY, "Send to RAG"),
    (COMMUNITY_BRICK_NAME_TAG_KEY, "Community Brick Name"),
    (COMMUNITY_TECHNICAL_DOCUMENTATION_ID_TAG_KEY, "Community Technical Documentation ID"),
    (COMMUNITY_TECH_DOC_TYPE_TAG_KEY, "Community Tech Doc Type"),
    (COMMUNITY_LAST_MODIFICATED_AT_TAG_KEY, "Community Last Modified At"),
    (DELETE_IN_NEXT_SYNC_TAG_KEY, "Delete in Next Sync")
  ]

  /** The tag keys the story task creates. */
  const STORY_TAG_KEYS: seq<(string, string)> := [
    (SEND_TO_RAG_TAG_KEY, "Send to RAG"),
    (COMMUNITY_STORY_ID_TAG_KEY, "Community Story ID"),
    (COMMUNITY_LAST_MODIFICATED_AT_TAG_KEY, "Community Last Modified At"),
    (DELETE_IN_NEXT_SYNC_TAG_KEY, "Delete in Next Sync")
  ]

  /** What a run reports in its summary line: the counters, the number of listed pages and
      how many files were marked for deletion. */
  datatype RunSummary = RunSummary(stats: Counters, total: nat, deleted: nat)

  /** The stored story files (`_get_existing_story_files`). */
  function StoryFiles(d: PyDict.Dict<seq<Tag>>): seq<string>
  {
    Search(d, [Tag(SEND_TO_RAG_TAG_KEY, SendToRagValue(Story))])
  }

  /** What a run of the technical documentation download gives: the text, or None when the
      request raised, the status is not 2xx or the content is empty. */
  datatype TechReply = Thrown | Reply(status: int, content: string)

  /** `_download_technical_documentation_markdown` of the brick-set task. */
  function TechMarkdown(reply: TechReply): (r: Download)
    ensures r.Content? <==> reply.Reply? && 200 <= reply.status < 300 && reply.content != ""
    ensures r.Content? ==> r.text == reply.content
    ensures !r.Raised?
  {
    match reply
    case Thrown => NoContent
    case Reply(status, content) =>
      if status < 200 || status >= 300 then NoContent
      else if content == "" then NoContent
      else Content(content)
  }

  /** Reconciling a non-empty list: the counters account for every page, and the stored
      files of the list that no page found are the ones marked. */
  predicate Reconciled(summary: RunSummary, docs: seq<CommunityDoc>, unchecked: seq<string>)
  {
    summary.stats.Total() == |docs| && summary.total == |docs| && summary.deleted <= |unchecked|
  }

  /** The reconciliation of a non-empty list and the summary line it ends with. */
  method ReconcileAndSummarize(store: ResourceStore, kind: DocKind, docs: seq<CommunityDoc>, existing: seq<string>,
                               download: CommunityDoc -> Download, emptyFails: bool)
      returns (summary: RunSummary, ghost unchecked: seq<string>, ghost run: ScanTrace)
    requires store.Valid()
    modifies store
    ensures store.Valid() && store.tagKeys == old(store.tagKeys)
    ensures ScannedRun(store.uuid, kind, docs, download, emptyFails, run, old(store.resources), old(store.issued))
            && store.issued == run.issues[|docs|]
    ensures Reconciled(summary, docs, unchecked) && store.resources == Marked(run.states[|docs|], unchecked)
    ensures forall id :: id in unchecked ==> id in existing
  {
    var stats, uncheckedIds, deleted;
    stats, uncheckedIds, deleted, run := Reconcile(store, kind, docs, existing, download, emptyFails);
    unchecked := uncheckedIds;
    summary := RunSummary(stats, |docs|, deleted);
  }

  // ---------------------------------------------------------------- one brick

  /** `DownloadBrickDocumentation.run`: an empty list ends the task with nothing marked;
      otherwise the brick's stored documentation files are reconciled with the list. */
  method DownloadBrickDocumentation(store: ResourceStore, brick: string, docs: seq<CommunityDoc>,
                                    download: CommunityDoc -> Download)
      returns (summary: Option<RunSummary>, ghost existing: seq<string>, ghost unchecked: seq<string>,
               ghost run: ScanTrace)
    requires store.Valid()
    modifies store
    ensures store.Valid() && store.tagKeys == WithTagKeys(old(store.tagKeys), BRICK_DOC_TAG_KEYS)
    ensures |docs| == 0 ==> summary.None? && store.resources == old(store.resources) && store.issued == old(store.issued)
    ensures |docs| > 0 ==> summary.Some? && Reconciled(summary.value, docs, unchecked)
    ensures existing == BrickFiles(old(store.resources), SendToRagValue(Documentation(brick)), brick)
    ensures |docs| > 0 ==>
              && ScannedRun(store.uuid, Documentation(brick), docs, download, false, run, old(store.resources), old(store.issued))
              && store.resources == Marked(run.states[|docs|], unchecked) && store.issued == run.issues[|docs|]
    ensures forall id :: id in unchecked ==> id in existing
  {
    store.EnsureTagKeysExist(BRICK_DOC_TAG_KEYS);
    var ids := BrickFiles(store.resources, SendToRagValue(Documentation(brick)), brick);
    existing := ids;
    if |docs| == 0 {
      return None, existing, [], ScanTrace([], [], [], [], []);
    }
    var s;
    s, unchecked, run := ReconcileAndSummarize(store, Documentation(brick), docs, ids, download, false);
    summary := Some(s);
  }

  /** `DownloadBrickTechnicalDocumentation.run`: a failing answer ends the task with the error;
      no type group at all marks every stored technical documentation file of the brick;
      otherwise the groups are flattened and reconciled with those files. */
  method DownloadBrickTechnicalDocumentation(store: ResourceStore, brick: string, answer: Json,
                                             toTechDoc: (Json, string) -> CommunityDoc, download: CommunityDoc -> Download)
      returns (r: Result<Option<RunSummary>>, ghost existing: seq<string>, ghost unchecked: seq<string>,
               ghost run: ScanTrace)
    requires store.Valid()
    modifies store
    ensures store.Valid() && store.tagKeys == WithTagKeys(old(store.tagKeys), BRICK_TECH_DOC_TAG_KEYS)
    ensures r.Ok? <==> answer.JObj?
    ensures r.Err? ==> ParseTechDocsCounted(answer, toTechDoc) == Err(r.kind)
    ensures r.Err? ==> store.resources == old(store.resources) && store.issued == old(store.issued)
    ensures r.Ok? ==> existing == BrickFiles(old(store.resources), SendToRagValue(TechnicalDocumentation(brick)), brick)
    ensures r == Ok(None) ==> ParseTechDocs(answer, toTechDoc) == Ok([]) && store.resources == Marked(old(store.resources), existing)
    ensures r.Ok? && r.value.Some? ==>
              var pages := Flattened(ParseTechDocs(answer, toTechDoc).value);
              && Reconciled(r.value.value, pages, unchecked)
              && ScannedRun(store.uuid, TechnicalDocumentation(brick), pages, download, false, run, old(store.resources), old(store.issued))
              && store.resources == Marked(run.states[|pages|], unchecked) && store.issued == run.issues[|pages|]
    ensures forall id :: id in unchecked ==> id in existing
  {
    store.EnsureTagKeysExist(BRICK_TECH_DOC_TAG_KEYS);
    var parsed := ParseTechDocsCounted(answer, toTechDoc);
    existing, unchecked, run := [], [], ScanTrace([], [], [], [], []);
    if parsed.Err? {
      return Err(parsed.kind), existing, unchecked, run;
    }
    var ids := BrickFiles(store.resources, SendToRagValue(TechnicalDocumentation(brick)), brick);
    existing := ids;
    if |parsed.value| == 0 {
      store.HandleNoDocumentationCase(ids);
      return Ok(None), existing, unchecked, run;
    }
    GroupsPageCount(answer.fields, toTechDoc);
    var pages := FlattenTechDocs(parsed.value);
    var s;
    s, unchecked, run := ReconcileAndSummarize(store, TechnicalDocumentation(brick), pages, ids, download, false);
    r := Ok(Some(s));
  }

  // ---------------------------------------------------------------- stories

  /** `DownloadCommunityStories.run`, with the story listing followed for at most `fuel`
      pages (`FetchStoriesWithFuel`): `None` when the listing has not ended by then (the
      source would go on reading, with the tag keys already ensured); otherwise a failing page
      ends the task with the error, no story at all marks every stored story file, and the
      stories are reconciled with them. */
  method DownloadCommunityStories(store: ResourceStore, pages: nat -> Json, toStory: Json -> CommunityDoc,
                                  download: CommunityDoc -> Download, fuel: nat)
      returns (r: Option<Result<Option<RunSummary>>>, ghost stories: seq<CommunityDoc>, ghost existing: seq<string>,
               ghost unchecked: seq<string>, ghost run: ScanTrace, ghost last: nat)
    requires store.Valid()
    modifies store
    ensures store.Valid() && store.tagKeys == WithTagKeys(old(store.tagKeys), STORY_TAG_KEYS)
    ensures r.None? <==> last == fuel
    ensures r.None? ==> ReadsOn(pages, toStory, fuel) && store.resources == old(store.resources) && store.issued == old(store.issued)
    ensures r.Some? ==> last < fuel && EndsListing(pages(last), toStory) && ReadsOn(pages, toStory, last)
    ensures r.Some? && r.value.Ok? ==> StoriesUpTo(pages, toStory, last + 1) == Ok(stories)
    ensures r.Some? && r.value.Err? ==> StoriesUpTo(pages, toStory, last + 1) == Err(r.value.kind)
                                        && store.resources == old(store.resources) && store.issued == old(store.issued)
    ensures r.Some? && r.value.Ok? ==> existing == StoryFiles(old(store.resources))
    ensures r == Some(Ok(None)) ==> stories == [] && store.resources == Marked(old(store.resources), existing)
    ensures r.Some? && r.value.Ok? && r.value.value.Some? ==>
              && Reconciled(r.value.value.value, stories, unchecked)
              && ScannedRun(store.uuid, Story, stories, download, false, run, old(store.resources), old(store.issued))
              && store.resources == Marked(run.states[|stories|], unchecked) && store.issued == run.issues[|stories|]
    ensures forall id :: id in unchecked ==> id in existing
  {
    store.EnsureTagKeysExist(STORY_TAG_KEYS);
    var fetched;
    fetched, last := FetchStoriesWithFuel(pages, toStory, fuel);
    stories, existing, unchecked, run := [], [], [], ScanTrace([], [], [], [], []);
    if fetched.None? {
      return None, stories, existing, unchecked, run, last;
    }
    if fetched.value.Err? {
      return Some(Err(fetched.value.kind)), stories, existing, unchecked, run, last;
    }
    var listed := fetched.value.value;
    stories := listed;
    var ids := StoryFiles(store.resources);
    existing := ids;
    if |listed| == 0 {
      store.HandleNoDocumentationCase(ids);
      return Some(Ok(None)), stories, existing, unchecked, run, last;
    }
    var s;
    s, unchecked, run := ReconcileAndSummarize(store, Story, listed, ids, download, false);
    r := Some(Ok(Some(s)));
  }

  // ---------------------------------------------------------------- a set of bricks

  /** `_process_brick_documentation`: no page marks every stored documentation file of the
      brick and counts nothing; otherwise every page is counted once. */
  method ProcessBrickDocumentation(store: ResourceStore, brick: string, docs: seq<CommunityDoc>, download: CommunityDoc -> Download)
      returns (stats: Counters)
    requires store.Valid()
    modifies store
    ensures store.Valid() && store.tagKeys == old(store.tagKeys)
    ensures stats.Total() == |docs|
    ensures |docs| == 0 ==>
              stats == Zero
              && store.resources == Marked(old(store.resources), BrickFiles(old(store.resources), SendToRagValue(Documentation(brick)), brick))
  {
    var existing := BrickFiles(store.resources, SendToRagValue(Documentation(brick)), brick);
    if |docs| == 0 {
      store.HandleNoDocumentationCase(existing);
      return Zero;
    }
    var unchecked, deleted; ghost var run;
    stats, unchecked, deleted, run :=
      Reconcile(store, Documentation(brick), docs, existing, download, false);
  }

  /** `_process_brick_technical_documentation`: a failing answer raises; no type group marks
      every stored technical documentation file of the brick and counts nothing; otherwise
      every listed page is counted once, an empty download counting as failed. */
  method ProcessBrickTechnicalDocumentation(store: ResourceStore, brick: string, answer: Json,
                                            toTechDoc: (Json, string) -> CommunityDoc, reply: CommunityDoc -> TechReply)
      returns (r: Result<Counters>)
    requires store.Valid()
    modifies store
    ensures store.Valid() && store.tagKeys == old(store.tagKeys)
    ensures r.Ok? <==> answer.JObj?
    ensures r.Err? ==> store.resources == old(store.resources) && store.issued == old(store.issued)
    ensures r.Ok? ==> r.value.Total() == TechPagesListed(answer)
  {
    var parsed := ParseTechDocs(answer, toTechDoc);
    if parsed.Err? {
      return Err(parsed.kind);
    }
    var existing := BrickFiles(store.resources, SendToRagValue(TechnicalDocumentation(brick)), brick);
    if |parsed.value| == 0 {
      store.HandleNoDocumentationCase(existing);
      return Ok(Zero);
    }
    GroupsPageCount(answer.fields, toTechDoc);
    var pages := FlattenTechDocs(parsed.value);
    FlattenedSound(parsed.value);
    var stats, unchecked, deleted; ghost var run;
    stats, unchecked, deleted, run :=
      Reconcile(store, TechnicalDocumentation(brick), pages, existing, (d: CommunityDoc) => TechMarkdown(reply(d)), true);
    r := Ok(stats);
  }

  /** The number of documentation pages listed in each answer, defined from the end. */
  function DocCounts(answers: seq<Json>, toDoc: Json -> CommunityDoc): (r: seq<nat>)
    ensures |r| == |answers|
    decreases |answers|
  {
    if |answers| == 0 then []
    else
      var n := |answers| - 1;
      DocCounts(answers[..n], toDoc) + [|ParseDocumentations(answers[n], toDoc)|]
  }

  /** The number of technical documentation pages listed in each answer, defined from the end. */
  function TechCounts(answers: seq<Json>): (r: seq<nat>)
    ensures |r| == |answers|
    decreases |answers|
  {
    if |answers| == 0 then []
    else
      var n := |answers| - 1;
      TechCounts(answers[..n]) + [TechPagesListed(answers[n])]
  }

  /** Entry `k` of the documentation counts is the count of answer `k`. */
  lemma {:induction false} DocCountAt(answers: seq<Json>, toDoc: Json -> CommunityDoc, k: nat)
    requires k < |answers|
    ensures DocCounts(answers, toDoc)[k] == |ParseDocumentations(answers[k], toDoc)|
    decreases |answers|
  {
    var n := |answers| - 1;
    if k < n {
      DocCountAt(answers[..n], toDoc, k);
      assert answers[..n][k] == answers[k];
    }
  }

  /** Every entry of the documentation counts is the count of its answer. */
  lemma DocCountsAll(answers: seq<Json>, toDoc: Json -> CommunityDoc)
    ensures forall k :: 0 <= k < |answers| ==> DocCounts(answers, toDoc)[k] == |ParseDocumentations(answers[k], toDoc)|
  {
    forall k | 0 <= k < |answers|
      ensures DocCounts(answers, toDoc)[k] == |ParseDocumentations(answers[k], toDoc)|
    {
      DocCountAt(answers, toDoc, k);
    }
  }

  /** Entry `k` of the technical documentation counts is the count of answer `k`. */
  lemma {:induction false} TechCountAt(answers: seq<Json>, k: nat)
    requires k < |answers|
    ensures TechCounts(answers)[k] == TechPagesListed(answers[k])
    decreases |answers|
  {
    var n := |answers| - 1;
    if k < n {
      TechCountAt(answers[..n], k);
      assert answers[..n][k] == answers[k];
    }
  }

  /** Every entry of the technical documentation counts is the count of its answer. */
  lemma TechCountsAll(answers: seq<Json>)
    ensures forall k :: 0 <= k < |answers| ==> TechCounts(answers)[k] == TechPagesListed(answers[k])
  {
    forall k | 0 <= k < |answers|
      ensures TechCounts(answers)[k] == TechPagesListed(answers[k])
    {
      TechCountAt(answers, k);
    }
  }

  /** The technical documentation answers of the first `i` bricks are all dicts. */
  predicate DictsUpTo(answers: seq<Json>, i: nat)
    requires i <= |answers|
  {
    i == 0 || (DictsUpTo(answers, i - 1) && answers[i - 1].JObj?)
  }

  /** `DictsUpTo` holds exactly when none of the first `i` answers makes the task raise. */
  lemma {:induction false} DictsUpToAll(answers: seq<Json>, i: nat)
    requires i <= |answers|
    ensures DictsUpTo(answers, i) <==> forall k :: 0 <= k < i ==> answers[k].JObj?
  {
    if i > 0 {
      DictsUpToAll(answers, i - 1);
    }
  }

  /** An answer that is not a dict makes every longer prefix fail. */
  lemma {:induction false} DictsUpToFails(answers: seq<Json>, i: nat, n: nat)
    requires i < n <= |answers| && !answers[i].JObj?
    ensures !DictsUpTo(answers, n)
    decreases n
  {
    if n > i + 1 {
      DictsUpToFails(answers, i, n - 1);
    }
  }

  /** One brick of `DownloadBricksDocumentation.run`: its documentation, then its technical
      documentation; fails exactly when the technical documentation answer is not a dict. */
  method ProcessBrick(store: ResourceStore, brick: string, docAnswer: Json, toDoc: Json -> CommunityDoc,
                      download: CommunityDoc -> Download, techAnswer: Json,
                      toTechDoc: (Json, string) -> CommunityDoc, reply: CommunityDoc -> TechReply)
      returns (docStats: Counters, techStats: Result<Counters>)
    requires store.Valid()
    modifies store
    ensures store.Valid() && store.tagKeys == old(store.tagKeys)
    ensures docStats.Total() == |ParseDocumentations(docAnswer, toDoc)|
    ensures techStats.Ok? <==> techAnswer.JObj?
    ensures techStats.Ok? ==> techStats.value.Total() == TechPagesListed(techAnswer)
  {
    var docs := FetchBrickDocumentations(docAnswer, toDoc);
    docStats := ProcessBrickDocumentation(store, brick, docs, download);
    techStats := ProcessBrickTechnicalDocumentation(store, brick, techAnswer, toTechDoc, reply);
  }

  /** One turn of the brick loop of `DownloadBricksDocumentation.run`: brick `i` is processed
      and its counters are added to the totals of the bricks before it. */
  method BrickStep(store: ResourceStore, brick: string, docAnswer: Json, toDoc: Json -> CommunityDoc,
                   download: CommunityDoc -> Download, techAnswer: Json,
                   toTechDoc: (Json, string) -> CommunityDoc, reply: CommunityDoc -> TechReply,
                   docTotals: Counters, techTotals: Counters, ghost docCount: nat, ghost techCount: nat)
      returns (next: Result<(Counters, Counters)>)
    requires store.Valid()
    requires docCount == |ParseDocumentations(docAnswer, toDoc)| && techCount == TechPagesListed(techAnswer)
    modifies store
    ensures store.Valid() && store.tagKeys == old(store.tagKeys)
    ensures next.Ok? <==> techAnswer.JObj?
    ensures next.Ok? ==> next.value.0.Total() == docTotals.Total() + docCount
    ensures next.Ok? ==> next.value.1.Total() == techTotals.Total() + techCount
  {
    var docStats, techStats := ProcessBrick(store, brick, docAnswer, toDoc, download, techAnswer, toTechDoc, reply);
    if techStats.Err? {
      return Err(techStats.kind);
    }
    next := Ok((docTotals.Plus(docStats), techTotals.Plus(techStats.value)));
  }

  /** The brick loop of `DownloadBricksDocumentation.run`, given the number of pages each
      brick's answers list: it stops at the first brick whose technical documentation answer
      is not a dict, and otherwise its totals add up every brick's pages. */
  method ProcessBricks(store: ResourceStore, bricks: seq<string>,
                       docAnswers: seq<Json>, toDoc: Json -> CommunityDoc, download: CommunityDoc -> Download,
                       techAnswers: seq<Json>, toTechDoc: (Json, string) -> CommunityDoc,
                       reply: CommunityDoc -> TechReply, ghost docCounts: seq<nat>, ghost techCounts: seq<nat>)
      returns (r: Result<(Counters, Counters)>)
    requires store.Valid()
    requires |docAnswers| == |bricks| && |techAnswers| == |bricks|
    requires |docCounts| == |bricks| && |techCounts| == |bricks|
    requires forall k :: 0 <= k < |bricks| ==> docCounts[k] == |ParseDocumentations(docAnswers[k], toDoc)|
    requires forall k :: 0 <= k < |bricks| ==> techCounts[k] == TechPagesListed(techAnswers[k])
    modifies store
    ensures store.Valid() && store.tagKeys == old(store.tagKeys)
    ensures r.Ok? <==> DictsUpTo(techAnswers, |bricks|)
    ensures r.Ok? ==> r.value.0.Total() == Sum(docCounts) && r.value.1.Total() == Sum(techCounts)
  {
    var docTotals, techTotals := Counters(0, 0, 0, 0), Counters(0, 0, 0, 0);
    var i := 0;
    while i < |bricks|
      invariant 0 <= i <= |bricks|
      invariant store.Valid() && store.tagKeys == old(store.tagKeys)
      invariant DictsUpTo(techAnswers, i)
      invariant docTotals.Total() == Sum(docCounts[..i]) && techTotals.Total() == Sum(techCounts[..i])
    {
      var next := BrickStep(store, bricks[i], docAnswers[i], toDoc, download, techAnswers[i], toTechDoc, reply,
                            docTotals, techTotals, docCounts[i], techCounts[i]);
      if next.Err? {
        DictsUpToFails(techAnswers, i, |bricks|);
        return Err(next.kind);
      }
      SumSnoc(docCounts, i);
      SumSnoc(techCounts, i);
      docTotals, techTotals := next.value.0, next.value.1;
      i := i + 1;
    }
    assert docCounts[..i] == docCounts && techCounts[..i] == techCounts;
    r := Ok((docTotals, techTotals));
  }

  /** `DownloadBricksDocumentation.run`: the tag keys first, then each brick's documentation
      and technical documentation; `docAnswers[i]` and `techAnswers[i]` are Community's
      answers for brick `i`. The task fails exactly when some technical documentation
      answer is not a dict, and otherwise its totals count every listed page of every brick
      once. */
  method DownloadBricksDocumentation(store: ResourceStore, bricks: seq<string>,
                                     docAnswers: seq<Json>, toDoc: Json -> CommunityDoc, download: CommunityDoc -> Download,
                                     techAnswers: seq<Json>, toTechDoc: (Json, string) -> CommunityDoc,
                                     reply: CommunityDoc -> TechReply)
      returns (r: Result<(Counters, Counters)>)
    requires store.Valid()
    requires |docAnswers| == |bricks| && |techAnswers| == |bricks|
    modifies store
    ensures store.Valid() && store.tagKeys == WithTagKeys(old(store.tagKeys), TAG_KEYS)
    ensures r.Ok? <==> DictsUpTo(techAnswers, |bricks|)
    ensures r.Ok? ==> r.value.0.Total() == Sum(DocCounts(docAnswers, toDoc))
    ensures r.Ok? ==> r.value.1.Total() == Sum(TechCounts(techAnswers))
  {
    store.EnsureTagKeysExist(TAG_KEYS);
    ghost var docCounts, techCounts := DocCounts(docAnswers, toDoc), TechCounts(techAnswers);
    DocCountsAll(docAnswers, toDoc);
    TechCountsAll(techAnswers);
    r := ProcessBricks(store, bricks, docAnswers, toDoc, download, techAnswers, toTechDoc, reply, docCounts, techCounts);
  }
}
