/** How the download tasks read Community's answers: the documentation list of a brick, the
    technical documentation of a brick grouped by type, and the pages of the story list. The
    JSON an answer decodes to is a value; turning one entry into a page record (the Community
    DTO classes) is a parameter. */
module CommunityAnswers {
  import opened Wrappers
  import opened Seqs
  import opened CommunityDownloads

  /** A decoded JSON document. An object lists its fields in order, each name once, as a
      Python dict does. */
  datatype Json =
    | JNull
    | JBool(b: bool)
    | JNum(n: int)
    | JStr(s: string)
    | JArr(items: seq<Json>)
    | JObj(fields: seq<(string, Json)>)

  /** The value of the first field with that name. */
  function Lookup(fields: seq<(string, Json)>, name: string): (r: Option<Json>)
    ensures r.Some? <==> exists i :: 0 <= i < |fields| && fields[i].0 == name
    ensures r.Some? ==> (name, r.value) in fields
  {
    if |fields| == 0 then None
    else if fields[0].0 == name then Some(fields[0].1)
    else
      var rest := Lookup(fields[1..], name);
      assert forall i :: 1 <= i < |fields| ==> fields[i] == fields[1..][i - 1];
      rest
  }

  /** `data.get(name, default)` on a dict. */
  function Get(j: Json, name: string, default: Json): Json
    requires j.JObj?
  {
    Lookup(j.fields, name).GetOr(default)
  }

  /** Python truthiness of a decoded value. */
  predicate Truthful(j: Json)
  {
    match j
    case JNull => false
    case JBool(b) => b
    case JNum(n) => n != 0
    case JStr(s) => s != ""
    case JArr(items) => |items| > 0
    case JObj(fields) => |fields| > 0
  }

  /** The error answer Community sends instead of data: a dict with a `status` and a `code`. */
  predicate IsErrorAnswer(j: Json)
  {
    j.JObj? && Lookup(j.fields, "status").Some? && Lookup(j.fields, "code").Some?
  }

  /** `[convert(x) for x in xs]`. */
  function Converted<T>(xs: seq<Json>, convert: Json -> T): (r: seq<T>)
    ensures |r| == |xs|
    ensures forall k :: 0 <= k < |xs| ==> r[k] == convert(xs[k])
    decreases |xs|
  {
    if |xs| == 0 then []
    else
      var n := |xs| - 1;
      var r := Converted(xs[..n], convert) + [convert(xs[n])];
      assert forall k :: 0 <= k < n ==> xs[..n][k] == xs[k];
      r
  }

  // ---------------------------------------------------------------- documentation list

  /** The pages of the dict entries of a list, in order; every other entry is skipped.
      Defined from the end, as the fetch loop builds it. */
  function DocEntries(items: seq<Json>, toDoc: Json -> CommunityDoc): (r: seq<CommunityDoc>)
    ensures |r| <= |items|
    decreases |items|
  {
    if |items| == 0 then []
    else
      var n := |items| - 1;
      DocEntries(items[..n], toDoc) + (if items[n].JObj? then [toDoc(items[n])] else [])
  }

  /** `_fetch_brick_documentations` of the brick-set task: an error answer or an answer that
      is not a list gives no page; otherwise the pages of its dict entries. */
  function ParseDocumentations(answer: Json, toDoc: Json -> CommunityDoc): (r: seq<CommunityDoc>)
    ensures !answer.JArr? ==> r == []
    ensures answer.JArr? ==> |r| <= |answer.items|
  {
    if IsErrorAnswer(answer) || !answer.JArr? then [] else DocEntries(answer.items, toDoc)
  }

  /** The fetch loop: walks the decoded answer and converts every dict entry. */
  method FetchBrickDocumentations(answer: Json, toDoc: Json -> CommunityDoc) returns (docs: seq<CommunityDoc>)
    ensures docs == ParseDocumentations(answer, toDoc)
  {
    if IsErrorAnswer(answer) || !answer.JArr? {
      return [];
    }
    var items := answer.items;
    docs := [];
    var i := 0;
    while i < |items|
      invariant 0 <= i <= |items|
      invariant docs == DocEntries(items[..i], toDoc)
    {
      PrefixSnoc(items, i);
      if items[i].JObj? {
        docs := docs + [toDoc(items[i])];
      }
      i := i + 1;
    }
    assert items[..|items|] == items;
  }

  /** The page is the conversion of some dict entry of the list. */
  predicate FromDictEntry(items: seq<Json>, toDoc: Json -> CommunityDoc, page: CommunityDoc)
  {
    exists j :: 0 <= j < |items| && items[j].JObj? && page == toDoc(items[j])
  }

  /** Every page comes from a dict entry of the list. */
  lemma {:induction false} DocEntriesSound(items: seq<Json>, toDoc: Json -> CommunityDoc)
    ensures forall k :: 0 <= k < |DocEntries(items, toDoc)| ==> FromDictEntry(items, toDoc, DocEntries(items, toDoc)[k])
    decreases |items|
  {
    if |items| > 0 {
      var n := |items| - 1;
      DocEntriesSound(items[..n], toDoc);
      var prefix := DocEntries(items[..n], toDoc);
      var all := DocEntries(items, toDoc);
      forall k | 0 <= k < |all|
        ensures FromDictEntry(items, toDoc, all[k])
      {
        if k < |prefix| {
          assert FromDictEntry(items[..n], toDoc, prefix[k]);
          var j :| 0 <= j < n && items[..n][j].JObj? && prefix[k] == toDoc(items[..n][j]);
          assert items[j] == items[..n][j];
          assert all[k] == prefix[k];
        } else {
          assert items[n].JObj?;
          assert all[k] == toDoc(items[n]);
        }
      }
    }
  }

  /** A list of dicts is converted whole, one page per entry, in order. */
  lemma {:induction false} DocEntriesOfObjects(items: seq<Json>, toDoc: Json -> CommunityDoc)
    requires forall k :: 0 <= k < |items| ==> items[k].JObj?
    ensures |DocEntries(items, toDoc)| == |items|
    ensures forall k :: 0 <= k < |items| ==> DocEntries(items, toDoc)[k] == toDoc(items[k])
    decreases |items|
  {
    if |items| > 0 {
      var n := |items| - 1;
      DocEntriesOfObjects(items[..n], toDoc);
      assert forall k :: 0 <= k < n ==> items[..n][k] == items[k];
    }
  }

  /** A list with no dict in it gives no page. */
  lemma {:induction false} DocEntriesOfNoObject(items: seq<Json>, toDoc: Json -> CommunityDoc)
    requires forall k :: 0 <= k < |items| ==> !items[k].JObj?
    ensures DocEntries(items, toDoc) == []
    decreases |items|
  {
    if |items| > 0 {
      var n := |items| - 1;
      DocEntriesOfNoObject(items[..n], toDoc);
      assert !items[n].JObj?;
    }
  }

  // ---------------------------------------------------------------- technical documentation

  /** One type group: its list entries converted with the type, anything else as no page. */
  function GroupDocs(name: string, data: Json, toTechDoc: (Json, string) -> CommunityDoc): (r: seq<CommunityDoc>)
    ensures !data.JArr? ==> r == []
    ensures data.JArr? ==> |r| == |data.items| && forall k :: 0 <= k < |r| ==> r[k] == toTechDoc(data.items[k], name)
  {
    if data.JArr? then TechEntries(data.items, name, toTechDoc) else []
  }

  /** `[TechDocDTO.from_json(entry, name) for entry in items]`, defined from the end. */
  function TechEntries(items: seq<Json>, name: string, toTechDoc: (Json, string) -> CommunityDoc): (r: seq<CommunityDoc>)
    ensures |r| == |items| && forall k :: 0 <= k < |r| ==> r[k] == toTechDoc(items[k], name)
    decreases |items|
  {
    if |items| == 0 then []
    else
      var n := |items| - 1;
      var r := TechEntries(items[..n], name, toTechDoc) + [toTechDoc(items[n], name)];
      assert forall k :: 0 <= k < n ==> items[..n][k] == items[k];
      r
  }

  /** The groups of a technical documentation answer, in the answer's order. */
  function Groups(fields: seq<(string, Json)>, toTechDoc: (Json, string) -> CommunityDoc): (r: seq<(string, seq<CommunityDoc>)>)
    ensures |r| == |fields|
    decreases |fields|
  {
    if |fields| == 0 then []
    else
      var n := |fields| - 1;
      Groups(fields[..n], toTechDoc) + [(fields[n].0, GroupDocs(fields[n].0, fields[n].1, toTechDoc))]
  }

  /** Every type keeps its name and position; its pages are its list entries, or none when
      the group is not a list. */
  lemma {:induction false} GroupsSound(fields: seq<(string, Json)>, toTechDoc: (Json, string) -> CommunityDoc)
    ensures forall i :: 0 <= i < |fields| ==>
              Groups(fields, toTechDoc)[i] == (fields[i].0, GroupDocs(fields[i].0, fields[i].1, toTechDoc))
    decreases |fields|
  {
    if |fields| > 0 {
      var n := |fields| - 1;
      GroupsSound(fields[..n], toTechDoc);
      forall i | 0 <= i < |fields|
        ensures Groups(fields, toTechDoc)[i] == (fields[i].0, GroupDocs(fields[i].0, fields[i].1, toTechDoc))
      {
        if i < n {
          assert fields[..n][i] == fields[i];
        }
      }
    }
  }

  /** `_fetch_brick_technical_documentations`: an error answer gives no group; a dict gives
      one group per type; anything else makes `.items()` raise AttributeError. */
  function ParseTechDocs(answer: Json, toTechDoc: (Json, string) -> CommunityDoc): (r: Result<seq<(string, seq<CommunityDoc>)>>)
    ensures r.Ok? <==> answer.JObj?
    ensures r.Ok? && IsErrorAnswer(answer) ==> r.value == []
    ensures r.Ok? && !IsErrorAnswer(answer) ==> |r.value| == |answer.fields|
    ensures r.Err? ==> r.kind == AttributeError
  {
    if IsErrorAnswer(answer) then Ok([])
    else if !answer.JObj? then Err(AttributeError)
    else Ok(Groups(answer.fields, toTechDoc))
  }

  /** The same request in `DownloadBrickTechnicalDocumentation`, which logs `len` of the
      answer before its `.keys()`: a number, a boolean or null raises TypeError there, a string
      or a list AttributeError; a dict answer parses as in `ParseTechDocs`. */
  function ParseTechDocsCounted(answer: Json, toTechDoc: (Json, string) -> CommunityDoc): (r: Result<seq<(string, seq<CommunityDoc>)>>)
    ensures r.Ok? <==> ParseTechDocs(answer, toTechDoc).Ok?
    ensures r.Ok? ==> r == ParseTechDocs(answer, toTechDoc)
    ensures r.Err? ==> (r.kind == TypeError <==> answer.JNull? || answer.JBool? || answer.JNum?)
    ensures r.Err? ==> (r.kind == AttributeError <==> answer.JStr? || answer.JArr?)
  {
    match answer
    case JNull => Err(TypeError)
    case JBool(_) => Err(TypeError)
    case JNum(_) => Err(TypeError)
    case _ => ParseTechDocs(answer, toTechDoc)
  }

  /** The flattened list of a grouped answer: the pages of each type in turn, each carrying
      its type. */
  function Flattened(groups: seq<(string, seq<CommunityDoc>)>): seq<CommunityDoc>
    decreases |groups|
  {
    if |groups| == 0 then []
    else
      var n := |groups| - 1;
      Flattened(groups[..n]) + Typed(groups[n].1, groups[n].0)
  }

  /** The pages of one group, each with the group's type (`tech_doc.tech_doc_type = type`). */
  function Typed(docs: seq<CommunityDoc>, techDocType: string): (r: seq<CommunityDoc>)
    ensures |r| == |docs|
    ensures forall k :: 0 <= k < |r| ==> r[k] == docs[k].(techDocType := techDocType)
    decreases |docs|
  {
    if |docs| == 0 then []
    else Typed(docs[..|docs| - 1], techDocType) + [docs[|docs| - 1].(techDocType := techDocType)]
  }

  /** The total number of pages of the groups. */
  function PageCount(groups: seq<(string, seq<CommunityDoc>)>): nat
    decreases |groups|
  {
    if |groups| == 0 then 0 else PageCount(groups[..|groups| - 1]) + |groups[|groups| - 1].1|
  }

  /** The number of entries the list-valued types of an answer hold. */
  function ListedPages(fields: seq<(string, Json)>): nat
    decreases |fields|
  {
    if |fields| == 0 then 0
    else
      var n := |fields| - 1;
      ListedPages(fields[..n]) + (if fields[n].1.JArr? then |fields[n].1.items| else 0)
  }

  /** The pages a technical documentation answer lists: none for an error answer or a
      non-dict. */
  function TechPagesListed(answer: Json): nat
  {
    if answer.JObj? && !IsErrorAnswer(answer) then ListedPages(answer.fields) else 0
  }

  /** Grouping an answer converts each listed entry into exactly one page. */
  lemma {:induction false} GroupsPageCount(fields: seq<(string, Json)>, toTechDoc: (Json, string) -> CommunityDoc)
    ensures PageCount(Groups(fields, toTechDoc)) == ListedPages(fields)
    decreases |fields|
  {
    if |fields| > 0 {
      var n := |fields| - 1;
      GroupsPageCount(fields[..n], toTechDoc);
      assert Groups(fields, toTechDoc)[..n] == Groups(fields[..n], toTechDoc);
    }
  }

  /** The flattened list has every page of every group and nothing else: its length is the
      page count, and each of its pages is a page of some group, stamped with that group's
      type. */
  lemma {:induction false} FlattenedSound(groups: seq<(string, seq<CommunityDoc>)>)
    ensures |Flattened(groups)| == PageCount(groups)
    ensures forall d :: d in Flattened(groups) ==>
              exists i, k :: 0 <= i < |groups| && 0 <= k < |groups[i].1| && d == groups[i].1[k].(techDocType := groups[i].0)
    decreases |groups|
  {
    if |groups| > 0 {
      var n := |groups| - 1;
      FlattenedSound(groups[..n]);
      forall d | d in Flattened(groups)
        ensures exists i, k :: 0 <= i < |groups| && 0 <= k < |groups[i].1| && d == groups[i].1[k].(techDocType := groups[i].0)
      {
        if d in Flattened(groups[..n]) {
          var i, k :| 0 <= i < n && 0 <= k < |groups[..n][i].1| && d == groups[..n][i].1[k].(techDocType := groups[..n][i].0);
          assert groups[..n][i] == groups[i];
        } else {
          var typed := Typed(groups[n].1, groups[n].0);
          assert d in typed;
          var k :| 0 <= k < |typed| && typed[k] == d;
          assert d == groups[n].1[k].(techDocType := groups[n].0);
        }
      }
    }
  }

  /** The nested loop that flattens the groups into one list of pages. */
  method FlattenTechDocs(groups: seq<(string, seq<CommunityDoc>)>) returns (all: seq<CommunityDoc>)
    ensures all == Flattened(groups)
  {
    all := [];
    var i := 0;
    while i < |groups|
      invariant 0 <= i <= |groups|
      invariant all == Flattened(groups[..i])
    {
      var (techDocType, docs) := groups[i];
      var j := 0;
      ghost var before := all;
      while j < |docs|
        invariant 0 <= j <= |docs|
        invariant all == before + Typed(docs[..j], techDocType)
      {
        PrefixSnoc(docs, j);
        all := all + [docs[j].(techDocType := techDocType)];
        j := j + 1;
      }
      assert docs[..|docs|] == docs;
      PrefixSnoc(groups, i);
      i := i + 1;
    }
    assert groups[..|groups|] == groups;
  }

  // ---------------------------------------------------------------- story pages

  /** The stories listed on one answer page: its `objects` (none when absent), converted in
      order. The page must be a dict (`response_data.keys()` raises AttributeError otherwise),
      and `objects` a list: an empty string or dict lists nothing, a non-empty dict raises
      KeyError at `objects[0]`, a number, boolean or null raises TypeError at `len`, and a
      non-empty string is handed to the conversion, which the model counts as raising
      AttributeError. */
  function PageStories(page: Json, toStory: Json -> CommunityDoc): (r: Result<seq<CommunityDoc>>)
    ensures !page.JObj? ==> r == Err(AttributeError)
    ensures page.JObj? && Lookup(page.fields, "objects").None? ==> r == Ok([])
    ensures page.JObj? && Lookup(page.fields, "objects").Some? && Lookup(page.fields, "objects").value.JObj? ==>
              (r.Ok? <==> |Lookup(page.fields, "objects").value.fields| == 0) && (r.Err? ==> r.kind == KeyError)
    ensures page.JObj? && Lookup(page.fields, "objects").Some? && Lookup(page.fields, "objects").value.JArr? ==>
              r.Ok? && |r.value| == |Lookup(page.fields, "objects").value.items|
  {
    if !page.JObj? then Err(AttributeError)
    else
      match Get(page, "objects", JArr([]))
      case JArr(items) => Ok(Converted(items, toStory))
      case JStr(s) => if s == "" then Ok([]) else Err(AttributeError)
      case JObj(fields) => if |fields| == 0 then Ok([]) else Err(KeyError)
      case _ => Err(TypeError)
  }

  /** Whether a dict page is the last one: `last` defaults to True. */
  predicate IsLastPage(page: Json)
    requires page.JObj?
  {
    Truthful(Get(page, "last", JBool(true)))
  }

  /** The outcome of reading pages `0 .. n-1`: their stories in order, or the first failure. */
  function StoriesUpTo(pages: nat -> Json, toStory: Json -> CommunityDoc, n: nat): Result<seq<CommunityDoc>>
    decreases n
  {
    if n == 0 then Ok([])
    else
      match StoriesUpTo(pages, toStory, n - 1)
      case Err(kind) => Err(kind)
      case Ok(before) =>
        match PageStories(pages(n - 1), toStory)
        case Err(kind) => Err(kind)
        case Ok(listed) => Ok(before + listed)
  }

  /** A page after which `_fetch_all_stories` asks for no more: one whose reading raises, or
      a dict whose `last` is truthy. */
  predicate EndsListing(page: Json, toStory: Json -> CommunityDoc)
  {
    match PageStories(page, toStory)
    case Err(_) => true
    case Ok(_) => IsLastPage(page)
  }

  /** A page without `last` ends the listing. */
  lemma LastDefaultsToTrue(page: Json, toStory: Json -> CommunityDoc)
    requires page.JObj? && Lookup(page.fields, "last").None?
    ensures EndsListing(page, toStory)
  {
  }

  /** None of pages `0 .. n-1` ends the listing, so page `n` is read too. */
  predicate ReadsOn(pages: nat -> Json, toStory: Json -> CommunityDoc, n: nat)
    decreases n
  {
    n == 0 || (ReadsOn(pages, toStory, n - 1) && !EndsListing(pages(n - 1), toStory))
  }

  /** `ReadsOn` says that no page before `n` ends the listing. */
  lemma ReadsOnAll(pages: nat -> Json, toStory: Json -> CommunityDoc, n: nat)
    ensures ReadsOn(pages, toStory, n) <==> forall p :: 0 <= p < n ==> !EndsListing(pages(p), toStory)
  {
    if ReadsOn(pages, toStory, n) {
      forall p | 0 <= p < n
        ensures !EndsListing(pages(p), toStory)
      {
        ReadsOnPage(pages, toStory, n, p);
      }
    }
    if forall p :: 0 <= p < n ==> !EndsListing(pages(p), toStory) {
      ReadsOnFromPages(pages, toStory, n);
    }
  }

  /** A page before one that is read does not end the listing. */
  lemma {:induction false} ReadsOnPage(pages: nat -> Json, toStory: Json -> CommunityDoc, n: nat, p: nat)
    requires ReadsOn(pages, toStory, n) && p < n
    ensures !EndsListing(pages(p), toStory)
    decreases n
  {
    if p < n - 1 {
      ReadsOnPage(pages, toStory, n - 1, p);
    }
  }

  /** Pages that do not end the listing are all read past. */
  lemma {:induction false} ReadsOnFromPages(pages: nat -> Json, toStory: Json -> CommunityDoc, n: nat)
    requires forall p :: 0 <= p < n ==> !EndsListing(pages(p), toStory)
    ensures ReadsOn(pages, toStory, n)
    decreases n
  {
    if n > 0 {
      ReadsOnFromPages(pages, toStory, n - 1);
    }
  }

  /** Reading never goes past a page that ends the listing. */
  lemma {:induction false} ReadsOnBelow(pages: nat -> Json, toStory: Json -> CommunityDoc, n: nat, bound: nat)
    requires ReadsOn(pages, toStory, n) && EndsListing(pages(bound), toStory)
    ensures n <= bound
    decreases n
  {
    if n > bound + 1 {
      ReadsOnBelow(pages, toStory, n - 1, bound);
    }
  }

  /** Reading one more page that does not raise: its stories come after the others, and it
      ends the listing exactly when it is the last page. */
  lemma ReadStep(pages: nat -> Json, toStory: Json -> CommunityDoc, page: nat, stories: seq<CommunityDoc>)
    requires StoriesUpTo(pages, toStory, page) == Ok(stories) && PageStories(pages(page), toStory).Ok?
    ensures StoriesUpTo(pages, toStory, page + 1) == Ok(stories + PageStories(pages(page), toStory).value)
    ensures pages(page).JObj? && (EndsListing(pages(page), toStory) <==> IsLastPage(pages(page)))
  {
  }

  /** The state of the loop of `_fetch_all_stories` before page `page`: `read` is the outcome
      of the pages before it; while `hasMore` the listing has not ended, otherwise `last` is
      the page that ended it. */
  ghost predicate Fetching(pages: nat -> Json, toStory: Json -> CommunityDoc, bound: nat, page: nat,
                           hasMore: bool, last: nat, read: Result<seq<CommunityDoc>>)
  {
    && page <= bound + 1
    && read == StoriesUpTo(pages, toStory, page)
    && (hasMore ==> read.Ok? && page <= bound && ReadsOn(pages, toStory, page))
    && (!hasMore ==> page == last + 1 && EndsListing(pages(last), toStory) && ReadsOn(pages, toStory, last))
  }

  /** Reading page `page` after pages that all read on: its stories are added to those of
      the pages before it, and `more` tells whether the listing goes on; a page that raises
      ends it. */
  method ReadNext(pages: nat -> Json, toStory: Json -> CommunityDoc, page: nat, stories: seq<CommunityDoc>)
      returns (read: Result<seq<CommunityDoc>>, more: bool)
    requires ReadsOn(pages, toStory, page) && StoriesUpTo(pages, toStory, page) == Ok(stories)
    ensures read == StoriesUpTo(pages, toStory, page + 1)
    ensures !more <==> EndsListing(pages(page), toStory)
    ensures more ==> read.Ok? && ReadsOn(pages, toStory, page + 1)
  {
    var answer := pages(page);
    var listed := PageStories(answer, toStory);
    if listed.Err? {
      return Err(listed.kind), false;
    }
    ReadStep(pages, toStory, page, stories);
    read := Ok(stories + listed.value);
    more := !IsLastPage(answer);
  }

  /** One turn of the loop of `_fetch_all_stories`, with `bound` a page that ends the
      listing: reading never passes it. */
  method ReadPage(pages: nat -> Json, toStory: Json -> CommunityDoc, page: nat, stories: seq<CommunityDoc>, ghost bound: nat)
      returns (read: Result<seq<CommunityDoc>>, more: bool)
    requires page <= bound && EndsListing(pages(bound), toStory)
    requires ReadsOn(pages, toStory, page) && StoriesUpTo(pages, toStory, page) == Ok(stories)
    ensures read == StoriesUpTo(pages, toStory, page + 1)
    ensures !more <==> EndsListing(pages(page), toStory)
    ensures Fetching(pages, toStory, bound, page + 1, more, page, read)
  {
    read, more := ReadNext(pages, toStory, page, stories);
    if more {
      ReadsOnBelow(pages, toStory, page + 1, bound);
    }
  }

  /** `_fetch_all_stories`: asks for pages 0, 1, ... until one ends the listing, and returns
      the stories of every page read, in order, or the error of the page that raised.
      `pages(p)` is Community's answer for page `p`; some page must end the listing, or the
      loop would run for ever. `last` is the number of the final page read. */
  method FetchAllStories(pages: nat -> Json, toStory: Json -> CommunityDoc) returns (r: Result<seq<CommunityDoc>>, ghost last: nat)
    requires exists p :: EndsListing(pages(p), toStory)
    ensures EndsListing(pages(last), toStory) && ReadsOn(pages, toStory, last)
    ensures r == StoriesUpTo(pages, toStory, last + 1)
  {
    ghost var bound :| EndsListing(pages(bound), toStory);
    r := Ok([]);
    var page := 0;
    var hasMore := true;
    last := 0;
    while hasMore
      invariant Fetching(pages, toStory, bound, page, hasMore, last, r)
      decreases bound + 1 - page
    {
      var more;
      r, more := ReadPage(pages, toStory, page, r.value, bound);
      last := page;
      page := page + 1;
      hasMore := more;
    }
  }

  /** When no page ever ends the listing, every page is read and none raises: the loop of
      `_fetch_all_stories` asks for page `n` for every `n`, and never stops. */
  lemma {:induction false} UnendingListingReadsEveryPage(pages: nat -> Json, toStory: Json -> CommunityDoc, n: nat)
    requires forall p :: !EndsListing(pages(p), toStory)
    ensures ReadsOn(pages, toStory, n) && StoriesUpTo(pages, toStory, n).Ok?
    decreases n
  {
    if n > 0 {
      UnendingListingReadsEveryPage(pages, toStory, n - 1);
      assert !EndsListing(pages(n - 1), toStory);
    }
  }

  /** The state of the loop followed for at most `fuel` pages, after reading pages `0 .. page-1`. */
  ghost predicate CappedFetching(pages: nat -> Json, toStory: Json -> CommunityDoc, fuel: nat, page: nat,
                                 hasMore: bool, last: nat, read: Result<seq<CommunityDoc>>)
  {
    && page <= fuel
    && (hasMore ==> read == StoriesUpTo(pages, toStory, page) && read.Ok? && ReadsOn(pages, toStory, page))
    && (!hasMore ==> page == last + 1 && EndsListing(pages(last), toStory) && ReadsOn(pages, toStory, last)
                     && read == StoriesUpTo(pages, toStory, last + 1))
  }

  /** `_fetch_all_stories` followed for at most `fuel` pages, a bound of the model only (the
      source has none): when a page below `fuel` ends the listing, the result is `Some` of
      what the loop returns; otherwise it is `None`, the loop still reading, and `last` is
      `fuel`. */
  method FetchStoriesWithFuel(pages: nat -> Json, toStory: Json -> CommunityDoc, fuel: nat)
      returns (r: Option<Result<seq<CommunityDoc>>>, ghost last: nat)
    ensures last <= fuel && (r.Some? <==> last < fuel)
    ensures last < fuel ==>
              EndsListing(pages(last), toStory) && ReadsOn(pages, toStory, last) && r.value == StoriesUpTo(pages, toStory, last + 1)
    ensures last == fuel ==> ReadsOn(pages, toStory, fuel)
    ensures (exists p: nat :: p < fuel && EndsListing(pages(p), toStory)) ==> r.Some?
  {
    var read := Ok([]);
    var page := 0;
    var hasMore := true;
    last := 0;
    while hasMore && page < fuel
      invariant CappedFetching(pages, toStory, fuel, page, hasMore, last, read)
      decreases fuel - page
    {
      var more;
      read, more := ReadNext(pages, toStory, page, read.value);
      last := page;
      page := page + 1;
      hasMore := more;
    }
    if hasMore {
      r, last := None, fuel;
      if p: nat :| p < fuel && EndsListing(pages(p), toStory) {
        ReadsOnBelow(pages, toStory, fuel, p);
      }
    } else {
      r := Some(read);
    }
  }

  /** When every page up to the final one reads, the listing is their stories in order. */
  lemma {:induction false} StoriesUpToOk(pages: nat -> Json, toStory: Json -> CommunityDoc, n: nat)
    requires forall p :: 0 <= p < n ==> PageStories(pages(p), toStory).Ok?
    ensures StoriesUpTo(pages, toStory, n).Ok?
    ensures n > 0 ==> StoriesUpTo(pages, toStory, n).value
                      == StoriesUpTo(pages, toStory, n - 1).value + PageStories(pages(n - 1), toStory).value
  {
    if n > 0 {
      StoriesUpToOk(pages, toStory, n - 1);
    }
  }
}
