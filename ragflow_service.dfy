/** `RagFlowService`, the thin wrapper over the RagFlow SDK: the lazily created client, the
    in-memory pagination of list results, the display names given to uploaded files, the
    "first match or ValueError" lookups and the session choice of `ask_stream`. SDK results
    are parameters of the model. */
module RagFlow {
  import opened Wrappers
  import opened PyText
  import opened RagModels

  /** The SDK client, identified by the key and URL it was built with. */
  datatype SdkClient = SdkClient(apiKey: string, baseUrl: string)

  class RagFlowService {
    const baseUrl: string
    const apiKey: string
    var client: Option<SdkClient>

    /** The client, once created, is the one built from this service's key and URL. */
    predicate Valid()
      reads this
    {
      client.Some? ==> client.value == SdkClient(apiKey, baseUrl)
    }

    constructor (baseUrl: string, apiKey: string)
      ensures this.baseUrl == RStrip(baseUrl, '/') && this.apiKey == apiKey
      ensures client == None && Valid()
    {
      this.baseUrl := RStrip(baseUrl, '/');
      this.apiKey := apiKey;
      client := None;
    }

    /** `_get_client`: created on first use, then reused. */
    method GetClient() returns (c: SdkClient)
      requires Valid()
      modifies this
      ensures Valid() && client == Some(c)
      ensures c == SdkClient(apiKey, baseUrl)
      ensures old(client).Some? ==> c == old(client).value
    {
      if client.None? {
        client := Some(SdkClient(apiKey, baseUrl));
      }
      c := client.value;
    }
  }

  // ---------------------------------------------------------------- pagination

  /** `items[(page - 1) * page_size : (page - 1) * page_size + page_size]`, the pagination
      of `list_datasets`, `list_documents`, `list_chats` and `list_sessions`. */
  function Page<T>(items: seq<T>, page: int, pageSize: int): (r: seq<T>)
    ensures |r| <= |items|
  {
    var start := (page - 1) * pageSize;
    Slice(items, start, start + pageSize)
  }

  function Min(a: int, b: int): int { if a < b then a else b }

  lemma MulNonNegative(a: int, b: int)
    requires a >= 0 && b >= 0
    ensures a * b >= 0
  {
  }

  /** For a page from 1 and a non-negative size, the page is the window
      [(page-1)*size, page*size) of the list, clipped to its length. */
  lemma PageIsWindow<T>(items: seq<T>, page: int, pageSize: int)
    requires page >= 1 && pageSize >= 0
    ensures (page - 1) * pageSize >= 0
    ensures Page(items, page, pageSize) ==
            items[Min((page - 1) * pageSize, |items|)..Min(page * pageSize, |items|)]
  {
    MulNonNegative(page - 1, pageSize);
    assert page * pageSize == (page - 1) * pageSize + pageSize;
    SliceNonNegative(items, (page - 1) * pageSize, (page - 1) * pageSize + pageSize);
  }

  /** Page 0 is always empty (Python reads it as `items[-size:0]`). */
  lemma PageZeroIsEmpty<T>(items: seq<T>, pageSize: int)
    requires pageSize >= 0
    ensures Page(items, 0, pageSize) == []
  {
  }

  /** Page -1 is not empty: Python's negative bounds count from the end of the list. */
  lemma PageMinusOneCountsFromEnd<T>(items: seq<T>, pageSize: int)
    requires pageSize > 0 && |items| >= 2 * pageSize
    ensures Page(items, -1, pageSize) == items[|items| - 2 * pageSize..|items| - pageSize]
  {
  }

  /** The pages 1..k laid end to end. */
  function PagesUpTo<T>(items: seq<T>, k: nat, pageSize: int): seq<T>
  {
    if k == 0 then [] else PagesUpTo(items, k - 1, pageSize) + Page(items, k, pageSize)
  }

  /** Walking the pages from 1 loses and repeats nothing: pages 1..k are the first k*size
      items. */
  lemma {:induction false} PagesCoverPrefix<T>(items: seq<T>, k: nat, pageSize: nat)
    ensures PagesUpTo(items, k, pageSize) == Take(items, k * pageSize)
  {
    if k > 0 {
      PagesCoverPrefix(items, k - 1, pageSize);
      PageIsWindow(items, k, pageSize);
      MulNonNegative(k - 1, pageSize);
      var a := Min((k - 1) * pageSize, |items|);
      var b := Min(k * pageSize, |items|);
      assert k * pageSize == (k - 1) * pageSize + pageSize;
      assert Take(items, (k - 1) * pageSize) == items[..a];
      assert Take(items, k * pageSize) == items[..b];
      assert items[..a] + items[a..b] == items[..b];
    }
  }

  // ---------------------------------------------------------------- lookups

  /** `get_dataset` / `get_document`: the first match of a lookup by id, a ValueError when
      nothing matches. */
  function FirstOrValueError<T>(found: seq<T>): (r: Result<T>)
    ensures r.Err? <==> |found| == 0
    ensures r.Err? ==> r.kind == ValueError
    ensures r.Ok? ==> r.value == found[0]
  {
    if |found| == 0 then Err(ValueError) else Ok(found[0])
  }

  /** `get_chat`, `get_session`, `list_documents`, `list_sessions`: the same lookup inside a
      `try` that turns every failure into a RuntimeError. */
  function Wrapped<T>(r: Result<T>): (w: Result<T>)
    ensures w.Ok? <==> r.Ok?
    ensures w.Ok? ==> w.value == r.value
    ensures w.Err? ==> w.kind == RuntimeError
  {
    if r.Ok? then r else Err(RuntimeError)
  }

  /** `list_documents(dataset_id, page, page_size)`: look the dataset up, then page its
      documents; a missing dataset surfaces as RuntimeError. */
  function ListDocuments<D, T>(datasets: seq<D>, documents: seq<T>, page: int, pageSize: int): (r: Result<seq<T>>)
    ensures r.Err? <==> |datasets| == 0
    ensures r.Err? ==> r.kind == RuntimeError
    ensures r.Ok? ==> r.value == Page(documents, page, pageSize)
  {
    var _ :- Wrapped(FirstOrValueError(datasets));
    Ok(Page(documents, page, pageSize))
  }

  // ---------------------------------------------------------------- uploads

  /** The display name `upload_documents` gives the i-th path. */
  function DisplayName(docPaths: seq<string>, filenames: seq<string>, i: nat): (n: string)
    requires i < |docPaths|
    ensures i < |filenames| && filenames[i] != "" ==> n == filenames[i]
    ensures !(i < |filenames| && filenames[i] != "") ==> n == BaseName(docPaths[i])
  {
    var filename := if i < |filenames| then filenames[i] else "";
    if filename != "" then filename else BaseName(docPaths[i])
  }

  /** The names `upload_documents` sends, one per path; `filenames = None` is the empty list. */
  method UploadDisplayNames(docPaths: seq<string>, filenames: seq<string>) returns (names: seq<string>)
    ensures |names| == |docPaths|
    ensures forall i :: 0 <= i < |docPaths| ==> names[i] == DisplayName(docPaths, filenames, i)
  {
    names := [];
    var i := 0;
    while i < |docPaths|
      invariant 0 <= i <= |docPaths|
      invariant |names| == i
      invariant forall k :: 0 <= k < i ==> names[k] == DisplayName(docPaths, filenames, k)
    {
      var filename := if i < |filenames| then filenames[i] else "";
      var displayName := filename;
      if filename == "" {
        displayName := BaseName(docPaths[i]);
      }
      names := names + [displayName];
      i := i + 1;
    }
  }

  /** `upload_document(doc_path, dataset_id, filename)`: the single-file upload names the file
      after `filename` when it is given and non-empty, after the path otherwise. */
  function UploadName(docPath: string, filename: Option<string>): (n: string)
    ensures filename.Some? && filename.value != "" ==> n == filename.value
    ensures !(filename.Some? && filename.value != "") ==> n == BaseName(docPath)
  {
    DisplayName([docPath], if filename.Some? && filename.value != "" then [filename.value] else [], 0)
  }

  /** `upload_document` returns `response[0]`; an empty response is an IndexError. */
  function FirstUploaded<T>(response: seq<T>): (r: Result<T>)
    ensures r.Ok? <==> |response| > 0
    ensures r.Ok? ==> r.value == response[0]
    ensures r.Err? ==> r.kind == IndexError
  {
    if |response| == 0 then Err(IndexError) else Ok(response[0])
  }

  // ---------------------------------------------------------------- ask_stream

  const DEFAULT_SESSION_NAME: string := "default_session"

  /** The session `ask_stream` asks in: an existing one, or a new one it creates. */
  datatype AskSession<S> = Existing(session: S) | CreateNew(name: string)

  /** `ask_stream`: the chat must exist (RuntimeError otherwise); a non-empty session id whose
      lookup finds a session reuses the first one found, anything else creates
      "default_session". */
  function AskStreamSession<C, S>(chats: seq<C>, sessionId: Option<string>, found: seq<S>): (r: Result<AskSession<S>>)
    ensures r.Err? <==> |chats| == 0
    ensures r.Err? ==> r.kind == RuntimeError
    ensures r.Ok? && r.value.Existing? <==>
            |chats| > 0 && sessionId.Some? && sessionId.value != "" && |found| > 0
    ensures r.Ok? && r.value.Existing? ==> r.value.session == found[0]
    ensures r.Ok? && r.value.CreateNew? ==> r.value.name == DEFAULT_SESSION_NAME
  {
    var _ :- Wrapped(FirstOrValueError(chats));
    if sessionId.Some? && sessionId.value != "" && |found| > 0 then Ok(Existing(found[0]))
    else Ok(CreateNew(DEFAULT_SESSION_NAME))
  }
}
