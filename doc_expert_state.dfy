/** The session state of the Streamlit "Doc AI Expert" page: a search for documents, the
    document the user picks, its loaded chunks and a chat about it. Which of these are set
    decides what the page shows. */
module DocExpertState {
  import opened Wrappers
  import opened RagModels
  import opened PyText

  datatype PageStatus = Search | SearchResults | DocumentChat | DocumentSelectedNotLoaded

  /** `DocExpertAIPageConfig`. */
  datatype PageConfig = PageConfig(pageName: string, pageUrl: string, systemPrompt: string,
                                   summaryPrompt: Option<string>, defaultDatasetId: string)

  /** `DocAiExpertRagFlowDocument`. */
  datatype Document = Document(id: string, name: string, datasetId: string)

  /** `DocExpertSelectedDocument`: the chunks of the document, its text and its summary. */
  datatype SelectedChunks = SelectedChunks(chunks: seq<RagChunk>, content: string, summary: Option<string>)

  /** The chat `StreamlitOpenAiChat.load_from_session` gives: the session key it lives under
      and the system prompt it was opened with. */
  datatype ChatHandle = ChatHandle(key: string, systemPrompt: string)

  const DEFAULT_STATE_KEY := "doc-ai-expert-page-state"

  /** The default system prompt up to its placeholder. */
  const DefaultPromptLead: string :=
    "You are a document expert. You have access to the text of 1 document and you must answer question about the document: <doc>"

  /** `get_default_config`: the system prompt holds the `[DOC_CONTENT]` placeholder that the
      page requires of it and replaces with the document's text; there is no summary prompt. */
  function DefaultConfig(defaultDatasetId: string): (c: PageConfig)
    ensures c.defaultDatasetId == defaultDatasetId && c.summaryPrompt.None?
    ensures Contains(c.systemPrompt, "[DOC_CONTENT]")
  {
    var prompt := DefaultPromptLead + "[DOC_CONTENT]" + "</doc>.";
    ContainsMiddle(DefaultPromptLead, "[DOC_CONTENT]", "</doc>.");
    PageConfig("Doc AI Expert", "doc-ai-expert", prompt, None, defaultDatasetId)
  }

  /** `get_status`: loaded chunks mean the chat is shown, a selection without chunks is
      still loading, search results come next, and otherwise the search form. */
  function StatusOf(chunks: Option<SelectedChunks>, selected: Option<Document>, results: Option<seq<RagChunk>>): (s: PageStatus)
    ensures s == DocumentChat <==> chunks.Some?
    ensures s == DocumentSelectedNotLoaded <==> chunks.None? && selected.Some?
    ensures s == SearchResults <==> chunks.None? && selected.None? && results.Some?
    ensures s == Search <==> chunks.None? && selected.None? && results.None?
  {
    if chunks.Some? then DocumentChat
    else if selected.Some? then DocumentSelectedNotLoaded
    else if results.Some? then SearchResults
    else Search
  }

  class DocAiExpertPageState {
    const stateKey: string
    const config: PageConfig
    const chatKey: string
    var defaultDatasetId: Option<string>
    var query: Option<string>
    /** `documents_result`: the chunks the retrieval returned. */
    var documentsResult: Option<seq<RagChunk>>
    var selectedDocument: Option<Document>
    var selectedChunks: Option<SelectedChunks>
    var chat: Option<ChatHandle>
    var similarityThreshold: real
    var vectorSimilarityWeight: real
    var topK: int

    constructor (key: string, config: PageConfig)
      ensures stateKey == key && this.config == config && chatKey == key + "-chat"
      ensures defaultDatasetId.None? && query.None? && documentsResult.None?
      ensures selectedDocument.None? && selectedChunks.None? && chat.None?
      ensures similarityThreshold == 0.0 && vectorSimilarityWeight == 0.3 && topK == 5
      ensures Status() == Search
    {
      stateKey := key;
      this.config := config;
      chatKey := key + "-chat";
      defaultDatasetId := None;
      query := None;
      documentsResult := None;
      selectedDocument := None;
      selectedChunks := None;
      chat := None;
      similarityThreshold := 0.0;
      vectorSimilarityWeight := 0.3;
      topK := 5;
    }

    function Status(): PageStatus
      reads this
    {
      StatusOf(selectedChunks, selectedDocument, documentsResult)
    }

    /** `reset`: the search, the selection, the chunks and the chat are forgotten; the search
        settings stay. */
    method Reset()
      modifies this
      ensures query.None? && documentsResult.None? && selectedDocument.None? && selectedChunks.None? && chat.None?
      ensures Status() == Search
      ensures similarityThreshold == old(similarityThreshold) && vectorSimilarityWeight == old(vectorSimilarityWeight)
      ensures topK == old(topK) && defaultDatasetId == old(defaultDatasetId)
    {
      query := None;
      documentsResult := None;
      selectedDocument := None;
      selectedChunks := None;
      chat := None;
    }

    /** `select_document_and_navigate`: after a reset the document is the only thing
        selected, so the page shows it as not yet loaded; the router goes to the page's URL. */
    method SelectDocumentAndNavigate(document: Document) returns (url: string)
      modifies this
      ensures selectedDocument == Some(document) && Status() == DocumentSelectedNotLoaded
      ensures query.None? && documentsResult.None? && selectedChunks.None? && chat.None?
      ensures url == config.pageUrl
      ensures topK == old(topK) && similarityThreshold == old(similarityThreshold)
      ensures vectorSimilarityWeight == old(vectorSimilarityWeight) && defaultDatasetId == old(defaultDatasetId)
    {
      Reset();
      selectedDocument := Some(document);
      url := config.pageUrl;
    }

    /** `set_documents_result`: the page shows the results unless a document is selected. */
    method SetDocumentsResult(result: seq<RagChunk>)
      modifies this
      ensures documentsResult == Some(result)
      ensures selectedDocument.None? && selectedChunks.None? ==> Status() == SearchResults
      ensures selectedDocument == old(selectedDocument) && selectedChunks == old(selectedChunks) && chat == old(chat)
      ensures query == old(query) && defaultDatasetId == old(defaultDatasetId)
      ensures similarityThreshold == old(similarityThreshold) && vectorSimilarityWeight == old(vectorSimilarityWeight) && topK == old(topK)
    {
      documentsResult := Some(result);
    }

    /** `set_selected_document_chunks`: loaded chunks open the chat view. */
    method SetSelectedDocumentChunks(chunks: SelectedChunks)
      modifies this
      ensures selectedChunks == Some(chunks) && Status() == DocumentChat
      ensures selectedDocument == old(selectedDocument) && documentsResult == old(documentsResult) && chat == old(chat)
      ensures query == old(query) && defaultDatasetId == old(defaultDatasetId)
      ensures similarityThreshold == old(similarityThreshold) && vectorSimilarityWeight == old(vectorSimilarityWeight) && topK == old(topK)
    {
      selectedChunks := Some(chunks);
    }

    /** `load_chat`: the chat is opened once, under the state's chat key, with the first
        system prompt given; later calls return it unchanged. */
    method LoadChat(systemPrompt: string) returns (c: ChatHandle)
      modifies this
      ensures old(chat).Some? ==> c == old(chat).value
      ensures old(chat).None? ==> c == ChatHandle(chatKey, systemPrompt)
      ensures chat == Some(c)
      ensures selectedDocument == old(selectedDocument) && selectedChunks == old(selectedChunks)
      ensures documentsResult == old(documentsResult) && query == old(query) && defaultDatasetId == old(defaultDatasetId)
      ensures similarityThreshold == old(similarityThreshold) && vectorSimilarityWeight == old(vectorSimilarityWeight) && topK == old(topK)
    {
      if chat.None? {
        chat := Some(ChatHandle(chatKey, systemPrompt));
      }
      c := chat.value;
    }
  }

  /** `st.session_state` as far as the page uses it. */
  class Session {
    var states: map<string, DocAiExpertPageState>

    constructor ()
      ensures states == map[]
    {
      states := map[];
    }

    /** `init`: the state stored under the key, or a new one stored there. */
    method Init(config: PageConfig, key: string) returns (state: DocAiExpertPageState)
      modifies this
      ensures key in old(states) ==> state == old(states)[key] && states == old(states)
      ensures key !in old(states) ==> fresh(state) && states == old(states)[key := state] && state.config == config &&
                                      state.stateKey == key && state.Status() == Search
      ensures GetInstance(key) == Some(state)
    {
      if key in states {
        return states[key];
      }
      state := new DocAiExpertPageState(key, config);
      states := states[key := state];
    }

    /** `get_instance`: the state stored under the key, if any. */
    function GetInstance(key: string): (r: Option<DocAiExpertPageState>)
      reads this
      ensures r.Some? <==> key in states
      ensures r.Some? ==> r.value == states[key]
    {
      if key in states then Some(states[key]) else None
    }
  }
}
