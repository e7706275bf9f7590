/**
 * The question-answering chain: a root retriever over the registered
 * hospitals, the retrieved documents' page contents joined into the prompt's
 * context, and the language model's answer. The model is a parameter.
 */
module Pipeline {
  import opened Values
  import opened FederatedRetriever

  /** `SEARCH_KWARGS`: ten documents from each search of twenty candidates. */
  const SEARCH_KWARGS: SearchKwargs := SearchKwargs(10, Some(20), None, None)

  /** `SEARCH_KWARGS | {"secure": secure}` */
  function RootSearchKwargs(secure: bool): (kw: SearchKwargs)
    ensures kw.k == 10 && kw.fetchK == Some(20) && kw.filters.None?
    ensures IsSecure(kw) == secure
  {
    SEARCH_KWARGS.(secure := Some(secure))
  }

  /** The prompt template around `{context}` and after `{question}`. */
  const PROMPT_HEAD: string := "You are an assistant for clinical question answering. Read the following clinical note excerpts:\n           "
  const PROMPT_MIDDLE: string :=
    "\n\n           The above notes may not all be relevant. If no notes were provided, or there is insufficient information to answer, please say so without stating false information.\n           Please answer in your own words, providing evidence from the relevant notes: "

  /** The template filled in: the content of the chat's one human message. */
  function Prompt(context: string, question: string): (p: string)
    ensures |p| == |PROMPT_HEAD| + |context| + |PROMPT_MIDDLE| + |question|
    ensures OccursAt(context, p, |PROMPT_HEAD|)
    ensures p[|p| - |question|..] == question
  {
    var p := PROMPT_HEAD + context + PROMPT_MIDDLE + question;
    assert p[|PROMPT_HEAD|..|PROMPT_HEAD| + |context|] == context;
    p
  }

  /** The role label `ChatPromptTemplate.format` puts before the one human message it renders. */
  const HUMAN_PREFIX: string := "Human: "

  /** `PROMPT.format(context=..., question=...)`: the chat messages rendered as one string. */
  function RenderedPrompt(context: string, question: string): (p: string)
    ensures |p| == |HUMAN_PREFIX| + |Prompt(context, question)|
    ensures p[..|HUMAN_PREFIX|] == HUMAN_PREFIX
    ensures p[|HUMAN_PREFIX|..] == Prompt(context, question)
  {
    HUMAN_PREFIX + Prompt(context, question)
  }

  function PageContents(docs: seq<Scored>): (pages: seq<string>)
    ensures |pages| == |docs|
    ensures forall i :: 0 <= i < |docs| ==> pages[i] == docs[i].doc.pageContent
  {
    seq(|docs|, i requires 0 <= i < |docs| => docs[i].doc.pageContent)
  }

  /** `format_docs`: the page contents, separated by a blank line. */
  function FormatDocs(docs: seq<Scored>): string {
    Join("\n\n", PageContents(docs))
  }

  /** The context shows every retrieved document's page content. */
  lemma FormatDocsShowsEveryDoc(docs: seq<Scored>, i: int)
    requires 0 <= i < |docs|
    ensures Contains(FormatDocs(docs), docs[i].doc.pageContent)
  {
    JoinContains("\n\n", PageContents(docs), i);
  }

  /** So does the filled template, which also ends with the question. */
  lemma MessageShowsEveryDoc(docs: seq<Scored>, question: string, i: int)
    requires 0 <= i < |docs|
    ensures Contains(Prompt(FormatDocs(docs), question), docs[i].doc.pageContent)
  {
    FormatDocsShowsEveryDoc(docs, i);
    ContainsWithin(FormatDocs(docs), docs[i].doc.pageContent, PROMPT_HEAD, PROMPT_MIDDLE + question);
    assert PROMPT_HEAD + FormatDocs(docs) + (PROMPT_MIDDLE + question) == Prompt(FormatDocs(docs), question);
  }

  /** And so does the rendered prompt the chain returns. */
  lemma PromptShowsEveryDoc(docs: seq<Scored>, question: string, i: int)
    requires 0 <= i < |docs|
    ensures Contains(RenderedPrompt(FormatDocs(docs), question), docs[i].doc.pageContent)
  {
    var message := Prompt(FormatDocs(docs), question);
    MessageShowsEveryDoc(docs, question, i);
    ContainsWithin(message, docs[i].doc.pageContent, HUMAN_PREFIX, "");
    assert HUMAN_PREFIX + message + "" == RenderedPrompt(FormatDocs(docs), question);
  }

  /** Without documents the context is empty. */
  lemma NoDocsEmptyContext()
    ensures FormatDocs([]) == ""
  {
  }

  // ---------------------------------------------------------------------------
  // The chain

  /** The language model with the string output parser: the human message's content to the answer. */
  type Llm = string -> string

  /** What the chain returns for a question. */
  datatype ChainOutput = ChainOutput(answer: string, documents: seq<Scored>, prompt: string)

  /** `create_rag_chain_with_source`: the root retriever it wires in. */
  method CreateRagChainWithSource(userinfo: Attrs, hospitalRetrieveUris: seq<string>, secure: bool)
    returns (root: RootRetriever)
    ensures fresh(root)
    ensures root.hospitalRetrieveUris == hospitalRetrieveUris && root.userinfo == userinfo
    ensures root.searchKwargs == RootSearchKwargs(secure)
  {
    root := new RootRetriever(hospitalRetrieveUris, userinfo, RootSearchKwargs(secure));
  }

  /**
   * Invoking the chain on a question: the root retriever's documents, the
   * rendered prompt built from them and the question, and the model's answer
   * to the filled template; a failing retrieval fails the chain.
   */
  method Invoke(root: RootRetriever, question: string, ner: Ner, peers: Peers, order: seq<nat>, llm: Llm)
    returns (r: Result<ChainOutput, RootError>)
    requires IsPermutation(order, |root.hospitalRetrieveUris|)
    modifies root
    ensures root.searchKwargs == old(root.searchKwargs).(filters := Some(NameFilters(PersonNames(ner(question)))))
    ensures var retrieved := RootResult(FetchAll(root.hospitalRetrieveUris, Params(question, root.userinfo, root.searchKwargs), peers),
                                        order, root.searchKwargs.k);
      && (retrieved.Err? ==> r == Err(retrieved.error))
      && (retrieved.Ok? ==> r.Ok? && r.value.documents == retrieved.value)
    ensures r.Ok? ==> r.value.prompt == RenderedPrompt(FormatDocs(r.value.documents), question)
    ensures r.Ok? ==> r.value.answer == llm(Prompt(FormatDocs(r.value.documents), question))
    ensures r.Ok? ==> forall i :: 0 <= i < |r.value.documents| ==>
      Contains(r.value.prompt, r.value.documents[i].doc.pageContent)
  {
    var documents := root.GetRelevantDocuments(question, ner, peers, order);
    if documents.Err? {
      return Err(documents.error);
    }
    var docs := documents.value;
    var message := Prompt(FormatDocs(docs), question);
    var prompt := RenderedPrompt(FormatDocs(docs), question);
    forall i | 0 <= i < |docs|
      ensures Contains(prompt, docs[i].doc.pageContent)
    {
      PromptShowsEveryDoc(docs, question, i);
    }
    return Ok(ChainOutput(llm(message), docs, prompt));
  }
}
