/**
 * Answering a question from retrieved passages, shared by both backends: the page contents
 * of the results, in rank order, are joined with single spaces into one document, and the
 * question-answering chain is called once with that document. When nothing was retrieved
 * the chain is not called and the answer is undefined.
 */
module Retrieval {
  import opened Wrappers
  import opened Strings
  import opened Documents

  /** The arguments of one `chain.call({ input_documents, question })`. */
  datatype ChainCall = ChainCall(inputDocuments: seq<Document>, question: string)

  /**
   * LangChain's `StuffDocumentsChain`. What the language model answers is a parameter; the
   * chain keeps the log of its calls so that the number of calls can be stated.
   */
  class StuffDocumentsChain {
    const answer: (seq<Document>, string) -> string
    var calls: seq<ChainCall>

    constructor (answer: (seq<Document>, string) -> string)
      ensures this.answer == answer && calls == []
    {
      this.answer := answer;
      calls := [];
    }

    /** `chain.call(...)`, returning `result.text`. */
    method Call(inputDocuments: seq<Document>, question: string) returns (text: string)
      modifies this
      ensures calls == old(calls) + [ChainCall(inputDocuments, question)]
      ensures text == answer(inputDocuments, question)
    {
      calls := calls + [ChainCall(inputDocuments, question)];
      text := answer(inputDocuments, question);
    }
  }

  /** The single context document built from retrieved contents, or None when there are none. */
  function StuffedContext(contents: seq<string>): (d: Option<Document>)
    ensures d.None? <==> contents == []
    ensures d.Some? ==> d.value.metadata == map[]
  {
    if contents == [] then None else Some(Document(Join(contents, " "), map[]))
  }

  /** The `pageContent` of each retrieved document, in rank order. */
  function PageContents(docs: seq<Document>): (contents: seq<string>)
    ensures |contents| == |docs|
    ensures forall i :: 0 <= i < |docs| ==> contents[i] == docs[i].pageContent
  {
    seq(|docs|, i requires 0 <= i < |docs| => docs[i].pageContent)
  }

  /**
   * The context is lossless and keeps rank order: when no passage contains a space, splitting
   * the context on spaces gives the passages back, one for one.
   */
  lemma StuffedContextRoundTrip(contents: seq<string>)
    requires contents != []
    requires forall k :: 0 <= k < |contents| ==> ' ' !in contents[k]
    ensures Split(StuffedContext(contents).value.pageContent, ' ') == contents
  {
    assert " " == [' '];
    SplitJoin(contents, ' ');
  }

  /** The context holds every passage and one space between neighbours, nothing more. */
  lemma StuffedContextLength(contents: seq<string>)
    requires contents != []
    ensures |StuffedContext(contents).value.pageContent| == TotalLength(contents) + |contents| - 1
  {
    JoinLength(contents, " ");
  }

  /**
   * The common tail of both `query` methods: with no contents, no chain call and no answer;
   * otherwise exactly one chain call with the single stuffed document, and its text returned.
   */
  method Answer(chain: StuffDocumentsChain, contents: seq<string>, question: string) returns (answer: Option<string>)
    modifies chain
    ensures contents == [] ==> answer == None && chain.calls == old(chain.calls)
    ensures contents != [] ==>
              var doc := Document(Join(contents, " "), map[]);
              && StuffedContext(contents) == Some(doc)
              && chain.calls == old(chain.calls) + [ChainCall([doc], question)]
              && answer == Some(chain.answer([doc], question))
  {
    var context := StuffedContext(contents);
    match context {
      case None =>
        answer := None;
      case Some(doc) =>
        var text := chain.Call([doc], question);
        answer := Some(text);
    }
  }
}
