/** The body of the `search_food_pairings` tool (tools.py): the pairing
    retriever's documents become one text block, and neither an empty
    retrieval nor a retriever exception leaves the tool. */
module Tools {
  import opened Wrappers
  import opened Text

  // Two texts are written in pieces, so that the proof of
  // `AnswerKindRecoverable` can read their first character off a short literal.
  const NoPairingFound := "No pertinent pairing found " + "in the book for the query."
  const PairingHeader := "Results from the book of flavours:\n"
  const DocumentSeparator := "\n---\n"
  const PairingErrorPrefix := "Error found during the research " + "for the pairings in the book: "

  /** `search_food_pairings(query)` once the retriever has been invoked on
      `query`: `retrieved` holds the `page_content` of each document it
      returned, in retrieval order, or the exception it raised. */
  function SearchFoodPairings(retrieved: Call<seq<string>>): (r: string)
    ensures r != []
    ensures retrieved == Returned([]) ==> r == NoPairingFound
    ensures retrieved.Returned? && retrieved.value != [] ==>
              StartsWith(r, PairingHeader) && r[|PairingHeader|..] == Join(retrieved.value, DocumentSeparator)
    ensures retrieved.Raised? ==> StartsWith(r, PairingErrorPrefix) && r[|PairingErrorPrefix|..] == retrieved.message
  {
    match retrieved
    case Raised(e) => PairingErrorPrefix + e
    case Returned(docs) =>
      if docs == [] then NoPairingFound
      else PairingHeader + Join(docs, DocumentSeparator)
  }

  /** The three kinds of answer the tool gives. */
  datatype PairingAnswer = NothingFound | Found | RetrieverFailed

  /** The kind of answer a caller can read off the tool's text. */
  function AnswerKind(r: string): PairingAnswer
    requires r != []
  {
    if r[0] == 'N' then NothingFound else if r[0] == 'R' then Found else RetrieverFailed
  }

  /** The three kinds of answer start with different letters, so the text
      tells which one happened even though all travel as an ordinary return
      value: a caller need not take a non-empty answer for a success. */
  lemma {:induction false} AnswerKindRecoverable(retrieved: Call<seq<string>>)
    ensures AnswerKind(SearchFoodPairings(retrieved)) ==
            match retrieved
            case Raised(_) => RetrieverFailed
            case Returned(docs) => if docs == [] then NothingFound else Found
  {
    var r := SearchFoodPairings(retrieved);
    match retrieved
    case Raised(e) =>
      assert r[0] == PairingErrorPrefix[0] == 'E';
    case Returned(docs) =>
      if docs != [] {
        assert r[0] == PairingHeader[0] == 'R';
      }
  }

  /** A further document is appended after the separator: documents keep
      their retrieval order. */
  lemma {:induction false} DocumentsInRetrievalOrder(docs: seq<string>, doc: string)
    requires docs != []
    ensures SearchFoodPairings(Returned(docs + [doc])) ==
            SearchFoodPairings(Returned(docs)) + DocumentSeparator + doc
  {
    JoinSnoc(docs, doc, DocumentSeparator);
  }
}
