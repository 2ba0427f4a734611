/**
  The documents page: the list of saved documents narrowed by a
  case-insensitive search on title or client and by a document-type filter,
  and the "No documents found" state.
 */
module Documents {
  import opened Text
  import opened Kinds
  import opened Sequences

  datatype Status = Draft | Sent | Approved

  datatype Document = Document(
    id: int,
    title: string,
    kind: DocumentType,
    client: string,
    createdAt: string,
    status: Status)

  /** The type filter buttons: "all" or one document type. */
  datatype TypeFilter = All | Only(kind: DocumentType)

  /** The documents the page lists. */
  const MockDocuments: seq<Document> := [
    Document(1, "Website Redesign Proposal", Proposal, "Acme Corporation", "2025-01-15", Sent),
    Document(2, "Q1 Project Estimate", Estimate, "TechStart Inc", "2025-01-14", Draft),
    Document(3, "Follow-up Email", Email, "Design Studio", "2025-01-13", Sent),
    Document(4, "Mobile App Development Proposal", Proposal, "Global Media", "2025-01-12", Approved),
    Document(5, "Branding Package Estimate", Estimate, "Acme Corporation", "2025-01-10", Draft)
  ]

  /** The lowercased title or the lowercased client includes the lowercased query. */
  predicate MatchesSearch(doc: Document, query: string) {
    || Includes(ToLower(doc.title), ToLower(query))
    || Includes(ToLower(doc.client), ToLower(query))
  }

  predicate MatchesType(doc: Document, filter: TypeFilter) {
    filter.All? || doc.kind == filter.kind
  }

  predicate Kept(doc: Document, query: string, filter: TypeFilter) {
    MatchesSearch(doc, query) && MatchesType(doc, filter)
  }

  /** `filteredDocuments`: the documents that match both the search and the
      type filter, in their original order and with their multiplicities. */
  function FilterDocuments(docs: seq<Document>, query: string, filter: TypeFilter): (shown: seq<Document>)
    ensures IsSubsequence(shown, docs)
    ensures forall d :: d in shown <==> d in docs && MatchesSearch(d, query) && MatchesType(d, filter)
    ensures forall d :: multiset(shown)[d] == if Kept(d, query, filter) then multiset(docs)[d] else 0
    ensures filter.Only? ==> forall i :: 0 <= i < |shown| ==> shown[i].kind == filter.kind
  {
    Filter(d => Kept(d, query, filter), docs)
  }

  /** The page shows "No documents found" when the filtered list is empty,
      that is, exactly when no document passes both the search and the type
      filter. */
  predicate NoDocumentsFound(docs: seq<Document>, query: string, filter: TypeFilter): (none: bool)
    ensures none <==>
      forall i :: 0 <= i < |docs| ==> !(MatchesSearch(docs[i], query) && MatchesType(docs[i], filter))
  {
    FilterEmptyIff(d => Kept(d, query, filter), docs);
    |FilterDocuments(docs, query, filter)| == 0
  }

  /** With an empty query and the "all" filter every document is listed. */
  lemma EmptySearchKeepsAll(docs: seq<Document>)
    ensures FilterDocuments(docs, "", All) == docs
  {
    forall i | 0 <= i < |docs|
      ensures Kept(docs[i], "", All)
    {
      IncludesEmpty(ToLower(docs[i].title));
    }
    FilterKeepsAll(d => Kept(d, "", All), docs);
  }

  /** Filtering by one type lists exactly the documents of that type among the
      ones "all" lists for the same query, so it lists an order-preserving part
      of them. */
  lemma OnlyRefinesAll(docs: seq<Document>, query: string, t: DocumentType)
    ensures FilterDocuments(docs, query, Only(t)) == Filter((d: Document) => d.kind == t, FilterDocuments(docs, query, All))
    ensures IsSubsequence(FilterDocuments(docs, query, Only(t)), FilterDocuments(docs, query, All))
  {
    FilterCompose(d => Kept(d, query, All), (d: Document) => d.kind == t, d => Kept(d, query, Only(t)), docs);
  }

  /** The search ignores letter case in the query: a query and its lowercase
      form list the same documents. */
  lemma SearchIgnoresQueryCase(docs: seq<Document>, query: string, filter: TypeFilter)
    ensures FilterDocuments(docs, ToLower(query), filter) == FilterDocuments(docs, query, filter)
  {
    ToLowerIdempotent(query);
    FilterSameTest(d => Kept(d, ToLower(query), filter), d => Kept(d, query, filter), docs);
  }

  /** The test the type filter applies for one type. */
  function OfKind(t: DocumentType): Document -> bool {
    (d: Document) => d.kind == t
  }

  /** With an empty query, a type filter lists exactly the documents of that
      type. */
  lemma EmptySearchByType(docs: seq<Document>, t: DocumentType)
    ensures FilterDocuments(docs, "", Only(t)) == Filter(OfKind(t), docs)
  {
    OnlyRefinesAll(docs, "", t);
    EmptySearchKeepsAll(docs);
    FilterSameTest(OfKind(t), (d: Document) => d.kind == t, FilterDocuments(docs, "", All));
  }

  /** When the page opens (empty query, "all" filter) it lists its own five
      documents, so "No documents found" is not shown. */
  lemma MockDocumentsShown()
    ensures FilterDocuments(MockDocuments, "", All) == MockDocuments
    ensures |FilterDocuments(MockDocuments, "", All)| == 5
  {
    EmptySearchKeepsAll(MockDocuments);
  }
}
