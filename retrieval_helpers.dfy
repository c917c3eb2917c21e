/**
  The retrieval-side helpers of the RAG pipeline: normalising a search query
  to a string, the query normalisation the fixed vector store applies before
  delegating to its backend, the string-only filter over split texts, and the
  joining of retrieved chunk texts into one context string.
*/
module RetrievalHelpers {
  import opened Wrappers

  // ---------------------------------------------------------------- queries

  /**
    A search query as it may reach the vector store: a string, a dictionary
    (its values restricted to strings in this model), or any other value.
  */
  datatype Query = Str(s: string) | Dict(entries: map<string, string>) | Other

  /** The `ValueError` raised for a query that is neither a string nor a dictionary. */
  datatype QueryError = UnsupportedQueryType

  const ContentKey: string := "content"

  /**
    `ensure_str_query`: a string is returned unchanged, a dictionary yields its
    "content" entry or "" when it has none, anything else is an error.
  */
  function EnsureStrQuery(q: Query): (r: Result<string, QueryError>)
    ensures r.Failure? <==> q.Other?
    ensures q.Str? ==> r == Success(q.s)
    ensures q.Dict? && ContentKey in q.entries ==> r == Success(q.entries[ContentKey])
    ensures q.Dict? && ContentKey !in q.entries ==> r == Success("")
  {
    match q
    case Str(s) => Success(s)
    case Dict(entries) => Success(if ContentKey in entries then entries[ContentKey] else "")
    case Other => Failure(UnsupportedQueryType)
  }

  /** A normalised query is a fixed point: normalising it again changes nothing. */
  lemma EnsureStrQueryIdempotent(q: Query)
    requires EnsureStrQuery(q).Success?
    ensures EnsureStrQuery(Str(EnsureStrQuery(q).value)) == EnsureStrQuery(q)
  {
  }

  /** A dictionary query holding a "content" entry normalises like the string stored there. */
  lemma DictQueryAsString(entries: map<string, string>)
    requires ContentKey in entries
    ensures EnsureStrQuery(Dict(entries)) == EnsureStrQuery(Str(entries[ContentKey]))
  {
  }

  // ------------------------------------------------------ the fixed store

  /** The number of results the overrides ask for when the caller gives none. */
  const DefaultK: int := 3

  /** The two search entry points of the fixed vector store. */
  datatype SearchKind = Plain | WithScore

  /**
    `ChromaFixed.similarity_search` and `similarity_search_with_score`: the
    query is normalised first (an unsupported query fails before the backend is
    reached) and the backend is called with the normalised query and with k,
    or 3 when no k is given.  The inherited search is the opaque `backend`.
  */
  function SimilaritySearch<R>(backend: (SearchKind, string, int) -> R, kind: SearchKind,
                               query: Query, k: Option<int>): (r: Result<R, QueryError>)
    ensures r.Failure? <==> query.Other?
    ensures r.Failure? ==> r.error == UnsupportedQueryType
    ensures r.Success? ==>
      r.value == backend(kind, EnsureStrQuery(query).value, if k.Some? then k.value else DefaultK)
  {
    match EnsureStrQuery(query)
    case Failure(e) => Failure(e)
    case Success(s) => Success(backend(kind, s, if k.Some? then k.value else DefaultK))
  }

  /**
    Whatever the backend does, a dictionary query with a "content" entry is
    searched exactly like the string it holds, and an omitted k is the same as k = 3.
  */
  lemma SimilaritySearchNormalises<R>(backend: (SearchKind, string, int) -> R, kind: SearchKind,
                                      entries: map<string, string>, k: Option<int>)
    requires ContentKey in entries
    ensures SimilaritySearch(backend, kind, Dict(entries), k) ==
            SimilaritySearch(backend, kind, Str(entries[ContentKey]), k)
    ensures SimilaritySearch(backend, kind, Dict(entries), None) ==
            SimilaritySearch(backend, kind, Dict(entries), Some(DefaultK))
  {
  }

  // --------------------------------------------------- string-only filter

  /** An element produced by the text splitter: a string, or any other value. */
  datatype Chunk = Text(text: string) | NonText

  /**
    The filter `[text for text in texts if isinstance(text, str)]`: keeps exactly
    the string elements, unchanged, and drops the rest.
  */
  function KeepTexts(xs: seq<Chunk>): (r: seq<Chunk>)
    ensures |r| <= |xs|
    ensures forall j :: 0 <= j < |r| ==> r[j].Text?
    ensures forall x :: x in r <==> x in xs && x.Text?
    ensures forall x :: multiset(r)[x] == if x.Text? then multiset(xs)[x] else 0
  {
    if |xs| == 0 then []
    else
      assert xs == [xs[0]] + xs[1..];
      if xs[0].Text? then [xs[0]] + KeepTexts(xs[1..])
      else KeepTexts(xs[1..])
  }

  /** The filter works element by element, so it keeps the relative order of what it keeps. */
  lemma {:induction false} KeepTextsAppend(a: seq<Chunk>, b: seq<Chunk>)
    ensures KeepTexts(a + b) == KeepTexts(a) + KeepTexts(b)
  {
    if |a| == 0 {
      assert a + b == b;
    } else {
      assert (a + b)[1..] == a[1..] + b;
      KeepTextsAppend(a[1..], b);
    }
  }

  /** When every element is a string, as the splitter promises, the filter is the identity. */
  lemma {:induction false} KeepTextsAllText(xs: seq<Chunk>)
    requires forall j :: 0 <= j < |xs| ==> xs[j].Text?
    ensures KeepTexts(xs) == xs
  {
    if |xs| > 0 {
      KeepTextsAllText(xs[1..]);
    }
  }

  /** Filtering twice is the same as filtering once. */
  lemma KeepTextsIdempotent(xs: seq<Chunk>)
    ensures KeepTexts(KeepTexts(xs)) == KeepTexts(xs)
  {
    KeepTextsAllText(KeepTexts(xs));
  }

  // ---------------------------------------------------------- format_docs

  /** A retrieved document; only its text is used. */
  datatype Document = Document(page_content: string)

  /** The separator between chunk texts in the context string. */
  const Separator: string := "\n\n"

  /** The texts of the documents, in order. */
  function Contents(docs: seq<Document>): (ps: seq<string>)
    ensures |ps| == |docs|
    ensures forall i :: 0 <= i < |docs| ==> ps[i] == docs[i].page_content
  {
    if |docs| == 0 then [] else [docs[0].page_content] + Contents(docs[1..])
  }

  /**
    `str.join` with the paragraph-break separator: no parts give "", one part is
    returned unchanged, and n >= 1 parts give a string as long as the parts
    together plus one separator between each pair of neighbours.
  */
  function Join(parts: seq<string>): (r: string)
    ensures |parts| == 0 ==> r == ""
    ensures |parts| == 1 ==> r == parts[0]
    ensures |parts| >= 1 ==> |r| == TotalLength(parts) + |Separator| * (|parts| - 1)
  {
    if |parts| == 0 then ""
    else if |parts| == 1 then parts[0]
    else parts[0] + Separator + Join(parts[1..])
  }

  /** `format_docs`: the documents' texts joined in order with "\n\n". */
  function FormatDocs(docs: seq<Document>): (r: string)
    ensures |docs| == 0 ==> r == ""
    ensures |docs| == 1 ==> r == docs[0].page_content
  {
    Join(Contents(docs))
  }

  /** Sum of the lengths of the parts. */
  function TotalLength(parts: seq<string>): nat
  {
    if |parts| == 0 then 0 else |parts[0]| + TotalLength(parts[1..])
  }

  /** Position of part i in the joined string: the earlier parts and one separator after each. */
  function Offset(parts: seq<string>, i: nat): nat
    requires i <= |parts|
  {
    TotalLength(parts[..i]) + |Separator| * i
  }

  /** Length of `format_docs`: total content length plus 2 per gap between documents. */
  lemma FormatDocsLength(docs: seq<Document>)
    requires |docs| >= 1
    ensures |FormatDocs(docs)| == TotalLength(Contents(docs)) + 2 * (|docs| - 1)
  {
  }

  /** Joining a concatenation puts one separator between the two joined halves. */
  lemma {:induction false} JoinAppend(a: seq<string>, b: seq<string>)
    requires |a| >= 1 && |b| >= 1
    ensures Join(a + b) == Join(a) + Separator + Join(b)
  {
    if |a| == 1 {
      assert (a + b)[1..] == b;
    } else {
      assert (a + b)[1..] == a[1..] + b;
      JoinAppend(a[1..], b);
    }
  }

  /** Unfolding the offset of a later part through the first part. */
  lemma OffsetStep(parts: seq<string>, i: nat)
    requires 1 <= i <= |parts|
    ensures Offset(parts, i) == |parts[0]| + |Separator| + Offset(parts[1..], i - 1)
  {
    assert parts[..i][1..] == parts[1..][..i - 1];
  }

  /**
    Every part appears in the joined string at its offset, unchanged, and every
    part but the last is followed by the separator: the join is lossless and in order.
  */
  lemma {:induction false} JoinAt(parts: seq<string>, i: nat)
    requires i < |parts|
    ensures Offset(parts, i) + |parts[i]| <= |Join(parts)|
    ensures Join(parts)[Offset(parts, i) .. Offset(parts, i) + |parts[i]|] == parts[i]
    ensures i + 1 < |parts| ==>
      Offset(parts, i) + |parts[i]| + |Separator| <= |Join(parts)| &&
      Join(parts)[Offset(parts, i) + |parts[i]| .. Offset(parts, i) + |parts[i]| + |Separator|] == Separator
  {
    if i == 0 {
      assert parts[..0] == [];
      if |parts| > 1 {
        assert Join(parts) == parts[0] + Separator + Join(parts[1..]);
      }
    } else {
      OffsetStep(parts, i);
      JoinAt(parts[1..], i - 1);
      var head := parts[0] + Separator;
      assert Join(parts) == head + Join(parts[1..]);
    }
  }

  /** Each document's text appears unchanged in `format_docs`, in document order. */
  lemma FormatDocsAt(docs: seq<Document>, i: nat)
    requires i < |docs|
    ensures var ps := Contents(docs);
      Offset(ps, i) + |docs[i].page_content| <= |FormatDocs(docs)| &&
      FormatDocs(docs)[Offset(ps, i) .. Offset(ps, i) + |docs[i].page_content|] == docs[i].page_content
  {
    JoinAt(Contents(docs), i);
  }

  /** Formatting two runs of documents joins their formatted texts with one separator. */
  lemma FormatDocsAppend(a: seq<Document>, b: seq<Document>)
    requires |a| >= 1 && |b| >= 1
    ensures FormatDocs(a + b) == FormatDocs(a) + Separator + FormatDocs(b)
  {
    assert Contents(a + b) == Contents(a) + Contents(b);
    JoinAppend(Contents(a), Contents(b));
  }
}
