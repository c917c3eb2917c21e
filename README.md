# Chat-message adapter and retrieval helpers of a RAG fortune-telling chatbot

This project models, in Dafny, the small part of the chatbot's server code that is
its own logic rather than calls into web, vector-store or language-model frameworks:

- **Chat-message adapter** (`server.py`, module `ChatAdapter`). A chat message is one
  of three kinds, `Human`, `AI` or `System`, each carrying a content string.
  `message_to_dict` flattens it into a `{type, content}` record; `dict_to_message`
  rebuilds a message from a record by exact, case-sensitive match of the type tag
  against `"human"`, `"ai"` and `"system"`, and raises `ValueError` for any other tag
  (modelled as `Failure(UnknownMessageType(tag))`). `process_input_chat` maps the round
  trip over a conversation; the model proves it never fails and returns the same kinds and
  contents, in order.
  Converting a list of records aborts at the first record with an unknown tag and
  reports that record's tag.
- **Retrieval helpers** (`Model.py`, module `RetrievalHelpers`). `ensure_str_query`
  normalises a query that is a string or a dictionary (taking its `"content"` entry,
  or `""`) and rejects anything else. The two `ChromaFixed` search overrides normalise
  the query and call the inherited search with k defaulting to 3; the inherited search
  is an opaque function parameter. The filter at line 32 keeps only the string elements
  of the split texts. `format_docs` joins the retrieved documents' texts with `"\n\n"`;
  the model proves its length and that every document's text sits unchanged, in order,
  at a known offset.

Module `Wrappers` holds the `Result` and `Option` datatypes used for the error paths and
for the optional `k`.

Modelling assumptions:
- The chat library's message classes report `.type` as exactly `"human"`, `"ai"` and
  `"system"` (`ChatAdapter.TypeTag`).
- Dictionary queries map strings to strings. In the source `dict.get` may return a
  value of any type; the model does not cover that case.

## Model

| member | source | states |
|---|---|---|
| `ChatAdapter.TypeTag` | server.py:39 | each kind reports one of the three recognised tags, and different kinds report different tags |
| `ChatAdapter.MessageToDict` | server.py:36-41 | the record's tag is the message's own type tag (so a recognised one) and its content is the message content unchanged |
| `ChatAdapter.DictToMessage` | server.py:44-54 | succeeds exactly when the tag is `"human"`, `"ai"` or `"system"`; the result has that tag's kind and the record's content; any other tag fails with an unknown-type error naming the tag |
| `ChatAdapter.MessageRoundTrip` | server.py:36-54 | rebuilding a flattened message gives back the same kind and content |
| `ChatAdapter.RecordRoundTrip` | server.py:36-54 | flattening the message rebuilt from an accepted record gives back that record |
| `ChatAdapter.TagIsCaseSensitive` | server.py:47-54 | `"Human"`, `"HUMAN"`, `"AI"`, `"System"`, `"bot"` and `"user"` are all rejected; there is no default kind and no case folding |
| `ChatAdapter.ToRecords` | server.py:59 | the records of a conversation have its length and record i is message i flattened |
| `ChatAdapter.FromRecords` | server.py:59 | converting records succeeds exactly when every tag is recognised, then element i is record i's message; otherwise it fails with the error of the first record whose tag is unknown |
| `ChatAdapter.RecordsRoundTrip` | server.py:44-59 | a list of accepted records, converted and flattened, is the same list |
| `ChatAdapter.ConversationRoundTrip` | server.py:57-59 | flattening and rebuilding a conversation never fails and returns the same kinds and contents, in order |
| `ChatAdapter.ProcessInputChat` | server.py:57-59 | the processed conversation is a success with the input's length, order, kinds and contents |
| `RetrievalHelpers.EnsureStrQuery` | Model.py:59-66 | a string query is returned unchanged; a dictionary yields its `"content"` entry or `""` when absent; any other query fails, and only those fail |
| `RetrievalHelpers.EnsureStrQueryIdempotent` | Model.py:59-66 | normalising an already normalised query changes nothing |
| `RetrievalHelpers.DictQueryAsString` | Model.py:62-64 | a dictionary query holding `"content"` normalises like the string stored under that key |
| `RetrievalHelpers.SimilaritySearch` | Model.py:69-76 | both overrides fail exactly on an unsupported query; otherwise they return the backend's answer for the normalised query and for k, or 3 when k is omitted |
| `RetrievalHelpers.SimilaritySearchNormalises` | Model.py:70-76 | for any backend, a dictionary query is searched exactly like the string it holds, and omitting k equals passing 3 |
| `RetrievalHelpers.KeepTexts` | Model.py:32 | keeps exactly the string elements of the input, each as often as it occurs there, drops every other element, and returns no more elements than it got |
| `RetrievalHelpers.KeepTextsAppend` | Model.py:32 | the filter distributes over concatenation, so kept elements stay in their relative order |
| `RetrievalHelpers.KeepTextsAllText` | Model.py:32 | on an all-string list the filter returns the list unchanged |
| `RetrievalHelpers.KeepTextsIdempotent` | Model.py:32 | filtering a filtered list changes nothing |
| `RetrievalHelpers.Contents` | Model.py:95 | the texts of the documents have the documents' length, text i is document i's `page_content` |
| `RetrievalHelpers.FormatDocs` | Model.py:94-95 | no documents give `""`; one document gives its text unchanged |
| `RetrievalHelpers.Join` | Model.py:95 | the `"\n\n"` join: no parts give `""`, one part is returned unchanged, n >= 1 parts give a string as long as the parts together plus 2(n-1); with `JoinAt` this fixes every character |
| `RetrievalHelpers.FormatDocsLength` | Model.py:94-95 | the context string's length is the sum of the document text lengths plus 2(n-1) for n >= 1 documents |
| `RetrievalHelpers.JoinAppend` | Model.py:95 | joining a concatenation of two non-empty lists is the two joins with one `"\n\n"` between them |
| `RetrievalHelpers.JoinAt` | Model.py:95 | part i appears unchanged at offset (lengths of the earlier parts + 2i), followed by `"\n\n"` unless it is the last part |
| `RetrievalHelpers.FormatDocsAt` | Model.py:94-95 | each document's text appears unchanged in the context string at its offset, in document order |
| `RetrievalHelpers.FormatDocsAppend` | Model.py:94-95 | formatting two non-empty runs of documents joins their formatted texts with one `"\n\n"` |

## Left out

- PDF text extraction (Model.py:14-25): directory listing and PDF reading are file I/O.
- Text splitting (Model.py:28-29): chunk size 500 and overlap 100 are enforced by the splitting library, not by this code, so no chunk-length or overlap property is claimed.
- Embeddings, the FAISS and Chroma index construction, persistence and the similarity search itself (Model.py:37-84): library calls, disk I/O and floating-point similarity; the inherited search is an opaque parameter of `RetrievalHelpers.SimilaritySearch`, and nothing is claimed about retrieval order or determinism.
- The extra keyword arguments of the two search overrides (Model.py:70-76): they are passed through untouched to the inherited search and are not modelled.
- The language model, the prompt template and the pipeline composition (Model.py:83-103): external inference and library operators.
- The web application, CORS setup, the redirect route, route registration and server start-up (server.py:10-25, 62-74): HTTP framework wiring. `process_input_chat` is not registered on the chat route in the source; it is modelled as the conversion it states.
- `RetrievalHelpers.EnsureStrQuery`: dictionary values are strings in the model; a non-string value under `"content"`, which the source would return as is, is not covered.
- `ChatAdapter.ProcessInputChat`: a message is its kind and a string content only. The source rebuilds each message from `type` and `content` alone, so attributes such as `name`, `id`, `additional_kwargs`, `response_metadata` and an AI message's `tool_calls` are dropped; list-valued content is not modelled. The model's "same kinds and contents" is all that is preserved.
- `ChatAdapter.DictToMessage`: a dictionary missing `type`, or missing `content` under one of the tags `"human"`, `"ai"` or `"system"`, raises `KeyError`; the model's records always carry both fields, so this is not modelled. A dictionary with an unknown tag and no `content` raises the unknown-type error, as the model does.
- The user interface, the translation chain and the calendrical chart (Chat_UI.py, Chat_Demo.py, translate.py): UI, network calls and prompt text; `calculate_bazi` is not part of this model.
