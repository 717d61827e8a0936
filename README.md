# Word-lookup service: a Dafny model

The service answers "what are the translations, definitions, synonyms and examples of
word W?" It keeps its answers in a document collection used as a cache. The model covers
its decision logic:

- **Lookup** (`GET /words/{word}`) is a cache-aside lookup. The lower-cased word is the
  only key. A stored document is validated and returned. On a miss the record is fetched
  from the translation provider, inserted, read back and returned.
- **Listing** (`GET /words/`) computes `skip` from page and limit. It builds a projection
  and a filter, takes a skip/limit window over the collection in natural order, and
  reshapes each row into an object holding `word` plus exactly the flagged fields.
- **Delete** (`DELETE /words/{word}`) removes the first document whose `word` is the
  lower-cased word. When nothing was removed it answers 404.
- **Record construction** turns the provider's JSON answer into a `WordInfo`. The
  definitions/synonyms/examples provider is a stub that always returns `None`.

Modules, one per source file plus the collaborators:

- `Wrappers`, `Errors`: `Option`, `Result` and the error kinds (provider error, JSON
  shape error, validation error, `KeyError`, not found).
- `Text`: ASCII `lower()` and the substring test that stands for the `$regex` match.
- `Schemas` (app/schemas.py): the `WordInfo` datatype, stored documents as
  `map<string, Value>`, `model_dump` (`Dump`) and `WordInfo(**row)` (`FromRow`).
- `Store`: the collection as a sequence of documents in natural order. It gives the
  meaning of `find_one`, `insert_one` (append), `delete_one`, and of
  `find(filter, projection).skip().limit()`.
- `Utils` (app/utils.py): the provider is a total function from (word, target, source) to
  `Answered(json)` or `HttpFailure(status)`. The module parses the JSON and builds the
  record. `ParseWordsExtraction` is the shaping loop, as a method with loop invariants.
- `Main` (app/main.py): the class `WordService` owns the mutable `store` and the injected
  `provider`, plus a ghost counter of provider calls. Its three handler methods are proved
  equal to the specification functions `Resolve` and `Deletion`, or, for the listing,
  to a window of `Listed`.
- `MainProperties`: what the handlers promise, as lemmas over `Resolve`, `Deletion` and
  the listing window.

What the code does, as the model follows it:

- The model's `insert_one` always appends; no unique index on `word` is assumed.
  Uniqueness of words therefore holds only because insertion happens on a miss.
  `ResolveKeepsUnique` proves it.
- On a miss, the code returns the document it read back, and the response model
  validates it. The model applies the same `FromRow` validation as on a hit.
- The schema does not require `word` to be lower-case or non-empty. Lower-casing happens
  in the handlers.

## Model

| member | source | states |
|---|---|---|
| `Text.Lower` | app/main.py:30 | lower-casing keeps the length and maps each character to its (ASCII) lower-case form |
| `Text.LowerIsLower` | app/main.py:30 | a lower-cased string has no upper-case letter |
| `Text.LowerOfLower` | app/main.py:30 | a string with no upper-case letter is its own lower-case form |
| `Text.LowerIdempotent` | app/main.py:84 | lower-casing twice equals lower-casing once, so every normalised key is a fixed point |
| `Text.ContainsAtOffset` | app/main.py:69 | the substring test used for the query match holds exactly when the pattern occurs at some offset |
| `Schemas.Dump` | app/main.py:36 | the dumped document has exactly the five fields minus the excluded names, each holding the record's value |
| `Schemas.ListField` | app/schemas.py:15-18 | an optional list field validates exactly when present and `null` or a string list, and gives that value back |
| `Schemas.FromRow` | app/main.py:33 | `WordInfo(**row)` succeeds exactly when all five fields are present and well typed; otherwise it is a validation error; on success each field of the row equals the record's dumped value |
| `Schemas.DumpRoundTrip` | app/schemas.py:14-18 | dumping with an exclusion that names no field and validating again gives the same record |
| `Store.FindIndex` | app/main.py:31 | the position found is the first document whose `word` is the key; none is found exactly when no document matches |
| `Store.FindOne` | app/main.py:31 | `find_one` returns the first matching document in natural order, and nothing exactly when no document matches |
| `Store.DeleteOne` | app/main.py:85-86 | `delete_one` deletes at most one document, deletes none exactly when nothing matches, and the sizes add up |
| `Store.Holds` | app/main.py:69 | a `$regex` condition matches only a string field, and it matches exactly when the pattern occurs in it at some offset, after lower-casing both sides under option `i` |
| `Store.Select` | app/main.py:71 | a document is selected exactly when it is in the collection and satisfies the filter |
| `Store.Window` | app/main.py:71-72 | skip/limit returns at most `limit` rows, namely the rows at offsets `skip` to `skip+limit-1` that exist, in order |
| `Store.Project` | app/main.py:71 | a projected row keeps exactly the projected keys the row has, with unchanged values |
| `Store.Find` | app/main.py:71-72 | the query returns at most `limit` rows: the window of the selected rows, each projected |
| `Store.FindIndexAppend` | app/main.py:36-37 | after appending a matching document to a collection without a match, `find_one` finds the appended one |
| `Store.AppendKeepsUnique` | app/main.py:31-37 | appending a document whose word is absent keeps words unique |
| `Store.DeleteOneRemovesFirstMatch` | app/main.py:85 | delete removes exactly one matching document, the first one, and keeps all others in order (as a multiset as well); with no match nothing changes |
| `Store.DeleteOneKeepsUnique` | app/main.py:85 | delete keeps words unique and, when they are unique, leaves no document with the deleted word |
| `Utils.TranslatedItems` | app/utils.py:38 | the comprehension succeeds exactly when every element is an object, and yields one entry per element, in order, its `translatedText` or `None` |
| `Utils.TranslationsList` | app/utils.py:37-38 | a list is mapped element by element; an empty string or object yields no entries; anything else fails |
| `Utils.TranslatedTexts` | app/utils.py:37-38 | a body that is not an object fails; a missing `data` or a missing `translations` yields the empty list; a `data` that is not an object fails |
| `Utils.TranslateText` | app/utils.py:22-40 | a provider error is reported exactly when the HTTP call failed, and carries its status; every other failure is a body of the wrong shape; a success comes only from an answer, and an answer's result is the parse of its body by `TranslatedTexts` |
| `Utils.DefinitionsSynonymsExamples` | app/utils.py:43-47 | the stub finds no definitions, no synonyms and no examples |
| `Utils.Strings` | app/utils.py:13-15 | the `list[str]` validation succeeds exactly when every element is a string, and keeps them in order |
| `Utils.FetchAndParse` | app/utils.py:7-19 | a fetch failure propagates unchanged; success exactly when the translations are strings, otherwise a validation error; the record's word is the input word, its translations are the provider's in order, and the other three fields are `None` |
| `Utils.RequestedFields` | app/utils.py:57-63 | the output fields start with `word`, never include `translations`, include each optional field exactly when its flag is set, and have no repeats |
| `Utils.ParseWordsExtraction` | app/utils.py:50-66 | succeeds exactly when every row holds the flagged fields; otherwise a `KeyError` on a requested field; on success one object per row, in order, with exactly the requested fields, in order, copied from the row |
| `Main.Resolve` | app/main.py:26-37 | at most one provider call, and one exactly on a miss; a hit leaves the collection unchanged; the collection either stays the same or gains one document at its end; a provider error inserts nothing |
| `Main.Deletion` | app/main.py:80-89 | not found exactly when no document has the lower-cased word, and then the collection is unchanged; otherwise "word deleted", with the collection missing exactly the first matching document and nothing else |
| `Main.Projection` | app/main.py:59-65 | the projection always has `word`, never `translations`, has each optional field exactly when its flag is set, all with value 1 |
| `Main.Listed` | app/main.py:67-69 | a document is listed exactly when it is in the collection and admitted by the query |
| `Main.FilterCondition` | app/main.py:67-69 | the filter is empty without a (non-empty) query, otherwise a case-insensitive regex on `word`, and it admits exactly the documents the query admits |
| `Main.SelectIsListed` | app/main.py:67-71 | the store's selection under that filter is the listed sequence, in order |
| `Main.ShapedThroughProjection` | app/main.py:71-73 | projecting on the requested fields changes neither whether a row has them nor how its output object looks |
| `Main.ListingRows` | app/main.py:71-73 | the rows the store returns carry the requested fields exactly when the listed window does, and shape into the same objects |
| `Main.ConsecutivePages` | app/main.py:57 | page 1 skips nothing, each page starts `limit` rows after the previous one, and two consecutive pages together are the window of `2 * limit` rows starting at the first |
| `Main.WordService.constructor` | app/main.py:15-17 | the service starts with the given collection and provider and no provider calls |
| `Main.WordService.GetWordDetails` | app/main.py:26-37 | the answer, the new collection and the number of provider calls are those of `Resolve` on the old collection |
| `Main.WordService.GetWordList` | app/main.py:46-73 | with `page >= 1`, `1 <= limit <= 100` and a non-empty query if any: at most `limit` objects; success exactly when the listed window's rows have the requested fields; then one object per window row, in order, with exactly those fields copied; otherwise a `KeyError` on a requested field |
| `Main.WordService.DeleteWord` | app/main.py:80-89 | the reply and the new collection are those of `Deletion` on the old collection |
| `MainProperties.ResolveNormalisesKey` | app/main.py:30 | a lookup of W behaves exactly like a lookup of lower(W) |
| `MainProperties.ResolveOnHit` | app/main.py:31-33 | on a hit: no provider call, collection unchanged, answer is the stored document validated, and the same for any provider, target and source |
| `MainProperties.ResolveOnMissSuccess` | app/main.py:35-37 | on a miss with a successful fetch: one provider call, exactly one document appended whose word is lower(W) and has no upper-case letter, and the answer is the record read back, equal to the fetched one |
| `MainProperties.ResolveOnMissFailure` | app/main.py:35-36 | on a miss with a failed fetch: one provider call, the error is the answer, nothing inserted |
| `MainProperties.ResolveTwice` | app/main.py:31-37 | after a successful lookup or a hit, a second lookup of the same word with any languages gives the same answer with no provider call and no change; at most one provider call in total |
| `MainProperties.ResolveKeepsUnique` | app/main.py:31-37 | a lookup keeps the words of the collection unique |
| `MainProperties.ResolveKeepsWellFormed` | app/main.py:33-37 | a collection of valid documents stays valid, and on it every hit succeeds, as does every miss whose fetch succeeds |
| `MainProperties.DeletionNormalisesKey` | app/main.py:84 | deleting W and deleting lower(W) are the same operation |
| `MainProperties.DeletionKeepsUnique` | app/main.py:84-85 | delete keeps words unique and afterwards the word is no longer found |
| `MainProperties.DeletionKeepsOthers` | app/main.py:85-89 | on not found the collection is unchanged, in order; on success it loses exactly one matching document |
| `MainProperties.WellFormedHasRequested` | app/utils.py:57-63 | a valid document has every field a listing can request |
| `MainProperties.ListingOfWellFormedStore` | app/main.py:71-73 | over a collection of valid documents every listing window has all requested fields, so no `KeyError` can occur |
| `MainProperties.ApplicationReplyParses` | app/utils.py:37-38 | the example answer with two translations parses to those two texts, in order |
| `MainProperties.ApplicationFetch` | app/utils.py:7-19 | with the example provider the fetched record has the two translations and no definitions, synonyms or examples |
| `MainProperties.ApplicationScenario` | app/main.py:26-37 | on an empty collection, "application" (es, en) is fetched once and stored as `{word, [la aplicación, la solicitud], null, null, null}`; a later lookup into French returns the same record with no provider call |
| `MainProperties.DeleteMissingScenario` | app/main.py:86-89 | deleting "missing" from an empty collection answers not found and leaves it empty |

## Left out

- The web framework, routing and response marshalling are not modelled. The `Query` bounds (`page >= 1`, `1 <= limit <= 100`, a query of length at least 1) are preconditions of `GetWordList`. The 404 is the error value `NotFound`.
- The database client setup, environment variables and the TLS certificate bundle are replaced by the injected in-memory collection.
- The HTTP POST, the API key and `raise_for_status` are abstracted by the provider function. A reply is a JSON body or an error status. A connection error that `requests.post` raises, which has no status, is folded into `HttpFailure`. A call that never returns (none sets a timeout) is not modelled.
- A provider status that is neither 200 nor an error status makes `translate_text` return `None`, giving a record with `translations` `None`. This is not modelled, because the provider abstraction has only the two outcomes.
- A response body that is not valid JSON, and JSON numbers that are not integers, are not modelled.
- `$regex` is read as a plain substring test. Regular-expression metacharacters are out of scope.
- Store.Matches: a document matches `{"word": key}` only when its `word` is that string. Matching on array-valued fields, which the database also does for `find_one`, `delete_one` and `$regex`, is out of scope.
- Lower-casing covers ASCII letters only. Python's Unicode `lower()` is not modelled.
- Async execution and the race between concurrent misses for the same word are not modelled (concurrency).
- The store's `_id` field, `PyObjectId`, and the `_id` the projection returns by default are left out. The shaping loop ignores `_id` anyway.
- Lax-mode pydantic coercions, such as a tuple or a set for a list, are not modelled. Any other stored value is `Other` and fails validation.
- The re-read after insert finding nothing cannot happen without concurrency. The model still gives it the validation error that FastAPI's response validation would raise.
- Utils.ParseWordsExtraction: on failure its contract says only that the `KeyError` names a requested field. It does not say which row or field is reported first.
- Main.WordService.GetWordList: `skip` is an unbounded integer here. The query bounds admit pages whose `(page - 1) * limit` exceeds 2^63-1, which the database driver cannot encode as a 64-bit integer and so rejects with an error (the request fails). The model returns an empty page for such a `skip` instead.
