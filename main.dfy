/** The three request handlers: cache-aside lookup, listing, delete. The collection is
    the `store` field of a service object; the translation provider is injected. */
module Main {
  import opened Wrappers
  import opened Errors
  import opened Schemas
  import opened Store
  import opened Utils
  import Text

  /** The outcome of one lookup: the answer, the collection afterwards, and how many
      times the translation provider was called. */
  datatype Resolution = Resolution(result: Result<WordInfo, Error>, store: seq<Document>, calls: nat)

  /** The fields excluded when a fetched record is dumped for insertion. */
  const DumpExclude: set<string> := {"name"}

  /** `get_word_details` on collection `docs`: the lower-cased word is the only key; a
      stored document is validated and returned; otherwise the record is fetched,
      inserted, read back and validated. */
  function Resolve(docs: seq<Document>, provider: Provider, word: string, target: string, source: string)
    : (r: Resolution)
    ensures r.calls <= 1
    ensures r.calls == 0 <==> FindOne(docs, Text.Lower(word)).Some?
    ensures r.calls == 0 ==> r.store == docs
    ensures r.store == docs || (|r.store| == |docs| + 1 && r.store[..|docs|] == docs)
    ensures r.result.Err? && r.result.error.ProviderError? ==> r.store == docs
  {
    var key := Text.Lower(word);
    match FindOne(docs, key)
    case Some(found) => Resolution(FromRow(found), docs, 0)
    case None =>
      match FetchAndParse(provider, key, target, source)
      case Err(e) => Resolution(Err(e), docs, 1)
      case Ok(record) =>
        var docs' := docs + [Dump(record, DumpExclude)];
        match FindOne(docs', key)
        case Some(stored) => Resolution(FromRow(stored), docs', 1)
        case None => Resolution(Err(ValidationError), docs', 1)
  }

  /** `delete_word` on collection `docs`: the collection afterwards and the reply. */
  function Deletion(docs: seq<Document>, word: string): (r: (seq<Document>, Result<string, Error>))
    ensures r.1.Err? <==> FindOne(docs, Text.Lower(word)).None?
    ensures r.1.Err? ==> r.0 == docs && r.1.error == NotFound
    ensures r.1.Ok? ==> r.1.value == "word deleted"
    ensures r.1.Ok? ==>
      exists i :: 0 <= i < |docs| && Matches(docs[i], Text.Lower(word))
                  && (forall j :: 0 <= j < i ==> !Matches(docs[j], Text.Lower(word)))
                  && r.0 == docs[..i] + docs[i + 1..]
  {
    DeleteOneRemovesFirstMatch(docs, Text.Lower(word));
    var (rest, deletedCount) := DeleteOne(docs, Text.Lower(word));
    (rest, if deletedCount > 0 then Ok("word deleted") else Err(NotFound))
  }

  /** The listing's projection document: `word` always, each optional field exactly when
      its flag is set, never `translations`. */
  method Projection(includeDefinitions: bool, includeSynonyms: bool, includeExamples: bool)
    returns (projection: map<string, int>)
    ensures "word" in projection && "translations" !in projection
    ensures ("definitions" in projection <==> includeDefinitions)
    ensures ("synonyms" in projection <==> includeSynonyms)
    ensures ("examples" in projection <==> includeExamples)
    ensures forall k :: k in projection <==> k in RequestedFields(includeDefinitions, includeSynonyms, includeExamples)
    ensures forall k :: k in projection ==> projection[k] == 1
  {
    projection := map["word" := 1];
    if includeDefinitions {
      projection := projection["definitions" := 1];
    }
    if includeSynonyms {
      projection := projection["synonyms" := 1];
    }
    if includeExamples {
      projection := projection["examples" := 1];
    }
  }

  /** What the listing promises to select: every document when no (or an empty) query is
      given, otherwise the documents whose `word` contains the query, ignoring case. */
  predicate QueryAdmits(d: Document, query: Option<string>) {
    match query
    case None => true
    case Some(q) => q == "" || (KeyOf(d).Some? && Text.ContainsIgnoreCase(KeyOf(d).value, q))
  }

  /** The documents the listing selects, in collection order. */
  function Listed(docs: seq<Document>, query: Option<string>): (r: seq<Document>)
    ensures forall d :: d in r <==> d in docs && QueryAdmits(d, query)
    decreases |docs|
  {
    if docs == [] then []
    else if QueryAdmits(docs[0], query) then [docs[0]] + Listed(docs[1..], query)
    else Listed(docs[1..], query)
  }

  /** The listing's filter document: empty when no query is given, otherwise a
      case-insensitive `$regex` on `word`; it admits exactly what `QueryAdmits` admits. */
  method FilterCondition(query: Option<string>) returns (f: Filter)
    ensures (query.None? || query.value == "") ==> f == map[]
    ensures query.Some? && query.value != "" ==> f == map["word" := Regex(query.value, "i")]
    ensures forall d :: Satisfies(d, f) <==> QueryAdmits(d, query)
  {
    f := map[];
    if query.Some? && query.value != "" {
      f := f["word" := Regex(query.value, "i")];
    }
  }

  /** A filter that admits what the query admits selects the listed documents. */
  lemma {:induction false} SelectIsListed(docs: seq<Document>, f: Filter, query: Option<string>)
    requires forall d :: Satisfies(d, f) <==> QueryAdmits(d, query)
    ensures Select(docs, f) == Listed(docs, query)
    decreases |docs|
  {
    if docs != [] {
      SelectIsListed(docs[1..], f, query);
    }
  }

  /** Projecting on a superset of the requested fields keeps what the output needs. */
  lemma ShapedThroughProjection(row: Document, keys: set<string>, names: seq<string>, out: Record)
    requires forall k :: 0 <= k < |names| ==> names[k] in keys
    ensures HasFields(Project(row, keys), names) <==> HasFields(row, names)
    ensures HasFields(row, names) ==> (Shaped(out, Project(row, keys), names) <==> Shaped(out, row, names))
  {
  }

  /** The rows the store returns for the listing's filter and projection are the listed
      window, projected; for the requested fields they are indistinguishable from it. */
  lemma ListingRows(docs: seq<Document>, f: Filter, query: Option<string>, projection: map<string, int>,
                    skip: nat, limit: nat, names: seq<string>, outs: seq<Record>)
    requires forall d :: Satisfies(d, f) <==> QueryAdmits(d, query)
    requires forall k :: 0 <= k < |names| ==> names[k] in projection
    ensures var words := Find(docs, f, projection, skip, limit);
      var rows := Window(Listed(docs, query), skip, limit);
      && (AllHaveFields(words, names) <==> AllHaveFields(rows, names))
      && (AllHaveFields(rows, names) ==> (AllShaped(outs, words, names) <==> AllShaped(outs, rows, names)))
  {
    SelectIsListed(docs, f, query);
    var words := Find(docs, f, projection, skip, limit);
    var rows := Window(Listed(docs, query), skip, limit);
    assert |words| == |rows|;
    forall i | 0 <= i < |rows|
      ensures HasFields(words[i], names) <==> HasFields(rows[i], names)
      ensures |outs| == |rows| && HasFields(rows[i], names) ==>
        (Shaped(outs[i], words[i], names) <==> Shaped(outs[i], rows[i], names))
    {
      assert words[i] == Project(rows[i], projection.Keys);
      ShapedThroughProjection(rows[i], projection.Keys, names, if |outs| == |rows| then outs[i] else []);
    }
  }

  /** The number of rows a listing page skips. */
  function Skip(page: int, limit: int): nat
    requires page >= 1 && limit >= 1
  {
    (page - 1) * limit
  }

  /** Pages tile the listing: page `page` starts where page `page - 1` ended, so two
      consecutive pages of size `limit` are the one window of size `2 * limit`, and
      page 1 starts at the first row. */
  lemma ConsecutivePages<T>(rows: seq<T>, page: int, limit: int)
    requires page >= 1 && limit >= 1
    ensures Skip(1, limit) == 0
    ensures Skip(page + 1, limit) == Skip(page, limit) + limit
    ensures Window(rows, Skip(page, limit), limit) + Window(rows, Skip(page + 1, limit), limit)
            == Window(rows, Skip(page, limit), 2 * limit)
  {
  }

  /** The word-lookup service: the collection it owns and the provider it calls. */
  class WordService {
    /** The collection's documents in natural order. */
    var store: seq<Document>
    /** The translation provider. */
    const provider: Provider
    /** How many times the provider has been called. */
    ghost var providerCalls: nat

    constructor (provider: Provider, store: seq<Document>)
      ensures this.provider == provider && this.store == store && providerCalls == 0
    {
      this.provider := provider;
      this.store := store;
      providerCalls := 0;
    }

    /** `GET /words/{word}`. */
    method GetWordDetails(word: string, target: string := "es", src: string := "en")
      returns (r: Result<WordInfo, Error>)
      modifies this`store, this`providerCalls
      ensures var res := Resolve(old(store), provider, word, target, src);
        r == res.result && store == res.store && providerCalls == old(providerCalls) + res.calls
    {
      var key := Text.Lower(word);
      var wordInfo := FindOne(store, key);
      if wordInfo.Some? {
        return FromRow(wordInfo.value);
      }
      var translatedData := FetchAndParse(provider, key, target, src);
      providerCalls := providerCalls + 1;
      if translatedData.Err? {
        return Err(translatedData.error);
      }
      store := store + [Dump(translatedData.value, DumpExclude)];
      var stored := FindOne(store, key);
      if stored.None? {
        return Err(ValidationError);
      }
      return FromRow(stored.value);
    }

    /** `GET /words/`: the validated bounds of the query parameters are preconditions. */
    method GetWordList(page: int := 1, limit: int := 10, query: Option<string> := None,
                       includeDefinitions: bool := false, includeSynonyms: bool := false,
                       includeExamples: bool := false)
      returns (r: Result<seq<Record>, Error>)
      requires page >= 1 && 1 <= limit <= 100
      requires query.Some? ==> |query.value| >= 1
      ensures r.Ok? ==> |r.value| <= limit
      ensures r.Err? ==>
        r.error.KeyError? && r.error.key in RequestedFields(includeDefinitions, includeSynonyms, includeExamples)
      ensures var rows := Window(Listed(store, query), Skip(page, limit), limit);
        var names := RequestedFields(includeDefinitions, includeSynonyms, includeExamples);
        && (r.Ok? <==> AllHaveFields(rows, names))
        && (r.Ok? ==> AllHaveFields(rows, names) && AllShaped(r.value, rows, names))
    {
      var skip := Skip(page, limit);
      var projection := Projection(includeDefinitions, includeSynonyms, includeExamples);
      var filterCondition := FilterCondition(query);
      var words := Find(store, filterCondition, projection, skip, limit);
      r := ParseWordsExtraction(words, includeDefinitions, includeSynonyms, includeExamples);
      ListingRows(store, filterCondition, query, projection, skip, limit,
                  RequestedFields(includeDefinitions, includeSynonyms, includeExamples),
                  if r.Ok? then r.value else []);
    }

    /** `DELETE /words/{word}`. */
    method DeleteWord(word: string) returns (r: Result<string, Error>)
      modifies this`store
      ensures (store, r) == Deletion(old(store), word)
    {
      var key := Text.Lower(word);
      var (rest, deletedCount) := DeleteOne(store, key);
      store := rest;
      if deletedCount > 0 {
        return Ok("word deleted");
      } else {
        return Err(NotFound);
      }
    }
  }
}
