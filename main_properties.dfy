/** What the handlers promise, stated over the lookup and delete specifications. */
module MainProperties {
  import opened Wrappers
  import opened Errors
  import opened Schemas
  import opened Store
  import opened Utils
  import opened Main
  import Text

  /** Every document of the collection validates as a `WordInfo`. */
  predicate AllWellFormed(docs: seq<Document>) {
    forall i :: 0 <= i < |docs| ==> WellFormed(docs[i])
  }

  /** Only the lower-cased word matters: "Hello" and "hello" are the same request. */
  lemma ResolveNormalisesKey(docs: seq<Document>, provider: Provider, word: string, target: string, source: string)
    ensures Resolve(docs, provider, word, target, source) == Resolve(docs, provider, Text.Lower(word), target, source)
  {
    Text.LowerIdempotent(word);
  }

  /** On a hit the stored document is validated and returned, the provider is not called
      and the collection is unchanged, whatever provider and languages are passed. */
  lemma ResolveOnHit(docs: seq<Document>, provider: Provider, word: string, target: string, source: string,
                     otherProvider: Provider, otherTarget: string, otherSource: string)
    requires FindOne(docs, Text.Lower(word)).Some?
    ensures var res := Resolve(docs, provider, word, target, source);
      && res.calls == 0
      && res.store == docs
      && res.result == FromRow(FindOne(docs, Text.Lower(word)).value)
      && res == Resolve(docs, otherProvider, word, otherTarget, otherSource)
  {
  }

  /** On a miss with a successful fetch the provider is called once, exactly one
      document is appended, keyed by the lower-cased word, and the answer is the record
      read back from the collection, which is the fetched record; the stored word has
      no upper-case letter. */
  lemma ResolveOnMissSuccess(docs: seq<Document>, provider: Provider, word: string, target: string, source: string)
    requires FindOne(docs, Text.Lower(word)).None?
    requires FetchAndParse(provider, Text.Lower(word), target, source).Ok?
    ensures var record := FetchAndParse(provider, Text.Lower(word), target, source).value;
      var res := Resolve(docs, provider, word, target, source);
      && res.calls == 1
      && res.store == docs + [Dump(record, DumpExclude)]
      && record.word == Text.Lower(word)
      && Text.IsLower(record.word)
      && FindOne(res.store, Text.Lower(word)) == Some(Dump(record, DumpExclude))
      && res.result == Ok(record)
  {
    var key := Text.Lower(word);
    var record := FetchAndParse(provider, key, target, source).value;
    FindIndexAppend(docs, Dump(record, DumpExclude), key);
    DumpRoundTrip(record, DumpExclude);
    Text.LowerIsLower(word);
  }

  /** On a miss with a failed fetch the error is passed on and nothing is inserted. */
  lemma ResolveOnMissFailure(docs: seq<Document>, provider: Provider, word: string, target: string, source: string)
    requires FindOne(docs, Text.Lower(word)).None?
    requires FetchAndParse(provider, Text.Lower(word), target, source).Err?
    ensures Resolve(docs, provider, word, target, source) ==
      Resolution(Err(FetchAndParse(provider, Text.Lower(word), target, source).error), docs, 1)
  {
  }

  /** A second lookup of the same word, with any languages, is a hit: it returns the same
      answer, changes nothing and calls no provider, so the two together call the provider
      at most once. This holds whenever the first lookup succeeded or was itself a hit. */
  lemma ResolveTwice(docs: seq<Document>, provider: Provider, word: string, target: string, source: string,
                     target2: string, source2: string)
    requires var first := Resolve(docs, provider, word, target, source);
      first.result.Ok? || first.calls == 0
    ensures var first := Resolve(docs, provider, word, target, source);
      var second := Resolve(first.store, provider, word, target2, source2);
      && second == Resolution(first.result, first.store, 0)
      && first.calls + second.calls <= 1
  {
    var key := Text.Lower(word);
    if FindOne(docs, key).None? {
      ResolveOnMissSuccess(docs, provider, word, target, source);
    }
  }

  /** A lookup inserts only on a miss, so it keeps the words of the collection unique. */
  lemma ResolveKeepsUnique(docs: seq<Document>, provider: Provider, word: string, target: string, source: string)
    requires Unique(docs)
    ensures Unique(Resolve(docs, provider, word, target, source).store)
  {
    var key := Text.Lower(word);
    if FindOne(docs, key).None? && FetchAndParse(provider, key, target, source).Ok? {
      var record := FetchAndParse(provider, key, target, source).value;
      AppendKeepsUnique(docs, Dump(record, DumpExclude));
    }
  }

  /** A lookup inserts only dumped records, so a collection of valid documents stays valid,
      and on such a collection every lookup that does not fail to fetch succeeds: a hit
      validates the stored document, a successful fetch validates the inserted one. */
  lemma ResolveKeepsWellFormed(docs: seq<Document>, provider: Provider, word: string, target: string, source: string)
    requires AllWellFormed(docs)
    ensures AllWellFormed(Resolve(docs, provider, word, target, source).store)
    ensures FindOne(docs, Text.Lower(word)).Some? ==> Resolve(docs, provider, word, target, source).result.Ok?
    ensures FindOne(docs, Text.Lower(word)).None? && FetchAndParse(provider, Text.Lower(word), target, source).Ok? ==>
      Resolve(docs, provider, word, target, source).result.Ok?
  {
    var key := Text.Lower(word);
    if FindOne(docs, key).None? && FetchAndParse(provider, key, target, source).Ok? {
      var record := FetchAndParse(provider, key, target, source).value;
      DumpRoundTrip(record, DumpExclude);
      assert WellFormed(Dump(record, DumpExclude));
      ResolveOnMissSuccess(docs, provider, word, target, source);
    }
  }

  /** Deleting "Hello" and deleting "hello" are the same operation. */
  lemma DeletionNormalisesKey(docs: seq<Document>, word: string)
    ensures Deletion(docs, word) == Deletion(docs, Text.Lower(word))
  {
    Text.LowerIdempotent(word);
  }

  /** Delete keeps the words unique, and afterwards the word is no longer found. */
  lemma DeletionKeepsUnique(docs: seq<Document>, word: string)
    requires Unique(docs)
    ensures Unique(Deletion(docs, word).0)
    ensures FindOne(Deletion(docs, word).0, Text.Lower(word)).None?
  {
    DeleteOneKeepsUnique(docs, Text.Lower(word));
  }

  /** Delete keeps every other document: the collection loses at most the one document
      it reports deleted. */
  lemma DeletionKeepsOthers(docs: seq<Document>, word: string)
    ensures var (rest, reply) := Deletion(docs, word);
      && (reply.Err? ==> rest == docs && multiset(rest) == multiset(docs))
      && (reply.Ok? ==> exists d :: Matches(d, Text.Lower(word)) && multiset(docs) == multiset(rest) + multiset{d})
  {
    DeleteOneRemovesFirstMatch(docs, Text.Lower(word));
  }

  /** A valid document holds every field a listing can ask for. */
  lemma WellFormedHasRequested(d: Document, includeDefinitions: bool, includeSynonyms: bool, includeExamples: bool)
    requires WellFormed(d)
    ensures HasFields(d, RequestedFields(includeDefinitions, includeSynonyms, includeExamples))
  {
    var names := RequestedFields(includeDefinitions, includeSynonyms, includeExamples);
    forall k | 0 <= k < |names| ensures names[k] in d {
      assert names[k] in FieldNames;
    }
  }

  /** On a collection of valid documents a listing never raises `KeyError`, whatever
      flags, query and window it asks for. */
  lemma ListingOfWellFormedStore(docs: seq<Document>, query: Option<string>, skip: nat, limit: nat,
                                 includeDefinitions: bool, includeSynonyms: bool, includeExamples: bool)
    requires AllWellFormed(docs)
    ensures AllHaveFields(Window(Listed(docs, query), skip, limit),
                          RequestedFields(includeDefinitions, includeSynonyms, includeExamples))
  {
    var listed := Listed(docs, query);
    var rows := Window(listed, skip, limit);
    forall i | 0 <= i < |rows|
      ensures HasFields(rows[i], RequestedFields(includeDefinitions, includeSynonyms, includeExamples))
    {
      assert rows[i] == listed[skip + i];
      assert rows[i] in docs;
      var j :| 0 <= j < |docs| && docs[j] == rows[i];
      WellFormedHasRequested(docs[j], includeDefinitions, includeSynonyms, includeExamples);
    }
  }

  /** A provider answer carrying two translations of "application" into Spanish. */
  const ApplicationReply: Json :=
    JObject(map["data" := JObject(map["translations" := JArray([
      JObject(map["translatedText" := JString("la aplicación")]),
      JObject(map["translatedText" := JString("la solicitud")])])])])

  /** A provider that answers every request with those two translations. */
  function ApplicationProvider(): Provider {
    (w: string, t: string, s: string) => Answered(ApplicationReply)
  }

  /** Parsing that answer gives its two translations, in order. */
  lemma ApplicationReplyParses()
    ensures TranslatedTexts(ApplicationReply) == Ok([JString("la aplicación"), JString("la solicitud")])
  {
    var data := ApplicationReply.fields["data"];
    assert "data" in ApplicationReply.fields;
    assert "translations" in data.fields;
    var items := data.fields["translations"].items;
    assert |items| == 2 && items[0].JObject? && items[1].JObject?;
    var r := TranslatedItems(items);
    assert TranslatedTexts(ApplicationReply) == r;
    assert r.Ok? && |r.value| == 2;
    assert r.value[0] == TranslatedTextOf(items[0].fields) == JString("la aplicación");
    assert r.value[1] == TranslatedTextOf(items[1].fields) == JString("la solicitud");
    assert r.value == [JString("la aplicación"), JString("la solicitud")];
  }

  /** Fetching any word from that provider builds a record with its two translations and
      no other data. */
  lemma ApplicationFetch(provider: Provider, word: string, target: string, source: string)
    requires provider == ApplicationProvider()
    ensures FetchAndParse(provider, word, target, source) ==
      Ok(WordInfo(word, Some(["la aplicación", "la solicitud"]), None, None, None))
  {
    ApplicationReplyParses();
    var texts := [JString("la aplicación"), JString("la solicitud")];
    assert TranslateText(provider, word, target, source) == Ok(texts);
    var strs := Strings(texts);
    assert strs.Ok? && |strs.value| == 2;
    assert strs.value == ["la aplicación", "la solicitud"];
  }

  /** On an empty collection, looking up "application" from English to Spanish stores and
      returns the record with the two translations and no other data; looking it up again
      into French returns the identical record without calling any provider. */
  lemma ApplicationScenario(docs: seq<Document>, provider: Provider, word: string, otherProvider: Provider)
    requires docs == [] && provider == ApplicationProvider() && word == "application"
    ensures var first := Resolve(docs, provider, word, "es", "en");
      && first.calls == 1
      && first.result == Ok(WordInfo(word, Some(["la aplicación", "la solicitud"]), None, None, None))
      && first.store == [Dump(first.result.value, DumpExclude)]
      && Resolve(first.store, otherProvider, word, "fr", "en") == Resolution(first.result, first.store, 0)
  {
    assert Text.IsLower(word);
    Text.LowerOfLower(word);
    ApplicationFetch(provider, word, "es", "en");
    ResolveOnMissSuccess(docs, provider, word, "es", "en");
    var first := Resolve(docs, provider, word, "es", "en");
    ResolveOnHit(first.store, provider, word, "fr", "en", otherProvider, "fr", "en");
    ResolveTwice(docs, provider, word, "es", "en", "fr", "en");
  }

  /** Deleting any word from an empty collection reports not found. */
  lemma DeleteMissingScenario()
    ensures Deletion([], "missing") == ([], Err(NotFound))
  {
  }
}
