/** Building a record from the translation provider's answer, and shaping listing rows. */
module Utils {
  import opened Wrappers
  import opened Errors
  import opened Schemas

  /** A decoded JSON value of the provider's response body. */
  datatype Json =
    | JNull
    | JBool(b: bool)
    | JNumber(n: int)
    | JString(s: string)
    | JArray(items: seq<Json>)
    | JObject(fields: map<string, Json>)

  /** What the provider's HTTP call comes back with: status 200 and a JSON body,
      or an error status that `raise_for_status` turns into an exception. */
  datatype Reply = Answered(body: Json) | HttpFailure(status: int)

  /** The translation provider: (word, target language, source language) to a reply. */
  type Provider = (string, string, string) -> Reply

  /** `translation.get("translatedText")` on one object; a missing key gives `None`. */
  function TranslatedTextOf(fields: map<string, Json>): Json {
    if "translatedText" in fields then fields["translatedText"] else JNull
  }

  /** The list comprehension over `data.translations`: every element must be an object
      (anything else has no `.get`), and each yields its `translatedText`. */
  function TranslatedItems(items: seq<Json>): (r: Result<seq<Json>, Error>)
    ensures r.Ok? <==> forall i :: 0 <= i < |items| ==> items[i].JObject?
    ensures r.Err? ==> r.error == ShapeError
    ensures r.Ok? ==> |r.value| == |items|
    ensures r.Ok? ==> forall i :: 0 <= i < |items| ==> r.value[i] == TranslatedTextOf(items[i].fields)
    decreases |items|
  {
    if items == [] then Ok([])
    else if !items[0].JObject? then Err(ShapeError)
    else match TranslatedItems(items[1..])
      case Err(e) => Err(e)
      case Ok(rest) => Ok([TranslatedTextOf(items[0].fields)] + rest)
  }

  /** Iterating `data.translations` in the comprehension: a list yields its elements; an
      empty string or an empty object yields nothing; a non-empty string or object yields
      strings, which have no `.get`; any other value is not iterable. */
  function TranslationsList(v: Json): (r: Result<seq<Json>, Error>)
    ensures v.JArray? ==> r == TranslatedItems(v.items)
    ensures (v.JString? && v.s == "") || (v.JObject? && v.fields == map[]) ==> r == Ok([])
    ensures r.Ok? ==> v.JArray? || v == JString("") || v == JObject(map[])
    ensures r.Err? ==> r.error == ShapeError
  {
    match v
    case JArray(items) => TranslatedItems(items)
    case JString(s) => if s == "" then Ok([]) else Err(ShapeError)
    case JObject(m) => if m == map[] then Ok([]) else Err(ShapeError)
    case _ => Err(ShapeError)
  }

  /** `response.json().get('data', {}).get('translations', [])` followed by the comprehension. */
  function TranslatedTexts(body: Json): (r: Result<seq<Json>, Error>)
    ensures r.Err? ==> r.error == ShapeError
    ensures !body.JObject? ==> r == Err(ShapeError)
    ensures body.JObject? && "data" !in body.fields ==> r == Ok([])
    ensures body.JObject? && "data" in body.fields && !body.fields["data"].JObject? ==> r == Err(ShapeError)
    ensures body.JObject? && "data" in body.fields && body.fields["data"].JObject? ==>
      var data := body.fields["data"].fields;
      r == if "translations" in data then TranslationsList(data["translations"]) else Ok([])
  {
    if !body.JObject? then Err(ShapeError)
    else
      var data := if "data" in body.fields then body.fields["data"] else JObject(map[]);
      if !data.JObject? then Err(ShapeError)
      else
        var translations := if "translations" in data.fields then data.fields["translations"] else JArray([]);
        TranslationsList(translations)
  }

  /** `translate_text`: ask the provider, fail on an error status, parse the body. A
      provider error is reported exactly when the HTTP call failed, with its status; every
      other failure is a body of the wrong shape, and an answer is parsed from its body. */
  function TranslateText(provider: Provider, word: string, target: string, source: string)
    : (r: Result<seq<Json>, Error>)
    ensures (r.Err? && r.error.ProviderError?) <==> provider(word, target, source).HttpFailure?
    ensures r.Err? && r.error.ProviderError? ==> r.error.status == provider(word, target, source).status
    ensures r.Err? && !r.error.ProviderError? ==> r.error == ShapeError
    ensures r.Ok? ==> provider(word, target, source).Answered?
    ensures provider(word, target, source).Answered? ==> r == TranslatedTexts(provider(word, target, source).body)
  {
    match provider(word, target, source)
    case HttpFailure(status) => Err(ProviderError(status))
    case Answered(body) => TranslatedTexts(body)
  }

  /** The definitions/synonyms/examples provider, which is a stub that finds nothing. */
  function DefinitionsSynonymsExamples(word: string, target: string, source: string)
    : (r: (Option<seq<string>>, Option<seq<string>>, Option<seq<string>>))
    ensures r.0.None? && r.1.None? && r.2.None?
  {
    (None, None, None)
  }

  /** Validation of a `list[str]` field: every element must be a JSON string. */
  function Strings(items: seq<Json>): (r: Result<seq<string>, Error>)
    ensures r.Ok? <==> forall i :: 0 <= i < |items| ==> items[i].JString?
    ensures r.Err? ==> r.error == ValidationError
    ensures r.Ok? ==> |r.value| == |items| && forall i :: 0 <= i < |items| ==> items[i] == JString(r.value[i])
    decreases |items|
  {
    if items == [] then Ok([])
    else if !items[0].JString? then Err(ValidationError)
    else match Strings(items[1..])
      case Err(e) => Err(e)
      case Ok(rest) => Ok([items[0].s] + rest)
  }

  /** `fetch_and_parse_google_translate`: the record for `word`, holding the provider's
      translations in order and whatever the stub gives for the other three fields. */
  function FetchAndParse(provider: Provider, word: string, target: string, source: string)
    : (r: Result<WordInfo, Error>)
    ensures TranslateText(provider, word, target, source).Err? ==>
      r == Err(TranslateText(provider, word, target, source).error)
    ensures TranslateText(provider, word, target, source).Ok? && r.Err? ==> r.error == ValidationError
    ensures var texts := TranslateText(provider, word, target, source);
      r.Ok? <==> (texts.Ok? && forall i :: 0 <= i < |texts.value| ==> texts.value[i].JString?)
    ensures r.Ok? ==> r.value.word == word
    ensures r.Ok? ==> r.value.definitions == None && r.value.synonyms == None && r.value.examples == None
    ensures var texts := TranslateText(provider, word, target, source);
      r.Ok? ==> (r.value.translations.Some? && |r.value.translations.value| == |texts.value| &&
                 forall i :: 0 <= i < |texts.value| ==> texts.value[i] == JString(r.value.translations.value[i]))
  {
    match TranslateText(provider, word, target, source)
    case Err(e) => Err(e)
    case Ok(texts) =>
      var (definitions, synonyms, examples) := DefinitionsSynonymsExamples(word, target, source);
      match Strings(texts)
      case Err(e) => Err(e)
      case Ok(translations) => Ok(WordInfo(word, Some(translations), definitions, synonyms, examples))
  }

  /** One key of an output object; an object is a list of fields in insertion order. */
  datatype Field = Field(name: string, value: Value)

  type Record = seq<Field>

  /** The fields a listing returns, in output order: `word`, then each flagged field. */
  function RequestedFields(definitions: bool, synonyms: bool, examples: bool): (r: seq<string>)
    ensures |r| >= 1 && r[0] == "word"
    ensures "translations" !in r
    ensures ("definitions" in r <==> definitions) && ("synonyms" in r <==> synonyms) && ("examples" in r <==> examples)
    ensures forall i, j :: 0 <= i < j < |r| ==> r[i] != r[j]
  {
    ["word"]
      + (if definitions then ["definitions"] else [])
      + (if synonyms then ["synonyms"] else [])
      + (if examples then ["examples"] else [])
  }

  /** The row holds every named field. */
  predicate HasFields(row: Document, names: seq<string>) {
    forall k :: 0 <= k < |names| ==> names[k] in row
  }

  /** The output object lists exactly `names`, in that order, each with the row's value. */
  predicate Shaped(out: Record, row: Document, names: seq<string>)
    requires HasFields(row, names)
  {
    |out| == |names| && forall k :: 0 <= k < |out| ==> out[k] == Field(names[k], row[names[k]])
  }

  /** Every row holds every named field. */
  predicate AllHaveFields(rows: seq<Document>, names: seq<string>) {
    forall i :: 0 <= i < |rows| ==> HasFields(rows[i], names)
  }

  /** One output object per row, in row order, each shaped from its row. */
  predicate AllShaped(outs: seq<Record>, rows: seq<Document>, names: seq<string>)
    requires AllHaveFields(rows, names)
  {
    |outs| == |rows| && forall i :: 0 <= i < |rows| ==> Shaped(outs[i], rows[i], names)
  }

  /** `parse_words_extraction`: one output object per row, in row order, holding `word`
      and exactly the flagged fields copied from the row; a row that lacks one of them
      raises a `KeyError`. */
  method ParseWordsExtraction(words: seq<Document>, includeDefinitions: bool, includeSynonyms: bool,
                              includeExamples: bool)
    returns (r: Result<seq<Record>, Error>)
    ensures var names := RequestedFields(includeDefinitions, includeSynonyms, includeExamples);
      r.Ok? <==> AllHaveFields(words, names)
    ensures r.Err? ==>
      r.error.KeyError? && r.error.key in RequestedFields(includeDefinitions, includeSynonyms, includeExamples)
    ensures var names := RequestedFields(includeDefinitions, includeSynonyms, includeExamples);
      r.Ok? ==> AllHaveFields(words, names) && AllShaped(r.value, words, names)
  {
    ghost var names := RequestedFields(includeDefinitions, includeSynonyms, includeExamples);
    var wordList: seq<Record> := [];
    var i := 0;
    while i < |words|
      invariant 0 <= i <= |words|
      invariant |wordList| == i
      invariant forall j :: 0 <= j < i ==> HasFields(words[j], names) && Shaped(wordList[j], words[j], names)
    {
      var word := words[i];
      if "word" !in word {
        return Err(KeyError("word"));
      }
      var wordDict: Record := [Field("word", word["word"])];
      if includeDefinitions {
        if "definitions" !in word {
          return Err(KeyError("definitions"));
        }
        wordDict := wordDict + [Field("definitions", word["definitions"])];
      }
      if includeSynonyms {
        if "synonyms" !in word {
          return Err(KeyError("synonyms"));
        }
        wordDict := wordDict + [Field("synonyms", word["synonyms"])];
      }
      if includeExamples {
        if "examples" !in word {
          return Err(KeyError("examples"));
        }
        wordDict := wordDict + [Field("examples", word["examples"])];
      }
      wordList := wordList + [wordDict];
      i := i + 1;
    }
    return Ok(wordList);
  }
}
