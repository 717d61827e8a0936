/** The `WordInfo` record and the documents it is stored as. */
module Schemas {
  import opened Wrappers
  import opened Errors

  /** One word record: a required `word` and four independently optional string lists.
      The schema itself does not lower-case `word`. */
  datatype WordInfo = WordInfo(
    word: string,
    translations: Option<seq<string>>,
    definitions: Option<seq<string>>,
    synonyms: Option<seq<string>>,
    examples: Option<seq<string>>)

  /** A field value of a stored document: `null`, a string, a list of strings,
      or any other value (a number, an object id, ...). */
  datatype Value = Null | Text(s: string) | TextList(items: seq<string>) | Other

  /** A document of the store's collection, and a row as a query returns it. */
  type Document = map<string, Value>

  /** The five fields of `WordInfo`. */
  const FieldNames: set<string> := {"word", "translations", "definitions", "synonyms", "examples"}

  /** How an optional list is dumped: `None` becomes `null`. */
  function ListValue(o: Option<seq<string>>): Value {
    match o
    case None => Null
    case Some(xs) => TextList(xs)
  }

  /** The dumped value of one field of `w`. */
  function FieldValue(w: WordInfo, name: string): Value
    requires name in FieldNames
  {
    if name == "word" then Text(w.word)
    else if name == "translations" then ListValue(w.translations)
    else if name == "definitions" then ListValue(w.definitions)
    else if name == "synonyms" then ListValue(w.synonyms)
    else ListValue(w.examples)
  }

  /** `model_dump(exclude=exclude)`: every field of the record except the excluded names. */
  function Dump(w: WordInfo, exclude: set<string>): (d: Document)
    ensures d.Keys == FieldNames - exclude
    ensures forall k :: k in d ==> d[k] == FieldValue(w, k)
  {
    map k | k in FieldNames && k !in exclude :: FieldValue(w, k)
  }

  /** A value pydantic accepts for an `Optional[list[str]]` field. */
  predicate IsListValue(v: Value) {
    v.Null? || v.TextList?
  }

  /** The value a field of `WordInfo` must have in a document: a string for `word`,
      `null` or a list of strings for the four others. */
  predicate FitsField(name: string, v: Value) {
    if name == "word" then v.Text? else IsListValue(v)
  }

  /** A document that `WordInfo(**d)` accepts: all five fields present and well typed;
      other keys (such as `_id`) are ignored. */
  predicate WellFormed(d: Document) {
    forall k :: k in FieldNames ==> k in d && FitsField(k, d[k])
  }

  /** Reads an `Optional[list[str]]` field; a missing key is a validation error,
      because none of the fields has a default. */
  function ListField(d: Document, name: string): (r: Result<Option<seq<string>>, Error>)
    ensures r.Ok? <==> name in d && IsListValue(d[name])
    ensures r.Ok? ==> ListValue(r.value) == d[name]
  {
    if name !in d then Err(ValidationError)
    else match d[name]
      case Null => Ok(None)
      case TextList(xs) => Ok(Some(xs))
      case _ => Err(ValidationError)
  }

  /** `WordInfo(**d)`: validates a document into a record. */
  function FromRow(d: Document): (r: Result<WordInfo, Error>)
    ensures r.Ok? <==> WellFormed(d)
    ensures r.Err? ==> r.error == ValidationError
    ensures r.Ok? ==> forall k :: k in FieldNames ==> d[k] == FieldValue(r.value, k)
  {
    if "word" !in d || !d["word"].Text? then Err(ValidationError)
    else
      match (ListField(d, "translations"), ListField(d, "definitions"),
             ListField(d, "synonyms"), ListField(d, "examples"))
      case (Ok(t), Ok(df), Ok(sy), Ok(ex)) => Ok(WordInfo(d["word"].s, t, df, sy, ex))
      case _ => Err(ValidationError)
  }

  /** Dumping a record, with an exclusion that names no field, and validating the
      document again gives back the same record. */
  lemma DumpRoundTrip(w: WordInfo, exclude: set<string>)
    requires exclude !! FieldNames
    ensures FromRow(Dump(w, exclude)) == Ok(w)
  {
    var d := Dump(w, exclude);
    assert WellFormed(d);
  }
}
