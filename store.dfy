/** The document collection the handlers talk to, as an in-memory sequence of
    documents in natural (insertion) order, with the primitives the handlers use:
    `find_one`, `insert_one`, `delete_one` and `find(filter, projection).skip(..).limit(..)`. */
module Store {
  import opened Wrappers
  import opened Schemas
  import Text

  /** The `word` of a document, when it holds a string there. */
  function KeyOf(d: Document): Option<string> {
    if "word" in d && d["word"].Text? then Some(d["word"].s) else None
  }

  /** The document matches the query `{"word": key}`. */
  predicate Matches(d: Document, key: string) {
    KeyOf(d) == Some(key)
  }

  /** No two documents of the collection share a `word`. */
  predicate Unique(docs: seq<Document>) {
    forall i, j :: 0 <= i < j < |docs| && KeyOf(docs[i]).Some? ==> KeyOf(docs[i]) != KeyOf(docs[j])
  }

  /** The position of the first document that matches `key`. */
  function FindIndex(docs: seq<Document>, key: string): (r: Option<nat>)
    ensures r.None? <==> forall j :: 0 <= j < |docs| ==> !Matches(docs[j], key)
    ensures r.Some? ==> r.value < |docs| && Matches(docs[r.value], key)
    ensures r.Some? ==> forall j :: 0 <= j < r.value ==> !Matches(docs[j], key)
    decreases |docs|
  {
    if docs == [] then None
    else if Matches(docs[0], key) then Some(0)
    else match FindIndex(docs[1..], key)
      case None => None
      case Some(j) => Some(j + 1)
  }

  /** `find_one({"word": key})`: the first matching document in natural order, if any. */
  function FindOne(docs: seq<Document>, key: string): (r: Option<Document>)
    ensures r.None? <==> forall j :: 0 <= j < |docs| ==> !Matches(docs[j], key)
    ensures r.Some? ==> r.value in docs && Matches(r.value, key)
    ensures r.Some? ==> FindIndex(docs, key).Some? && r.value == docs[FindIndex(docs, key).value]
  {
    match FindIndex(docs, key)
    case None => None
    case Some(i) => Some(docs[i])
  }

  /** `delete_one({"word": key})`: removes the first matching document and reports
      how many were deleted. */
  function DeleteOne(docs: seq<Document>, key: string): (r: (seq<Document>, nat))
    ensures r.1 <= 1
    ensures r.1 == 0 <==> FindOne(docs, key).None?
    ensures |r.0| + r.1 == |docs|
  {
    match FindIndex(docs, key)
    case None => (docs, 0)
    case Some(i) => (docs[..i] + docs[i + 1..], 1)
  }

  /** A `$regex` condition with its `$options`. */
  datatype Condition = Regex(pattern: string, options: string)

  /** A filter document: each named field must satisfy its condition. */
  type Filter = map<string, Condition>

  /** The regular expression is read as a plain substring; option `i` makes the
      match case-insensitive. Only a string field can match, and it matches when the
      pattern occurs in it at some offset, both sides lower-cased under option `i`. */
  predicate Holds(v: Value, c: Condition): (b: bool)
    ensures b ==> v.Text?
    ensures v.Text? && 'i' !in c.options ==> (b <==> exists i :: Text.OccursAt(v.s, c.pattern, i))
    ensures v.Text? && 'i' in c.options ==>
      (b <==> exists i :: Text.OccursAt(Text.Lower(v.s), Text.Lower(c.pattern), i))
  {
    if !v.Text? then false
    else if 'i' in c.options then
      Text.ContainsAtOffset(Text.Lower(v.s), Text.Lower(c.pattern));
      assert Text.ContainsIgnoreCase(v.s, c.pattern) == Text.Contains(Text.Lower(v.s), Text.Lower(c.pattern));
      Text.ContainsIgnoreCase(v.s, c.pattern)
    else
      Text.ContainsAtOffset(v.s, c.pattern);
      Text.Contains(v.s, c.pattern)
  }

  /** The document satisfies every condition of the filter; the empty filter matches all. */
  predicate Satisfies(d: Document, f: Filter) {
    forall k :: k in f ==> k in d && Holds(d[k], f[k])
  }

  /** The documents that satisfy `f`, in collection order. */
  function Select(docs: seq<Document>, f: Filter): (r: seq<Document>)
    ensures |r| <= |docs|
    ensures forall d :: d in r <==> d in docs && Satisfies(d, f)
    decreases |docs|
  {
    if docs == [] then []
    else if Satisfies(docs[0], f) then [docs[0]] + Select(docs[1..], f)
    else Select(docs[1..], f)
  }

  /** `.skip(skip).limit(limit)`: the rows at offsets `skip .. skip+limit-1` that exist. */
  function Window<T>(rows: seq<T>, skip: nat, limit: nat): (r: seq<T>)
    ensures |r| <= limit
    ensures |r| == if skip >= |rows| then 0 else if skip + limit <= |rows| then limit else |rows| - skip
    ensures forall i :: 0 <= i < |r| ==> r[i] == rows[skip + i]
  {
    if skip >= |rows| then [] else if skip + limit <= |rows| then rows[skip..skip + limit] else rows[skip..]
  }

  /** An inclusion projection: keeps only the keys the projection names. */
  function Project(d: Document, keys: set<string>): (r: Document)
    ensures r.Keys == d.Keys * keys
    ensures forall k :: k in r ==> r[k] == d[k]
  {
    map k | k in d && k in keys :: d[k]
  }

  /** `find(f, projection).skip(skip).limit(limit)`, read to a list. */
  function Find(docs: seq<Document>, f: Filter, projection: map<string, int>, skip: nat, limit: nat)
    : (r: seq<Document>)
    ensures |r| <= limit
    ensures |r| == |Window(Select(docs, f), skip, limit)|
    ensures forall i :: 0 <= i < |r| ==> r[i] == Project(Select(docs, f)[skip + i], projection.Keys)
  {
    var rows := Window(Select(docs, f), skip, limit);
    seq(|rows|, i requires 0 <= i < |rows| => Project(rows[i], projection.Keys))
  }

  /** Appending a document whose key was absent makes it the one `find_one` returns. */
  lemma {:induction false} FindIndexAppend(docs: seq<Document>, d: Document, key: string)
    requires FindIndex(docs, key).None?
    requires Matches(d, key)
    ensures FindIndex(docs + [d], key) == Some(|docs|)
    decreases |docs|
  {
    if docs != [] {
      assert (docs + [d])[1..] == docs[1..] + [d];
      FindIndexAppend(docs[1..], d, key);
    }
  }

  /** Appending a document with a fresh key keeps the keys unique. */
  lemma AppendKeepsUnique(docs: seq<Document>, d: Document)
    requires Unique(docs)
    requires KeyOf(d).Some? && FindIndex(docs, KeyOf(d).value).None?
    ensures Unique(docs + [d])
  {
    var s := docs + [d];
    forall i, j | 0 <= i < j < |s| && KeyOf(s[i]).Some?
      ensures KeyOf(s[i]) != KeyOf(s[j])
    {
      if j == |docs| {
        assert !Matches(docs[i], KeyOf(d).value);
      }
    }
  }

  /** `delete_one` removes exactly the first matching document and keeps every other
      document, in order; when nothing matches it changes nothing. */
  lemma DeleteOneRemovesFirstMatch(docs: seq<Document>, key: string)
    ensures var (rest, n) := DeleteOne(docs, key);
      && (n == 0 ==> rest == docs)
      && (n == 1 ==> exists i :: 0 <= i < |docs| && Matches(docs[i], key)
                                 && (forall j :: 0 <= j < i ==> !Matches(docs[j], key))
                                 && rest == docs[..i] + docs[i + 1..]
                                 && multiset(docs) == multiset(rest) + multiset{docs[i]})
  {
    match FindIndex(docs, key)
    case None =>
    case Some(i) =>
      assert docs == docs[..i] + [docs[i]] + docs[i + 1..];
      assert forall j :: 0 <= j < i ==> !Matches(docs[j], key);
  }

  /** Removing one document keeps the keys unique, and in a collection with unique keys
      the deleted key is then absent. */
  lemma DeleteOneKeepsUnique(docs: seq<Document>, key: string)
    requires Unique(docs)
    ensures Unique(DeleteOne(docs, key).0)
    ensures FindOne(DeleteOne(docs, key).0, key).None?
  {
    match FindIndex(docs, key)
    case None =>
    case Some(k) =>
      var rest := docs[..k] + docs[k + 1..];
      assert forall i :: 0 <= i < |rest| ==> rest[i] == if i < k then docs[i] else docs[i + 1];
      forall i, j | 0 <= i < j < |rest| && KeyOf(rest[i]).Some?
        ensures KeyOf(rest[i]) != KeyOf(rest[j])
      {
        var i' := if i < k then i else i + 1;
        var j' := if j < k then j else j + 1;
        assert rest[i] == docs[i'] && rest[j] == docs[j'];
      }
      forall j | 0 <= j < |rest| ensures !Matches(rest[j], key) {
        var j' := if j < k then j else j + 1;
        assert rest[j] == docs[j'];
        if k < j' {
          assert KeyOf(docs[k]) != KeyOf(docs[j']);
        }
      }
  }
}
