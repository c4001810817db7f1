/** The JSON documents that records are turned into (`to_dict`) and read
    back from (`from_dict`), and the generic list codecs the managers use. */
module Json {
  import opened Results

  /** The JSON values the shop's documents are made of. */
  datatype Json =
    | JStr(str: string)
    | JInt(num: int)
    | JArr(elems: seq<Json>)
    | JObj(fields: map<string, Json>)

  /** Why a document could not be read back into a record: subscripting
      something that is not a dictionary, a missing key (Python's KeyError),
      a value of the wrong kind, or a value that cannot be iterated. */
  datatype DecodeError =
    | NotAnObject
    | MissingKey(key: string)
    | WrongType(key: string)
    | NotAList

  /** `data[key]`. */
  function Field(doc: Json, key: string): Result<Json, DecodeError> {
    if !doc.JObj? then Err(NotAnObject)
    else if key in doc.fields then Ok(doc.fields[key])
    else Err(MissingKey(key))
  }

  /** `data.get(key, default)`. */
  function FieldOr(doc: Json, key: string, default: Json): Result<Json, DecodeError> {
    if !doc.JObj? then Err(NotAnObject)
    else if key in doc.fields then Ok(doc.fields[key])
    else Ok(default)
  }

  function AsStr(v: Json, key: string): Result<string, DecodeError> {
    if v.JStr? then Ok(v.str) else Err(WrongType(key))
  }

  function AsInt(v: Json, key: string): Result<int, DecodeError> {
    if v.JInt? then Ok(v.num) else Err(WrongType(key))
  }

  function StrField(doc: Json, key: string): Result<string, DecodeError> {
    var v :- Field(doc, key);
    AsStr(v, key)
  }

  function IntField(doc: Json, key: string): Result<int, DecodeError> {
    var v :- Field(doc, key);
    AsInt(v, key)
  }

  /** What `for x in doc` visits. A list yields its elements. An empty
      dictionary or an empty string yields nothing. A non-empty dictionary
      yields its keys and a non-empty string its characters, and every
      record reader fails on a string, so those documents are refused here.
      A number cannot be iterated at all. */
  function Elements(doc: Json): (r: Result<seq<Json>, DecodeError>)
    ensures doc.JArr? ==> r == Ok(doc.elems)
    ensures doc.JInt? ==> r.Err?
    ensures r.Ok? && !doc.JArr? ==> r.value == []
  {
    match doc
    case JArr(elems) => Ok(elems)
    case JObj(fields) => if fields == map[] then Ok([]) else Err(NotAnObject)
    case JStr(s) => if s == "" then Ok([]) else Err(NotAnObject)
    case JInt(_) => Err(NotAList)
  }

  /** `[encode(x) for x in xs]`. */
  function EncodeAll<T>(xs: seq<T>, encode: T -> Json): (r: seq<Json>)
    ensures |r| == |xs|
  {
    if xs == [] then [] else [encode(xs[0])] + EncodeAll(xs[1..], encode)
  }

  lemma {:induction false} EncodeAllAt<T>(xs: seq<T>, encode: T -> Json, i: nat)
    requires i < |xs|
    ensures EncodeAll(xs, encode)[i] == encode(xs[i])
  {
    if i > 0 {
      EncodeAllAt(xs[1..], encode, i - 1);
    }
  }

  /** `[decode(d) for d in docs]`: the first element that cannot be read
      aborts the whole list. */
  function DecodeAll<T>(docs: seq<Json>, decode: Json -> Result<T, DecodeError>): (r: Result<seq<T>, DecodeError>)
    ensures r.Ok? <==> forall i :: 0 <= i < |docs| ==> decode(docs[i]).Ok?
    ensures r.Ok? ==> |r.value| == |docs|
    ensures r.Ok? ==> forall i :: 0 <= i < |docs| ==> decode(docs[i]) == Ok(r.value[i])
  {
    if docs == [] then Ok([])
    else
      var x :- decode(docs[0]);
      var xs :- DecodeAll(docs[1..], decode);
      assert forall i :: 1 <= i < |docs| ==> docs[i] == docs[1..][i - 1];
      Ok([x] + xs)
  }

  /** Reading back a list that was written out element by element gives the
      same list, provided each element reads back as itself. */
  lemma {:induction false} DecodeEncodeAll<T>(xs: seq<T>, encode: T -> Json, decode: Json -> Result<T, DecodeError>)
    requires forall i :: 0 <= i < |xs| ==> decode(encode(xs[i])) == Ok(xs[i])
    ensures DecodeAll(EncodeAll(xs, encode), decode) == Ok(xs)
  {
    var docs := EncodeAll(xs, encode);
    var r := DecodeAll(docs, decode);
    forall i | 0 <= i < |xs|
      ensures decode(docs[i]).Ok?
    {
      EncodeAllAt(xs, encode, i);
    }
    assert r.Ok?;
    forall i | 0 <= i < |xs|
      ensures r.value[i] == xs[i]
    {
      EncodeAllAt(xs, encode, i);
      assert decode(docs[i]) == Ok(r.value[i]);
    }
    assert r.value == xs;
  }
}
