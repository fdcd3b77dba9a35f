/** JSON values, and their text form as a pair of functions with a decode law. */
module Json {
  import opened Wrappers

  datatype Value =
    | Null
    | Text(text: string)
    | Number(number: int)
    | Flag(flag: bool)
    | List(items: seq<Value>)
    | Object(fields: map<string, Value>)

  datatype Codec = Codec(encode: Value -> string, decode: string -> Option<Value>)

  /** What `json.dumps` and `json.loads` promise each other. */
  ghost predicate Lossless(codec: Codec) {
    forall v :: codec.decode(codec.encode(v)) == Some(v) && codec.encode(v) != ""
  }

  function TextAt(v: Value, key: string): Option<string> {
    if v.Object? && key in v.fields && v.fields[key].Text? then Some(v.fields[key].text) else None
  }

  function NumberAt(v: Value, key: string): Option<int> {
    if v.Object? && key in v.fields && v.fields[key].Number? then Some(v.fields[key].number) else None
  }

  function Member(v: Value, key: string): Option<Value> {
    if v.Object? && key in v.fields then Some(v.fields[key]) else None
  }

  function Texts(items: seq<Value>): Option<seq<string>> {
    if items == [] then Some([])
    else if !items[0].Text? || Texts(items[1..]).None? then None
    else Some([items[0].text] + Texts(items[1..]).value)
  }

  function OfTexts(texts: seq<string>): (items: seq<Value>)
    ensures |items| == |texts|
  {
    if texts == [] then [] else [Text(texts[0])] + OfTexts(texts[1..])
  }

  lemma {:induction false} TextsOfTexts(texts: seq<string>)
    ensures Texts(OfTexts(texts)) == Some(texts)
  {
    if texts != [] {
      TextsOfTexts(texts[1..]);
      assert OfTexts(texts)[1..] == OfTexts(texts[1..]);
      assert [texts[0]] + texts[1..] == texts;
    }
  }

  lemma {:induction false} TextsLength(items: seq<Value>)
    ensures Texts(items).Some? ==> |Texts(items).value| == |items|
  {
    if items != [] { TextsLength(items[1..]); }
  }
}
