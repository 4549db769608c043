/**
 * Decoded JSON values and Python dictionaries of them, as the agents and
 * orchestrators pass them around.
 */
module Json {
  import opened Text

  datatype Value =
    | JNull
    | JBool(b: bool)
    | JNum(x: real)
    | JStr(s: string)
    | JArr(items: seq<Value>)
    | JObj(fields: map<string, Value>)

  /** A Python dict with string keys (an article, a task, a response body). */
  type Doc = map<string, Value>

  /** Python truthiness: None, False, 0, "", [] and {} are false. */
  predicate JTruthy(v: Value)
  {
    match v
    case JNull => false
    case JBool(b) => b
    case JNum(x) => x != 0.0
    case JStr(s) => s != ""
    case JArr(items) => items != []
    case JObj(fields) => fields != map[]
  }

  /** `d.get(key, default)`. */
  function Get(d: Doc, key: string, default: Value): (v: Value)
    ensures key in d ==> v == d[key]
    ensures key !in d ==> v == default
  {
    if key in d then d[key] else default
  }

  /** `str(v)` inside an f-string: exact for strings, None, booleans and whole
      numbers; other values get a fixed placeholder. */
  function Show(v: Value): string
  {
    match v
    case JNull => "None"
    case JBool(b) => if b then "True" else "False"
    case JNum(x) => if x == x.Floor as real then IntToString(x.Floor) else "<float>"
    case JStr(s) => s
    case JArr(_) => "<list>"
    case JObj(_) => "<dict>"
  }

  /** `str` of a list value, the items shown by `repr`: strings are quoted
      (without escaping), lists nest, the rest are shown as by `Show`. */
  function Repr(v: Value): string
  {
    match v
    case JStr(s) => "'" + s + "'"
    case JArr(items) => "[" + Join(", ", seq(|items|, i requires 0 <= i < |items| => Repr(items[i]))) + "]"
    case _ => Show(v)
  }

  /** The name Python gives the type of a decoded value (`type(v).__name__`). */
  function TypeName(v: Value): string
  {
    match v
    case JNull => "NoneType"
    case JBool(_) => "bool"
    case JNum(x) => if x == x.Floor as real then "int" else "float"
    case JStr(_) => "str"
    case JArr(_) => "list"
    case JObj(_) => "dict"
  }

  function IntToString(i: int): string
  {
    if i < 0 then "-" + NatToString(-i) else NatToString(i)
  }

  /** The objects of a JSON list, in order (other items are dropped). */
  function Docs(v: Value): (r: seq<Doc>)
    ensures v.JArr? && (forall i :: 0 <= i < |v.items| ==> v.items[i].JObj?) ==>
      |r| == |v.items| && forall i :: 0 <= i < |r| ==> r[i] == v.items[i].fields
  {
    if !v.JArr? then []
    else DocsOf(v.items)
  }

  function DocsOf(items: seq<Value>): (r: seq<Doc>)
    ensures (forall i :: 0 <= i < |items| ==> items[i].JObj?) ==>
      |r| == |items| && forall i :: 0 <= i < |r| ==> r[i] == items[i].fields
  {
    if items == [] then []
    else (if items[0].JObj? then [items[0].fields] else []) + DocsOf(items[1..])
  }

  /** A list of objects. */
  function DocList(ds: seq<Doc>): (v: Value)
    ensures v.JArr? && |v.items| == |ds|
    ensures forall i :: 0 <= i < |ds| ==> v.items[i] == JObj(ds[i])
    ensures JTruthy(v) <==> ds != []
  {
    JArr(seq(|ds|, i requires 0 <= i < |ds| => JObj(ds[i])))
  }

  /** Reading back a list of objects gives the objects. */
  lemma DocsOfDocList(ds: seq<Doc>)
    ensures Docs(DocList(ds)) == ds
  {
    var v := DocList(ds);
    assert forall i :: 0 <= i < |v.items| ==> v.items[i].JObj?;
  }
}
