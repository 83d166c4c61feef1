/** The JSON values the orchestrator reads and writes (metadata.json, the status files). */
module Json {
  import opened Wrappers

  datatype Json =
    | JNull
    | JBool(b: bool)
    | JInt(i: int)
    | JStr(s: string)
    | JArr(items: seq<Json>)
    | JObj(fields: map<string, Json>)

  /** The contents of a file as seen by `json.load`: either a document or text it cannot parse. */
  datatype FileBody = Malformed | Doc(value: Json)

  function StrList(xs: seq<string>): (r: Json)
    ensures r.JArr? && |r.items| == |xs|
    ensures forall i :: 0 <= i < |xs| ==> r.items[i] == JStr(xs[i])
  {
    JArr(seq(|xs|, i requires 0 <= i < |xs| => JStr(xs[i])))
  }

  // Readers for one field of a JSON object, as a dataclass constructor sees it: a missing key
  // takes the field's default or fails where the field has none, and a value of the wrong
  // type fails.

  function ReqString(d: map<string, Json>, k: string): Result<string> {
    if k in d && d[k].JStr? then Ok(d[k].s) else Err("invalid or missing field " + k)
  }

  function StringOr(d: map<string, Json>, k: string, default: string): Result<string> {
    if k !in d then Ok(default) else if d[k].JStr? then Ok(d[k].s) else Err("invalid field " + k)
  }

  function IntOr(d: map<string, Json>, k: string, default: int): Result<int> {
    if k !in d then Ok(default) else if d[k].JInt? then Ok(d[k].i) else Err("invalid field " + k)
  }

  function ReqInt(d: map<string, Json>, k: string): Result<int> {
    if k in d && d[k].JInt? then Ok(d[k].i) else Err("invalid or missing field " + k)
  }

  function OptStringOf(j: Json): Result<Option<string>> {
    match j
    case JNull => Ok(None)
    case JStr(s) => Ok(Some(s))
    case _ => Err("expected a string or null")
  }

  function OptString(d: map<string, Json>, k: string): Result<Option<string>> {
    if k !in d then Ok(None) else OptStringOf(d[k])
  }

  function OptIntField(d: map<string, Json>, k: string): Result<Option<int>> {
    if k !in d then Ok(None)
    else match d[k]
      case JNull => Ok(None)
      case JInt(i) => Ok(Some(i))
      case _ => Err("invalid field " + k)
  }

  function StringsOf(items: seq<Json>): (r: Option<seq<string>>)
    ensures r.Some? ==> |r.value| == |items|
    decreases |items|
  {
    if items == [] then Some([])
    else if !items[0].JStr? then None
    else match StringsOf(items[1..])
      case None => None
      case Some(rest) => Some([items[0].s] + rest)
  }

  lemma {:induction false} StringsOfStrList(xs: seq<string>)
    ensures StringsOf(StrList(xs).items) == Some(xs)
    decreases |xs|
  {
    if xs != [] {
      var items := StrList(xs).items;
      assert items[0] == JStr(xs[0]);
      assert items[1..] == StrList(xs[1..]).items;
      StringsOfStrList(xs[1..]);
      assert StringsOf(items) == Some([xs[0]] + xs[1..]);
      assert [xs[0]] + xs[1..] == xs;
    }
  }

  function OptStringList(j: Json): Result<Option<seq<string>>> {
    match j
    case JNull => Ok(None)
    case JArr(items) => (match StringsOf(items) case None => Err("expected a list of strings") case Some(xs) => Ok(Some(xs)))
    case _ => Err("expected a list or null")
  }

  function BoolOr(d: map<string, Json>, k: string, default: bool): Result<bool> {
    if k !in d then Ok(default) else if d[k].JBool? then Ok(d[k].b) else Err("invalid field " + k)
  }
}
