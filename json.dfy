/** Values as Python's `json.loads` returns them, and the few things the
    core does with them: `d.get(key, default)`, truthiness, `str()`, and
    iteration with `for x in value`. Non-integer numbers are not modelled. */
module JsonValues {
  import opened Wrappers
  import opened PyStrings

  /** None, bool, int, str, list, or dict (its (key, value) pairs in order). */
  datatype Json =
    | JNull
    | JBool(b: bool)
    | JNum(n: int)
    | JStr(s: string)
    | JArr(items: seq<Json>)
    | JObj(members: seq<(string, Json)>)

  /** A decoded JSON object, as the dict Python sees. */
  type Record = seq<(string, Json)>

  /** `d[key]` if the key is present. A decoded dict keeps the last binding
      of a repeated key, so the search runs from the end. */
  function Lookup(d: Record, key: string): Option<Json> {
    if d == [] then None
    else if d[|d| - 1].0 == key then Some(d[|d| - 1].1)
    else Lookup(d[..|d| - 1], key)
  }

  /** The key is missing exactly when no pair has it; a value found is the
      value of the last pair with that key. */
  lemma {:induction false} LookupFound(d: Record, key: string)
    ensures Lookup(d, key).None? <==> forall k :: 0 <= k < |d| ==> d[k].0 != key
    ensures Lookup(d, key).Some? ==>
              exists k :: 0 <= k < |d| && d[k] == (key, Lookup(d, key).value) && (forall j :: k < j < |d| ==> d[j].0 != key)
  {
    if d != [] && d[|d| - 1].0 != key {
      var front := d[..|d| - 1];
      LookupFound(front, key);
      assert forall k :: 0 <= k < |front| ==> front[k] == d[k];
    }
  }

  /** Python's `d.get(key, default)`: a key bound to `null` gives `None`, not the default. */
  function Get(d: Record, key: string, default: Json): Json {
    Lookup(d, key).GetOr(default)
  }

  /** Python's truth value of a decoded JSON value. */
  predicate Truthy(j: Json) {
    match j
    case JNull => false
    case JBool(b) => b
    case JNum(n) => n != 0
    case JStr(s) => s != []
    case JArr(xs) => xs != []
    case JObj(m) => m != []
  }

  /** Python's `repr()` of a string, without escape sequences. */
  function Quote(s: string): string {
    "'" + s + "'"
  }

  /** Python's `str()` (and `f"{x}"`) of a decoded JSON value. */
  function Str(j: Json): string
    decreases j, 0
  {
    match j
    case JNull => "None"
    case JBool(b) => if b then "True" else "False"
    case JNum(n) => IntStr(n)
    case JStr(s) => s
    case JArr(xs) => "[" + Join(seq(|xs|, i requires 0 <= i < |xs| => Repr(xs[i])), ", ") + "]"
    case JObj(m) => "{" + Join(seq(|m|, i requires 0 <= i < |m| => Quote(m[i].0) + ": " + Repr(m[i].1)), ", ") + "}"
  }

  /** Python's `repr()` of a decoded JSON value (used inside containers). */
  function Repr(j: Json): string
    decreases j, 1
  {
    match j
    case JStr(s) => Quote(s)
    case _ => Str(j)
  }

  /** The values `for x in j` visits: a list's items, a string's characters,
      a dict's keys; `None` when Python raises `TypeError` (not iterable). */
  function Items(j: Json): (r: Option<seq<Json>>)
    ensures r.Some? <==> (j.JArr? || j.JStr? || j.JObj?)
  {
    match j
    case JArr(xs) => Some(xs)
    case JStr(s) => Some(seq(|s|, i requires 0 <= i < |s| => JStr([s[i]])))
    case JObj(m) => Some(seq(|m|, i requires 0 <= i < |m| => JStr(m[i].0)))
    case _ => None
  }
}
