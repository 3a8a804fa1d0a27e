/**
 * The dashboard's entities are plain JavaScript objects read from and written to
 * the REST API. A record is a map from property name to value; a property that
 * is not in the map reads as `undefined`.
 */
module Records {
  import opened Base
  import opened Text

  /** The property values the dashboard stores or compares. `NaN` is what
      `parseInt` gives on text without digits. */
  datatype Value = Str(text: string) | Int(n: int) | Bool(b: bool) | Strings(items: seq<string>) | Null | NaN

  type Record = map<string, Value>

  /** `r[k]`: `None` is `undefined`. */
  function Get(r: Record, k: string): Option<Value> {
    if k in r then Some(r[k]) else None
  }

  /** JavaScript truthiness of a property value. */
  predicate Truthy(v: Option<Value>) {
    match v
    case None => false
    case Some(Str(t)) => t != ""
    case Some(Int(n)) => n != 0
    case Some(Bool(b)) => b
    case Some(Strings(_)) => true
    case Some(Null) => false
    case Some(NaN) => false
  }

  /** `v || fallback`. */
  function Or(v: Option<Value>, fallback: Value): (r: Value)
    ensures Truthy(v) ==> Some(r) == v
    ensures !Truthy(v) ==> r == fallback
  {
    if Truthy(v) then v.value else fallback
  }

  /** `String(v)`: what a template literal or `FormData.append` makes of a value. */
  function ToText(v: Option<Value>): (t: string)
    ensures v.Some? && v.value.Str? ==> t == v.value.text
    ensures v.Some? && v.value.Int? ==> ParseInt(t) == Some(v.value.n)
  {
    match v
    case None => "undefined"
    case Some(Str(t)) => t
    case Some(Int(n)) => ParseIntOfIntToString(n); IntToString(n)
    case Some(Bool(b)) => if b then "true" else "false"
    case Some(Strings(items)) => Join(items, ',')
    case Some(Null) => "null"
    case Some(NaN) => "NaN"
  }

  /** `parseInt(v)` on a value, through its text. */
  function ParseIntValue(v: Option<Value>): (r: Value)
    ensures r.Int? || r.NaN?
  {
    match ParseInt(ToText(v))
    case Some(n) => Int(n)
    case None => NaN
  }

  /** `parseInt` gives back an integer property unchanged. */
  lemma ParseIntValueOfInt(n: int)
    ensures ParseIntValue(Some(Int(n))) == Int(n)
  {
    ParseIntOfIntToString(n);
  }

  /** `{ ...base, ...over }`: every key of `over` overrides, every other key of
      `base` is kept. */
  function Spread(base: Record, over: Record): (r: Record)
    ensures r.Keys == base.Keys + over.Keys
    ensures forall k :: k in over ==> Get(r, k) == Get(over, k)
    ensures forall k :: k !in over ==> Get(r, k) == Get(base, k)
  {
    base + over
  }

  /** `{ ...r, [k]: v }`: what a form's `handleChange` makes of its draft. */
  function Assign(r: Record, k: string, v: Value): (r': Record)
    ensures r'.Keys == r.Keys + {k}
    ensures Get(r', k) == Some(v)
    ensures forall j :: j != k ==> Get(r', j) == Get(r, j)
  {
    r[k := v]
  }

  /** A form entry as `FormData.append(name, value)` stores it. */
  datatype Entry = Entry(name: string, value: string)

  function Names(entries: seq<Entry>): seq<string> {
    seq(|entries|, i requires 0 <= i < |entries| => entries[i].name)
  }
}
