/** The values the assistant keeps in its memory: what Python's `json` module
    reads and writes (None, booleans, integers, floats, strings, lists and
    dicts with string keys), and how a value becomes text in the store and
    text becomes a value again. */
module PyValues {
  import opened Prelude
  import opened Dicts

  /** A Python value of the JSON kind. Floats are modelled as reals. */
  datatype PyValue =
    | PNone
    | PBool(b: bool)
    | PInt(i: int)
    | PFloat(r: real)
    | PStr(s: string)
    | PList(items: seq<PyValue>)
    | PDict(d: Dict<PyValue>)

  /** Python truthiness: `bool(v)`. */
  predicate Truthy(v: PyValue)
  {
    match v
    case PNone => false
    case PBool(b) => b
    case PInt(i) => i != 0
    case PFloat(r) => r != 0.0
    case PStr(s) => s != ""
    case PList(items) => items != []
    case PDict(d) => d.Size() > 0
  }

  /** `isinstance(v, (dict, list))` */
  predicate IsStructured(v: PyValue)
  {
    v.PList? || v.PDict?
  }

  /** A value built from None, booleans, integers, strings, lists and
      well-formed dicts only: no float anywhere inside it. `json.dumps` writes
      such a value and `json.loads` reads back exactly that value, dict key
      order included. */
  ghost predicate FloatFree(v: PyValue)
    decreases v
  {
    match v
    case PFloat(_) => false
    case PList(items) => forall i :: 0 <= i < |items| ==> FloatFree(items[i])
    case PDict(d) => d.Valid() && forall k :: k in d.vals ==> FloatFree(d.vals[k])
    case _ => true
  }

  /** The JSON library and Python's `str()`, taken as given: `dumps` and `loads`
      are `json.dumps` and `json.loads` (`None` where `loads` raises), `str` is
      `str()`, and `dumpable` marks the values `json.dumps` writes and `json.loads`
      reads back unchanged (every value built from strings, integers, booleans,
      None, lists and dicts, and the floats that print exactly). */
  datatype JsonCodec = JsonCodec(
    dumps: PyValue -> string,
    loads: string -> Option<PyValue>,
    str: PyValue -> string,
    dumpable: PyValue -> bool)

  /** What the model relies on from the library: a JSON round trip for the
      values it can write, every float-free value among them, and `str()` of
      a string being that string. */
  ghost predicate Lawful(c: JsonCodec)
  {
    && (forall v :: c.dumpable(v) ==> c.loads(c.dumps(v)) == Some(v))
    && (forall v :: FloatFree(v) ==> c.dumpable(v))
    && (forall s :: c.str(PStr(s)) == s)
  }

  /** The text `save_memory` writes to the value column: JSON for a dict or a
      list, `str(value)` for anything else. */
  function Encode(c: JsonCodec, v: PyValue): (text: string)
    ensures Lawful(c) && IsStructured(v) && c.dumpable(v) ==> c.loads(text) == Some(v)
    ensures Lawful(c) && v.PStr? ==> text == v.s
  {
    if IsStructured(v) then c.dumps(v) else c.str(v)
  }

  /** What `load_memory` makes of a stored text: the parsed JSON when the text
      parses, the text itself when `json.loads` raises. */
  function Decode(c: JsonCodec, text: string): (v: PyValue)
    ensures c.loads(text).Some? ==> c.loads(text) == Some(v)
    ensures c.loads(text).None? ==> v == PStr(text)
  {
    match c.loads(text)
    case Some(v) => v
    case None => PStr(text)
  }

  /** The value a fresh instance reads back for a value saved by another one.
      Dicts and lists come back unchanged, every float-free one among them; a string comes back unchanged only
      when it is not itself valid JSON, otherwise as the value it spells. */
  function Reloaded(c: JsonCodec, v: PyValue): (r: PyValue)
    requires Lawful(c)
    ensures IsStructured(v) && c.dumpable(v) ==> r == v
    ensures IsStructured(v) && FloatFree(v) ==> r == v
    ensures v.PStr? && c.loads(v.s) == None ==> r == v
    ensures v.PStr? && c.loads(v.s) != None ==> r == c.loads(v.s).value
  {
    Decode(c, Encode(c, v))
  }
}
