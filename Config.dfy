/**
 * The part of Bukkit's configuration API the plugin reads and writes. A document is
 * the map from each stored dotted path (`worlds.world.radius`) to its value; a section
 * exists at a path when a `Section` is stored there or any stored path lies below it.
 */
module Config {
  import opened Wrappers
  import opened Text

  /** A YAML floating-point value: its exact value and the text `Double.toString` gives for it. */
  datatype Decimal = Decimal(value: real, text: string)

  datatype Value =
    | Str(s: string)
    | Int(i: int)
    | Bool(b: bool)
    | Dbl(d: Decimal)
    | Section

  type Document = map<string, Value>

  /** `path` names a strict descendant of `parent`. */
  predicate IsBelow(path: string, parent: string) {
    StartsWith(path, parent + ".")
  }

  /** `contains(path)`: a value or a section is present at `path`. */
  predicate ContainsPath(doc: Document, path: string) {
    path in doc || exists k :: k in doc && IsBelow(k, path)
  }

  /** `getConfigurationSection(path) != null`: what is at `path` is a section, not a plain value. */
  predicate IsSection(doc: Document, path: string) {
    ContainsPath(doc, path) && (path in doc ==> doc[path].Section?)
  }

  /** `val.toString()` for the scalar values; a section has no string form in this model. */
  function AsString(v: Value): (r: Option<string>)
    ensures r.None? <==> v.Section?
    ensures v.Str? ==> r == Some(v.s)
  {
    match v
    case Str(s) => Some(s)
    case Int(n) => Some(IntToString(n))
    case Bool(b) => Some(BoolToString(b))
    case Dbl(d) => Some(d.text)
    case Section => None
  }

  /** `getString(path, def)`, where `def` may be null. */
  function GetStringOr(doc: Document, path: string, def: Option<string>): (r: Option<string>)
    ensures path !in doc ==> r == def
    ensures path in doc && doc[path].Str? ==> r == Some(doc[path].s)
    ensures r.None? ==> def.None?
  {
    if path in doc && AsString(doc[path]).Some? then AsString(doc[path]) else def
  }

  /** `getString(path, def)` with a non-null default never yields null. */
  function GetString(doc: Document, path: string, def: string): (r: string)
    ensures path !in doc ==> r == def
    ensures path in doc && doc[path].Str? ==> r == doc[path].s
  {
    GetStringOr(doc, path, Some(def)).value
  }

  /** Truncation toward zero. */
  function TruncateToInt(x: real): (r: int)
    ensures x >= 0.0 ==> 0 <= r && r as real <= x < r as real + 1.0
    ensures x < 0.0 ==> r <= 0 && r as real - 1.0 < x <= r as real
  {
    if x >= 0.0 then x.Floor else -((-x).Floor)
  }

  /** Java's `(int)` cast of a double: truncation toward zero, saturating at the bounds of `int`. */
  function DoubleToInt(x: real): (r: int)
    ensures InIntRange(r)
    ensures x >= INT_MAX as real ==> r == INT_MAX
    ensures x <= INT_MIN as real ==> r == INT_MIN
    ensures INT_MIN as real < x < INT_MAX as real ==> r == TruncateToInt(x)
  {
    if x >= INT_MAX as real then INT_MAX
    else if x <= INT_MIN as real then INT_MIN
    else TruncateToInt(x)
  }

  const INT_MODULUS: int := 0x1_0000_0000

  /** `intValue()` of a whole number (`Integer`, `Long` or `BigInteger`): its low 32 bits, read as a
    * signed `int`. */
  function WrapInt(n: int): (r: int)
    ensures InIntRange(r)
    ensures (r - n) % INT_MODULUS == 0
    ensures InIntRange(n) ==> r == n
  {
    (n - INT_MIN) % INT_MODULUS + INT_MIN
  }

  /** `getInt(path, def)`: a stored number's `intValue()`; anything else gives the default. */
  function GetInt(doc: Document, path: string, def: int): (r: int)
    ensures path !in doc ==> r == def
    ensures path in doc && doc[path].Int? ==> InIntRange(r) && (r - doc[path].i) % INT_MODULUS == 0
    ensures path in doc && doc[path].Int? && InIntRange(doc[path].i) ==> r == doc[path].i
    ensures path in doc && doc[path].Dbl? ==> r == DoubleToInt(doc[path].d.value)
    ensures path in doc && !doc[path].Int? && !doc[path].Dbl? ==> r == def
    ensures InIntRange(def) ==> InIntRange(r)
  {
    if path !in doc then def
    else match doc[path]
      case Int(n) => WrapInt(n)
      case Dbl(d) => DoubleToInt(d.value)
      case _ => def
  }

  /** `getBoolean(path, def)`: only a stored boolean overrides the default. */
  function GetBoolean(doc: Document, path: string, def: bool): (r: bool)
    ensures r != def ==> path in doc && doc[path] == Bool(r)
    ensures path in doc && doc[path].Bool? ==> r == doc[path].b
  {
    if path in doc && doc[path].Bool? then doc[path].b else def
  }

  /** `getDouble(path, def)`: a stored double, or a stored integer widened to a double. */
  function GetDouble(doc: Document, path: string, def: Decimal): (r: Decimal)
    ensures path !in doc ==> r == def
    ensures path in doc && doc[path].Dbl? ==> r == doc[path].d
    ensures path in doc && doc[path].Int? ==> r.value == doc[path].i as real
  {
    if path !in doc then def
    else match doc[path]
      case Dbl(d) => d
      case Int(n) => Decimal(n as real, IntToString(n) + ".0")
      case _ => def
  }

  /** `set(path, value)`. */
  function SetPath(doc: Document, path: string, v: Value): (r: Document)
    ensures path in r && r[path] == v
    ensures forall k :: k in doc && k != path ==> k in r && r[k] == doc[k]
    ensures r.Keys == doc.Keys + {path}
  {
    doc[path := v]
  }
}
