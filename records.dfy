/**
 * The loosely typed values the recommender reads from the document store and keeps
 * in its candidate dictionaries, with Python's conversions on them.
 */
module Records {

  import opened Wrappers
  import opened Text

  /** A stored attribute value: None, an int, a float, a string or a vector of floats. */
  datatype Value = Null | Int(i: int) | Real(r: real) | Str(s: string) | Vec(v: seq<real>)

  /** Python truthiness: None, 0, 0.0, "" and [] are false. */
  predicate Truthy(v: Value)
  {
    match v
    case Null => false
    case Int(i) => i != 0
    case Real(r) => r != 0.0
    case Str(s) => s != []
    case Vec(xs) => xs != []
  }

  /** `float(v)`; None where Python raises (None, a list, a string; see README). */
  function ToFloat(v: Value): (r: Option<real>)
    ensures r.Some? <==> v.Int? || v.Real?
    ensures v.Int? ==> r == Some(v.i as real)
    ensures v.Real? ==> r == Some(v.r)
  {
    match v
    case Int(i) => Some(i as real)
    case Real(x) => Some(x)
    case _ => None
  }

  /** `int(x)` truncates a float toward zero: the integer part, without the fraction. */
  function Truncate(x: real): (r: int)
    ensures x >= 0.0 ==> 0 <= r && (r as real) <= x < (r as real) + 1.0
    ensures x < 0.0 ==> r <= 0 && (r as real) - 1.0 < x <= (r as real)
  {
    if x >= 0.0 then x.Floor else -((-x).Floor)
  }

  /** `int(v)`; None where Python raises. */
  function IntOf(v: Value): (r: Option<int>)
    ensures v.Int? ==> r == Some(v.i)
    ensures v.Real? ==> r == Some(Truncate(v.r))
    ensures v.Str? ==> r == ParseInt(v.s)
    ensures v.Null? || v.Vec? ==> r == None
  {
    match v
    case Int(i) => Some(i)
    case Real(x) => Some(Truncate(x))
    case Str(s) => ParseInt(s)
    case _ => None
  }

  /** `f"{v}"` for the values that are rendered in the location test. */
  function Display(v: Value): string
  {
    match v
    case Null => "None"
    case Int(i) => IntToString(i)
    case Str(s) => s
    case _ => ""
  }

  /** `d.get(k)`: the value, or None when the key is missing. */
  function Get(d: map<string, Value>, k: string): (r: Value)
    ensures k !in d ==> r == Null
  {
    if k in d then d[k] else Null
  }

  /** `d.get(k, default)`. */
  function GetOr(d: map<string, Value>, k: string, default: Value): (r: Value)
    ensures k in d ==> r == d[k]
    ensures k !in d ==> r == default
  {
    if k in d then d[k] else default
  }

  /** `float(v or 0)`: a falsy value counts as 0.0; None where float() raises. */
  function RatingOf(v: Value): (r: Option<real>)
    ensures !Truthy(v) ==> r == Some(0.0)
    ensures v.Int? ==> r == Some(v.i as real)
    ensures v.Real? ==> r == Some(v.r)
    ensures Truthy(v) && !(v.Int? || v.Real?) ==> r == None
  {
    if Truthy(v) then ToFloat(v) else Some(0.0)
  }

  /** A theme document: the store's document key and its attribute map. */
  datatype ThemeDoc = ThemeDoc(id: string, data: map<string, Value>)

  /** A user document: nickname, the `played` array (missing = []) and the optional taste vector. */
  datatype User = User(nickname: string, played: seq<Value>, embedding: Value)

  /** An element of an exclusion set: ints and strings are distinct Python values. */
  datatype Id = IntId(n: int) | StrId(s: string)

  /** A candidate view is a Python dict from field names to values. */
  type Candidate = map<string, Value>

  /**
   * The filters dict handed to the recommenders: `{}`, or the three fields the intent
   * supplies (`location` None when missing or null).
   */
  datatype Filters = NoFilters | Filters(location: Option<string>, keywords: seq<string>, mentionedUsers: seq<string>)

  /** `filters.get('location')` when it is truthy: the only criterion the searches apply. */
  function LocationOf(f: Filters): (r: Option<string>)
    ensures r.Some? ==> r.value != [] && f.Filters? && r == f.location
    ensures f.Filters? && f.location.Some? && f.location.value != [] ==> r == f.location
    ensures f.NoFilters? ==> r == None
  {
    if f.Filters? && f.location.Some? && f.location.value != [] then f.location else None
  }
}
