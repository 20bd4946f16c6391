/**
 * Python values as they travel through the request handler: parsed JSON
 * bodies, query and path strings, and converted arguments; Python dicts with
 * string keys; the exceptions the core raises; and the built-in conversions
 * `int()`, `bool()` and `str()` applied to such values.
 */
module Values {
  import opened Wrappers
  import opened PyStrings

  /** The exceptions raised inside the core. The last four are the project's
      own exception classes; the others are Python built-ins. */
  datatype Exc =
    | ValueError(msg: string)
    | TypeError
    | KeyError
    | AttributeError(name: string)
    | IndexError
    | ZeroDivisionError
    | NotImplementedError
    | ParamsValidation(msg: string)
    | ItemDoesNotExist
    | MethodIsNotAllowed
    | SerializationError

  /** A Python value of one of the kinds that reach the core. Dicts keep their
      insertion order, as Python's do. */
  datatype Value =
    | VNone
    | VBool(b: bool)
    | VInt(i: int)
    | VStr(s: string)
    | VList(items: seq<Value>)
    | VDict(entries: seq<(string, Value)>)

  /** A Python dict with string keys: its entries in insertion order. */
  type Dict = seq<(string, Value)>

  function Keys(d: Dict): set<string> {
    if d == [] then {} else {d[0].0} + Keys(d[1..])
  }

  /** No key is stored twice; every dict built by `Store` keeps this. */
  predicate UniqueKeys(d: Dict) {
    d == [] || (d[0].0 !in Keys(d[1..]) && UniqueKeys(d[1..]))
  }

  /** `d.get(k)`. */
  function Lookup(d: Dict, k: string): (r: Option<Value>)
    ensures r.Some? <==> k in Keys(d)
  {
    if d == [] then None else if d[0].0 == k then Some(d[0].1) else Lookup(d[1..], k)
  }

  /** `d[k] = v`: replaces the value in place when `k` is present, else appends. */
  function Store(d: Dict, k: string, v: Value): (r: Dict)
    ensures Keys(r) == Keys(d) + {k}
    ensures Lookup(r, k) == Some(v)
    ensures forall k' :: k' != k ==> Lookup(r, k') == Lookup(d, k')
    ensures |r| == if k in Keys(d) then |d| else |d| + 1
    ensures UniqueKeys(d) ==> UniqueKeys(r)
  {
    if d == [] then [(k, v)]
    else if d[0].0 == k then [(k, v)] + d[1..]
    else [d[0]] + Store(d[1..], k, v)
  }

  /** The value the last entry for `k` in a sequence of pairs carries. */
  function Final(e: Dict, k: string): (r: Option<Value>)
    ensures r.Some? <==> k in Keys(e)
  {
    if e == [] then None
    else if Final(e[1..], k).Some? then Final(e[1..], k)
    else if e[0].0 == k then Some(e[0].1)
    else None
  }

  /** `d.update(e)`: later pairs win, keys already present keep their place. */
  function Update(d: Dict, e: Dict): (r: Dict)
    ensures Keys(r) == Keys(d) + Keys(e)
    ensures forall k :: Lookup(r, k) == if k in Keys(e) then Final(e, k) else Lookup(d, k)
    ensures UniqueKeys(d) ==> UniqueKeys(r)
    decreases |e|
  {
    if e == [] then d else Update(Store(d, e[0].0, e[0].1), e[1..])
  }

  /** `dict(pairs)`. */
  function FromPairs(e: Dict): Dict {
    Update([], e)
  }

  /** In a dict without repeated keys, the last entry for a key is its only
      one, so `Final` and `Lookup` agree. */
  lemma {:induction false} UniqueFinal(e: Dict, k: string)
    requires UniqueKeys(e)
    ensures Final(e, k) == Lookup(e, k)
  {
    if e != [] {
      UniqueFinal(e[1..], k);
    }
  }

  /** The pairs `dict(md)` stores for a multi-valued mapping `md` such as a
      query string: one per key that `md.keys()` yields, each with `md[key]`,
      which is the value of the first entry for that key. */
  function FirstPairs(md: Dict, ks: Dict): (r: Dict)
    requires Keys(ks) <= Keys(md)
    ensures Keys(r) == Keys(ks)
    ensures forall k :: k in Keys(ks) ==> Final(r, k) == Lookup(md, k)
  {
    if ks == [] then [] else [(ks[0].0, Lookup(md, ks[0].0).value)] + FirstPairs(md, ks[1..])
  }

  /** `dict(md)` for a multi-valued mapping: every key once, holding the
      value of its first entry. */
  function FirstWins(md: Dict): (r: Dict)
    ensures Keys(r) == Keys(md)
    ensures forall k :: Lookup(r, k) == Lookup(md, k)
    ensures UniqueKeys(r)
  {
    var r := FromPairs(FirstPairs(md, md));
    forall k
      ensures Lookup(r, k) == Lookup(md, k)
    {
      if k in Keys(md) {
        UniqueFinal(r, k);
      }
    }
    r
  }

  /** In a dict without repeated keys, the number of entries is the number of keys. */
  lemma {:induction false} UniqueKeysCount(d: Dict)
    requires UniqueKeys(d)
    ensures |Keys(d)| == |d|
  {
    if d != [] {
      UniqueKeysCount(d[1..]);
    }
  }

  /** The truth value Python gives a value (`bool(v)`, `if v:`). */
  predicate Truthy(v: Value) {
    match v
    case VNone => false
    case VBool(b) => b
    case VInt(i) => i != 0
    case VStr(s) => s != ""
    case VList(items) => items != []
    case VDict(entries) => entries != []
  }

  /** Values usable as dict keys and frozenset members. */
  predicate Hashable(v: Value) {
    !v.VList? && !v.VDict?
  }

  /** `int(v)`: strings are parsed in base 10, booleans count as 0 and 1, and
      the other kinds raise `TypeError`. */
  function IntOf(v: Value): (r: Result<int, Exc>)
    ensures r.Failure? ==> r.error.TypeError? || r.error.ValueError?
    ensures v.VInt? ==> r == Success(v.i)
  {
    match v
    case VBool(b) => Success(if b then 1 else 0)
    case VInt(i) => Success(i)
    case VStr(s) =>
      (match IntOfStr(s)
       case Some(i) => Success(i)
       case None => Failure(ValueError("invalid literal for int() with base 10: " + Repr(v))))
    case _ => Failure(TypeError)
  }

  /** `str(v)`. */
  function ToStr(v: Value): string
    decreases v, 3
  {
    match v
    case VNone => "None"
    case VBool(b) => if b then "True" else "False"
    case VInt(i) => Decimal(i)
    case VStr(s) => s
    case VList(items) => "[" + ReprItems(v, 0) + "]"
    case VDict(entries) => "{" + ReprItems(v, 0) + "}"
  }

  /** `repr(v)`: strings quoted, everything else as `str`. */
  function Repr(v: Value): string
    decreases v, 4
  {
    if v.VStr? then "'" + v.s + "'" else ToStr(v)
  }

  /** The comma-separated elements of a list, or `key: value` items of a dict,
      from position `i` on. */
  function ReprItems(p: Value, i: nat): string
    requires p.VList? || p.VDict?
    decreases p, 2, (if p.VList? then |p.items| else |p.entries|) - i
  {
    var n := if p.VList? then |p.items| else |p.entries|;
    if i >= n then ""
    else if p.VList? then (if i > 0 then ", " else "") + Repr(p.items[i]) + ReprItems(p, i + 1)
    else (if i > 0 then ", " else "") + "'" + p.entries[i].0 + "': " + Repr(p.entries[i].1) + ReprItems(p, i + 1)
  }

  /** `str(i)` parses back with `int()`, for every integer. */
  lemma IntOfToStr(i: int)
    ensures IntOf(VStr(ToStr(VInt(i)))) == Success(i)
  {
    var s := ToStr(VInt(i));
    assert s == Decimal(i);
    DecimalRoundTrip(i);
    assert IntOfStr(s) == Some(i);
  }
}
