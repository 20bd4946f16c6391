/**
 * Binding the arguments of a request to an operation's declared parameters:
 * every supplied key must be a parameter, every parameter without a default
 * must be supplied, defaults fill the rest, and each value whose type is not
 * the declared one is passed through that type's constructor.
 */
module ParamBinder {
  import opened Wrappers
  import opened PyStrings
  import opened Values
  import opened BaseResource
  import RestycornTypes

  /** The names of the declared parameters. */
  function Names(sig: Signature): (names: set<string>)
    ensures forall i :: 0 <= i < |sig| ==> sig[i].name in names
    ensures forall n :: n in names ==> exists i :: 0 <= i < |sig| && sig[i].name == n
  {
    if sig == [] then {} else {sig[0].name} + Names(sig[1..])
  }

  function NotAllowedMessage(key: string): string {
    "key \"" + key + "\" is not allowed here"
  }

  function RequiredMessage(name: string): string {
    "param \"" + name + "\" is required"
  }

  /** How Python formats the annotation, as `str(type)` does. */
  function KindName(k: Kind): string {
    match k
    case KStr => "<class 'str'>"
    case KUInt => "<class 'restycorn.restycorn_types.uint'>"
    case KBool => "<class 'bool'>"
    case KList => "<class 'list'>"
    case KDict => "<class 'dict'>"
  }

  function ConvertMessage(key: string, k: Kind): string {
    "key \"" + key + "\" should be \"" + KindName(k) + "\" or type convertible to \"" + KindName(k) + "\""
  }

  /** `type(v) is annotation`: no incoming value is already a `uint`. */
  predicate IsExactly(k: Kind, v: Value) {
    match k
    case KStr => v.VStr?
    case KUInt => false
    case KBool => v.VBool?
    case KList => v.VList?
    case KDict => v.VDict?
  }

  /** What a value of the declared kind looks like after conversion. */
  predicate HasKind(k: Kind, v: Value) {
    match k
    case KStr => v.VStr?
    case KUInt => v.VInt? && v.i >= 0
    case KBool => v.VBool?
    case KList => v.VList?
    case KDict => v.VDict?
  }

  const WrongLength := "dictionary update sequence element has the wrong length"

  /** The single-character strings of `s`, as iterating a `str` yields them. */
  function Chars(s: string): (r: seq<Value>)
    ensures |r| == |s|
    ensures forall i :: 0 <= i < |s| ==> r[i] == VStr([s[i]])
  {
    if s == [] then [] else [VStr([s[0]])] + Chars(s[1..])
  }

  /** The keys of a dict, as iterating it yields them. */
  function KeyValues(e: seq<(string, Value)>): (r: seq<Value>)
    ensures |r| == |e|
    ensures forall i :: 0 <= i < |e| ==> r[i] == VStr(e[i].0)
  {
    if e == [] then [] else [VStr(e[0].0)] + KeyValues(e[1..])
  }

  /** The items iterating a value yields: the characters of a `str`, the
      elements of a `list`, the keys of a `dict`; other values are not
      iterable. */
  function Iterated(v: Value): Option<seq<Value>> {
    match v
    case VStr(s) => Some(Chars(s))
    case VList(xs) => Some(xs)
    case VDict(e) => Some(KeyValues(e))
    case _ => None
  }

  /** One element of the sequence given to `dict()`: it must itself be a
      sequence of exactly two items, key then value. */
  function DictPair(item: Value): (r: Result<(string, Value), Exc>)
    ensures r.Failure? ==> r.error == TypeError || r.error == ValueError(WrongLength)
    ensures r.Success? <==>
      Iterated(item).Some? && |Iterated(item).value| == 2 && Hashable(Iterated(item).value[0])
    ensures r.Success? ==> r.value == (ToStr(Iterated(item).value[0]), Iterated(item).value[1])
  {
    match item
    case VStr(s) => if |s| == 2 then Success(([s[0]], VStr([s[1]]))) else Failure(ValueError(WrongLength))
    case VList(xs) =>
      if |xs| != 2 then Failure(ValueError(WrongLength))
      else if !Hashable(xs[0]) then Failure(TypeError)
      else if xs[0].VStr? then Success((xs[0].s, xs[1]))
      else Success((ToStr(xs[0]), xs[1]))
    case VDict(e) => if |e| == 2 then Success((e[0].0, VStr(e[1].0))) else Failure(ValueError(WrongLength))
    case _ => Failure(TypeError)
  }

  /** The constructor of the declared type applied to a value: `str(v)`,
      `uint(v)`, `bool(v)`, `list(v)` or `dict(v)`. */
  function Convert(k: Kind, v: Value): (r: Result<Value, Exc>)
    ensures r.Success? ==> HasKind(k, r.value)
    ensures r.Failure? ==> r.error.TypeError? || r.error.ValueError?
    ensures k.KStr? ==> r == Success(VStr(ToStr(v)))
    ensures k.KBool? ==> r == Success(VBool(Truthy(v)))
    ensures k.KUInt? ==> r.Success? == RestycornTypes.New(v).Success?
    ensures k.KUInt? && r.Success? ==> r.value == VInt(RestycornTypes.New(v).value)
    ensures k.KList? ==> (r.Success? <==> Iterated(v).Some?)
    ensures k.KList? && r.Success? ==> r.value == VList(Iterated(v).value)
  {
    match k
    case KStr => Success(VStr(ToStr(v)))
    case KUInt =>
      var u :- RestycornTypes.New(v);
      Success(VInt(u))
    case KBool => Success(VBool(Truthy(v)))
    case KList =>
      (match v
       case VList(_) => Success(v)
       case VStr(s) => Success(VList(Chars(s)))
       case VDict(e) => Success(VList(KeyValues(e)))
       case _ => Failure(TypeError))
    case KDict =>
      (match v
       case VDict(_) => Success(v)
       case VStr(s) => if s == "" then Success(VDict([])) else Failure(ValueError(WrongLength))
       case VList(items) =>
         MapResultsEach(DictPair, items);
         var pairs :- MapResults(DictPair, items);
         Success(VDict(FromPairs(pairs)))
       case _ => Failure(TypeError))
  }

  /** The coercion step for one bound argument: skipped without an annotation,
      for a `None` value whose default is `None`, and for a value already of the
      declared type; a `ValueError` from the constructor becomes a validation
      error naming the key, any other exception passes through. */
  function Coerce(p: Param, v: Value): (r: Result<Value, Exc>)
    ensures p.kind.None? ==> r == Success(v)
    ensures p.kind.Some? && r.Success? ==> HasKind(p.kind.value, r.value) || (p.default == Some(VNone) && r.value == VNone)
    ensures p.kind.Some? && (IsExactly(p.kind.value, v) || (p.default == Some(VNone) && v == VNone)) ==> r == Success(v)
    ensures p.kind.Some? && Convert(p.kind.value, v).Success? && !(p.default == Some(VNone) && v == VNone) && !IsExactly(p.kind.value, v) ==>
      r == Convert(p.kind.value, v)
    ensures p.kind.Some? && Convert(p.kind.value, v).Failure? && !(p.default == Some(VNone) && v == VNone) && !IsExactly(p.kind.value, v) ==>
      r == Failure(if Convert(p.kind.value, v).error.ValueError? then ParamsValidation(ConvertMessage(p.name, p.kind.value)) else Convert(p.kind.value, v).error)
  {
    if p.kind.None? || (p.default == Some(VNone) && v == VNone) || IsExactly(p.kind.value, v) then
      assert p.kind.Some? && IsExactly(p.kind.value, v) ==> HasKind(p.kind.value, v) by {
        if p.kind.Some? && p.kind.value.KUInt? {
          assert !IsExactly(p.kind.value, v);
        }
      }
      Success(v)
    else
      match Convert(p.kind.value, v)
      case Success(w) => Success(w)
      case Failure(e) => Failure(if e.ValueError? then ParamsValidation(ConvertMessage(p.name, p.kind.value)) else e)
  }

  /** The first supplied key, in the order the arguments were given, that is
      not a declared parameter. */
  function UnknownKey(names: set<string>, params: Dict): (k: Option<string>)
    ensures k.None? <==> Keys(params) <= names
    ensures k.Some? ==> k.value in Keys(params) && k.value !in names
    ensures k.Some? ==> exists j :: (0 <= j < |params| && params[j].0 == k.value &&
                                     forall i :: 0 <= i < j ==> params[i].0 in names)
  {
    if params == [] then None
    else if params[0].0 !in names then Some(params[0].0)
    else UnknownKey(names, params[1..])
  }

  /** The first declared parameter, in declaration order, that has no default
      and was not supplied. */
  function MissingParam(sig: Signature, supplied: set<string>): (m: Option<string>)
    ensures m.None? <==> forall i :: 0 <= i < |sig| && sig[i].default.None? ==> sig[i].name in supplied
    ensures m.Some? ==> m.value !in supplied && exists i :: 0 <= i < |sig| && sig[i].name == m.value && sig[i].default.None?
    ensures m.Some? ==> exists j :: (0 <= j < |sig| && sig[j].name == m.value && sig[j].default.None? &&
                                     forall i :: 0 <= i < j ==> sig[i].default.Some? || sig[i].name in supplied)
  {
    if sig == [] then None
    else if sig[0].default.None? && sig[0].name !in supplied then Some(sig[0].name)
    else
      var m := MissingParam(sig[1..], supplied);
      assert forall i :: 1 <= i < |sig| ==> sig[i] == sig[1..][i - 1];
      if m.Some? then
        var i :| 0 <= i < |sig[1..]| && sig[1..][i].name == m.value && sig[1..][i].default.None?;
        assert sig[i + 1] == sig[1..][i];
        m
      else m
  }

  /** The value a parameter is bound to once defaults are applied. */
  function ArgOf(params: Dict, p: Param): Value {
    match Lookup(params, p.name)
    case Some(v) => v
    case None => if p.default.Some? then p.default.value else VNone
  }

  /** One parameter bound and coerced, as the entry of the arguments dict. */
  function CoerceArg(params: Dict, p: Param): Result<(string, Value), Exc> {
    var v :- Coerce(p, ArgOf(params, p));
    Success((p.name, v))
  }

  /** `_prepare_params`: the arguments dict, in declaration order, or the
      first error met. */
  function Bind(sig: Signature, params: Dict): Result<Dict, Exc> {
    match UnknownKey(Names(sig), params)
    case Some(k) => Failure(ParamsValidation(NotAllowedMessage(k)))
    case None =>
      match MissingParam(sig, Keys(params))
      case Some(name) => Failure(ParamsValidation(RequiredMessage(name)))
      case None => MapResults(p => CoerceArg(params, p), sig)
  }

  /** A supplied key that is not a parameter always fails the binding with
      a validation error naming the first unknown key, in the order the
      arguments were given. */
  lemma RejectsUnknownKey(sig: Signature, params: Dict, key: string)
    requires key in Keys(params) && key !in Names(sig)
    ensures Bind(sig, params).Failure?
    ensures exists j :: (0 <= j < |params| && params[j].0 !in Names(sig) &&
                         (forall i :: 0 <= i < j ==> params[i].0 in Names(sig)) &&
                         Bind(sig, params).error == ParamsValidation(NotAllowedMessage(params[j].0)))
  {
    var names := Names(sig);
    var k := UnknownKey(names, params);
    assert k.Some? && Bind(sig, params) == Failure(ParamsValidation(NotAllowedMessage(k.value)));
    var j :| 0 <= j < |params| && params[j].0 == k.value && forall i :: 0 <= i < j ==> params[i].0 in names;
    assert params[j].0 !in names;
  }

  /** A parameter without a default that is not supplied fails the binding
      with a validation error, once every key supplied is allowed; the error
      names the first such parameter in declaration order. */
  lemma RejectsMissingParam(sig: Signature, params: Dict, i: nat)
    requires Keys(params) <= Names(sig)
    requires i < |sig| && sig[i].default.None? && sig[i].name !in Keys(params)
    ensures Bind(sig, params).Failure?
    ensures exists j :: (0 <= j < |sig| && sig[j].default.None? && sig[j].name !in Keys(params) &&
                         (forall k :: 0 <= k < j ==> sig[k].default.Some? || sig[k].name in Keys(params)) &&
                         Bind(sig, params).error == ParamsValidation(RequiredMessage(sig[j].name)))
  {
  }

  /** A successful binding has exactly one entry per parameter, in declaration
      order, holding the coercion of the value supplied (or of its default):
      a parameter without annotation keeps that value, and an annotated one
      holds a value of its declared kind unless both it and its default are
      `None`. It happens only when every key was
      allowed and every parameter without default was supplied. */
  lemma BoundArguments(sig: Signature, params: Dict)
    requires Bind(sig, params).Success?
    ensures Keys(params) <= Names(sig)
    ensures forall i :: 0 <= i < |sig| && sig[i].default.None? ==> sig[i].name in Keys(params)
    ensures |Bind(sig, params).value| == |sig|
    ensures forall i :: 0 <= i < |sig| ==> Bind(sig, params).value[i].0 == sig[i].name
    ensures forall i :: 0 <= i < |sig| ==> Coerce(sig[i], ArgOf(params, sig[i])) == Success(Bind(sig, params).value[i].1)
    ensures forall i :: 0 <= i < |sig| && sig[i].kind.None? ==> Bind(sig, params).value[i].1 == ArgOf(params, sig[i])
    ensures forall i :: 0 <= i < |sig| && sig[i].kind.Some? ==>
      HasKind(sig[i].kind.value, Bind(sig, params).value[i].1) ||
      (sig[i].default == Some(VNone) && Bind(sig, params).value[i].1 == VNone)
  {
    var f := p => CoerceArg(params, p);
    MapResultsEach(f, sig);
    var args := Bind(sig, params).value;
    forall i | 0 <= i < |sig|
      ensures args[i].0 == sig[i].name
      ensures Coerce(sig[i], ArgOf(params, sig[i])) == Success(args[i].1)
      ensures sig[i].kind.None? ==> args[i].1 == ArgOf(params, sig[i])
      ensures sig[i].kind.Some? ==> HasKind(sig[i].kind.value, args[i].1) || (sig[i].default == Some(VNone) && args[i].1 == VNone)
    {
      assert f(sig[i]) == Success(args[i]);
    }
  }

  /** Every query-string value is a string, so a boolean parameter given the
      text "false" is bound to `True`: only an empty value gives `False`. */
  lemma BoolFromText(s: string)
    ensures Coerce(Param("count", Some(KBool), Some(VBool(false))), VStr(s)) == Success(VBool(s != ""))
  {
  }

  /** A negative page number is refused with the message naming the key and
      the `uint` type. */
  lemma NegativePage(n: int)
    requires n < 0
    ensures Coerce(Param("page", Some(KUInt), Some(VInt(0))), VStr(ToStr(VInt(n)))) ==
      Failure(ParamsValidation(ConvertMessage("page", KUInt)))
  {
    IntOfToStr(n);
    var v := VStr(ToStr(VInt(n)));
    assert RestycornTypes.New(v) == Failure(ValueError(RestycornTypes.NegativeMessage));
    assert Convert(KUInt, v) == Failure(ValueError(RestycornTypes.NegativeMessage));
  }

  /** `_prepare_params` step by step: the key check, the required check, then
      the coercion of each argument in declaration order. */
  method PrepareParams(sig: Signature, params: Dict) returns (res: Result<Dict, Exc>)
    ensures res == Bind(sig, params)
  {
    var names := Names(sig);
    var k := 0;
    while k < |params|
      invariant 0 <= k <= |params|
      invariant UnknownKey(names, params) == UnknownKey(names, params[k..])
    {
      assert params[k..][1..] == params[k + 1..];
      if params[k].0 !in names {
        return Failure(ParamsValidation(NotAllowedMessage(params[k].0)));
      }
      k := k + 1;
    }
    var supplied := Keys(params);
    var j := 0;
    while j < |sig|
      invariant 0 <= j <= |sig|
      invariant MissingParam(sig, supplied) == MissingParam(sig[j..], supplied)
    {
      assert sig[j..][1..] == sig[j + 1..];
      if sig[j].default.None? && sig[j].name !in supplied {
        return Failure(ParamsValidation(RequiredMessage(sig[j].name)));
      }
      j := j + 1;
    }
    res := CoerceAll(sig, params);
  }

  /** The coercion loop, each bound argument converted in turn. */
  method CoerceAll(sig: Signature, params: Dict) returns (res: Result<Dict, Exc>)
    ensures res == MapResults(p => CoerceArg(params, p), sig)
  {
    var args: Dict := [];
    var i := 0;
    while i < |sig|
      invariant 0 <= i <= |sig|
      invariant MapResults(p => CoerceArg(params, p), sig[..i]) == Success(args)
    {
      var arg := CoerceArg(params, sig[i]);
      if arg.Failure? {
        MapResultsStepFails(p => CoerceArg(params, p), sig, i);
        return Failure(arg.error);
      }
      MapResultsStep(p => CoerceArg(params, p), sig, i, args, arg.value);
      args := args + [arg.value];
      i := i + 1;
    }
    assert sig[..i] == sig;
    return Success(args);
  }
}
