/**
 * The in-memory test resource: a dict of items and an id counter that only
 * ever grows. Its state is modelled twice: as the fields of a class whose
 * methods update them in place, and as a `Store` value with one step
 * function per operation, which the methods are proved to follow and about
 * which the properties over sequences of calls are proved.
 */
module InMemoryResource {
  import opened Wrappers
  import opened PyStrings
  import opened Values
  import opened BaseResource

  /** The resource's state: `self.db` and `self.last_id`. */
  datatype Store = Store(db: map<Value, Value>, lastId: int)

  /** A freshly constructed resource. */
  const Empty := Store(map[], 0)

  /** `create(item)`: the next id is taken and the item stored under it. */
  function CreateStep(s: Store, item: Value): Store {
    Store(s.db[VInt(s.lastId + 1) := item], s.lastId + 1)
  }

  /** `replace_all(items)`: the dict is replaced by an empty one. The
      `self.create(item)` calls that follow are not awaited, so none of them
      runs: nothing is inserted and the counter stays. */
  function ReplaceAllStep(s: Store): Store {
    Store(map[], s.lastId)
  }

  /** `delete_all()`: the dict is cleared, the counter stays. */
  function DeleteAllStep(s: Store): Store {
    Store(map[], s.lastId)
  }

  /** `create_or_replace(item_id, item)`: stored under the id as given. */
  function CreateOrReplaceStep(s: Store, itemId: Value, item: Value): Store {
    Store(s.db[itemId := item], s.lastId)
  }

  /** `delete(item_id)`: `del self.db[item_id]`, which raises `KeyError` for an
      absent key. */
  function DeleteStep(s: Store, itemId: Value): Result<Store, Exc> {
    if itemId in s.db then Success(Store(s.db - {itemId}, s.lastId)) else Failure(KeyError)
  }

  /** `get(item_id)`: the id goes through `int()` first. */
  function GetItem(s: Store, itemId: Value): (r: Result<Value, Exc>)
    ensures IntOf(itemId).Failure? ==> r == Failure(IntOf(itemId).error)
    ensures IntOf(itemId).Success? && VInt(IntOf(itemId).value) !in s.db ==> r == Failure(ItemDoesNotExist)
    ensures IntOf(itemId).Success? && VInt(IntOf(itemId).value) in s.db ==> r == Success(s.db[VInt(IntOf(itemId).value)])
  {
    var i :- IntOf(itemId);
    if VInt(i) !in s.db then Failure(ItemDoesNotExist) else Success(s.db[VInt(i)])
  }

  /** An item created is found again by `get` under the decimal text of its id,
      which is how a client sends it back. */
  lemma CreateThenGet(s: Store, item: Value)
    ensures var s' := CreateStep(s, item);
      GetItem(s', VStr(ToStr(VInt(s'.lastId)))) == Success(item)
  {
    IntOfToStr(s.lastId + 1);
  }

  /** `create_or_replace` stores under the raw path text, while `get` looks up
      the `int()` of it: an item put under "7" is not what `get("7")` finds. */
  lemma CreateOrReplaceInvisibleToGet(s: Store, n: int, item: Value)
    requires VInt(n) !in s.db
    ensures var s' := CreateOrReplaceStep(s, VStr(ToStr(VInt(n))), item);
      GetItem(s', VStr(ToStr(VInt(n)))) == Failure(ItemDoesNotExist)
  {
    IntOfToStr(n);
  }

  /** Ids are stored as integers but a path id arrives as text, so `delete`
      through the item route never finds an item that `create` stored. */
  lemma CreatedNotDeletableByText(s: Store, item: Value)
    requires VStr(ToStr(VInt(s.lastId + 1))) !in s.db
    ensures var s' := CreateStep(s, item);
      VInt(s'.lastId) in s'.db && DeleteStep(s', VStr(ToStr(VInt(s'.lastId)))) == Failure(KeyError)
  {
  }

  /** The calls that change or read the state. */
  datatype Call =
    | CreateCall(item: Value)
    | ReplaceAllCall
    | DeleteAllCall
    | CreateOrReplaceCall(itemId: Value, item: Value)
    | DeleteCall(itemId: Value)
    | GetCall(itemId: Value)

  /** The state after a call; a call that raises leaves it as it was. */
  function Step(s: Store, c: Call): Store {
    match c
    case CreateCall(item) => CreateStep(s, item)
    case ReplaceAllCall => ReplaceAllStep(s)
    case DeleteAllCall => DeleteAllStep(s)
    case CreateOrReplaceCall(id, item) => CreateOrReplaceStep(s, id, item)
    case DeleteCall(id) => if DeleteStep(s, id).Success? then DeleteStep(s, id).value else s
    case GetCall(_) => s
  }

  /** The state after a sequence of calls. */
  function Run(s: Store, calls: seq<Call>): Store
    decreases |calls|
  {
    if calls == [] then s else Run(Step(s, calls[0]), calls[1..])
  }

  /** The ids `create` hands out during a sequence of calls, in order. */
  function CreatedIds(s: Store, calls: seq<Call>): seq<int>
    decreases |calls|
  {
    if calls == [] then []
    else (if calls[0].CreateCall? then [s.lastId + 1] else []) + CreatedIds(Step(s, calls[0]), calls[1..])
  }

  /** The number of `create` calls in a sequence. */
  function Creates(calls: seq<Call>): nat {
    if calls == [] then 0 else (if calls[0].CreateCall? then 1 else 0) + Creates(calls[1..])
  }

  /** Over any sequence of calls, whatever is deleted or replaced in between,
      the counter grows by exactly the number of creates, and the ids handed
      out are consecutive, strictly increasing and above the starting counter:
      no id is ever handed out twice. */
  lemma {:induction false} IdsNeverReused(s: Store, calls: seq<Call>)
    ensures Run(s, calls).lastId == s.lastId + Creates(calls)
    ensures |CreatedIds(s, calls)| == Creates(calls)
    ensures forall k :: 0 <= k < |CreatedIds(s, calls)| ==> CreatedIds(s, calls)[k] == s.lastId + 1 + k
    ensures forall j, k :: 0 <= j < k < |CreatedIds(s, calls)| ==> CreatedIds(s, calls)[j] < CreatedIds(s, calls)[k]
    decreases |calls|
  {
    if calls != [] {
      var s' := Step(s, calls[0]);
      IdsNeverReused(s', calls[1..]);
      assert s'.lastId == s.lastId + (if calls[0].CreateCall? then 1 else 0);
    }
  }

  /** The declared parameters: `list()`, `get(item_id)` and the mutators. */
  function Signature(op: Op): (sig: BaseResource.Signature)
    ensures WellFormed(sig)
  {
    match op
    case List => []
    case Get => [Required("item_id", None)]
    case _ => MutatorSignature(op)
  }

  /** Calling an operation with bound arguments: the result and the new state.
      `list` and `update` are given as outcomes (neither is part of this model);
      arguments binding never omits give `TypeError`. */
  function Dispatch(s: Store, op: Op, args: Dict, listOutcome: Result<Output, Exc>, updateOutcome: Result<Output, Exc>): (Result<Output, Exc>, Store) {
    match op
    case List => (listOutcome, s)
    case Update => (updateOutcome, s)
    case Get =>
      (match Lookup(args, "item_id")
       case Some(id) =>
         (match GetItem(s, id)
          case Success(v) => (Success(Plain(v)), s)
          case Failure(e) => (Failure(e), s))
       case None => (Failure(TypeError), s))
    case ReplaceAll =>
      (match Lookup(args, "items")
       case Some(_) => (Success(Plain(VNone)), ReplaceAllStep(s))
       case None => (Failure(TypeError), s))
    case Create =>
      (match Lookup(args, "item")
       case Some(item) => (Success(Plain(item)), CreateStep(s, item))
       case None => (Failure(TypeError), s))
    case DeleteAll => (Success(Plain(VNone)), DeleteAllStep(s))
    case CreateOrReplace =>
      (match (Lookup(args, "item_id"), Lookup(args, "item"))
       case (Some(id), Some(item)) => (Success(Plain(item)), CreateOrReplaceStep(s, id, item))
       case _ => (Failure(TypeError), s))
    case Delete =>
      (match Lookup(args, "item_id")
       case Some(id) =>
         (match DeleteStep(s, id)
          case Success(s') => (Success(Plain(VNone)), s')
          case Failure(e) => (Failure(e), s))
       case None => (Failure(TypeError), s))
  }

  /** The resource object: its dict and counter change in place. */
  class TestResource {
    var db: map<Value, Value>
    var lastId: int

    function State(): Store
      reads this
    {
      Store(db, lastId)
    }

    constructor ()
      ensures State() == Empty
    {
      db := map[];
      lastId := 0;
    }

    /** `create(item)`: the counter goes up by exactly one, the item is stored
        under the new id and returned. */
    method Create(item: Value) returns (r: Value)
      modifies this
      ensures lastId == old(lastId) + 1
      ensures db == old(db)[VInt(lastId) := item]
      ensures r == item
      ensures State() == CreateStep(old(State()), item)
    {
      lastId := lastId + 1;
      db := db[VInt(lastId) := item];
      r := db[VInt(lastId)];
    }

    /** `replace_all(items)`: all entries are discarded, and none is inserted. */
    method ReplaceAll(items: seq<Value>)
      modifies this
      ensures db == map[] && lastId == old(lastId)
      ensures State() == ReplaceAllStep(old(State()))
    {
      db := map[];
    }

    /** `delete_all()`: the dict is emptied, the counter kept. */
    method DeleteAll()
      modifies this
      ensures db == map[] && lastId == old(lastId)
      ensures State() == DeleteAllStep(old(State()))
    {
      db := map[];
    }

    /** `get(item_id)`: reads only. */
    method Get(itemId: Value) returns (r: Result<Value, Exc>)
      ensures r == GetItem(State(), itemId)
      ensures r.Success? ==> r.value in db.Values
    {
      var i := IntOf(itemId);
      if i.Failure? {
        return Failure(i.error);
      }
      if VInt(i.value) !in db {
        return Failure(ItemDoesNotExist);
      }
      r := Success(db[VInt(i.value)]);
    }

    /** `create_or_replace(item_id, item)`: stored under the raw id, replacing
        any earlier entry; the counter is untouched. */
    method CreateOrReplace(itemId: Value, item: Value) returns (r: Value)
      modifies this
      ensures db == old(db)[itemId := item] && lastId == old(lastId)
      ensures r == item
      ensures State() == CreateOrReplaceStep(old(State()), itemId, item)
    {
      db := db[itemId := item];
      r := db[itemId];
    }

    /** `delete(item_id)`: removes exactly that key; an absent key raises
        `KeyError` and changes nothing. */
    method Delete(itemId: Value) returns (r: Result<(), Exc>)
      modifies this
      ensures old(itemId in db) ==> r.Success? && db == old(db) - {itemId}
      ensures !old(itemId in db) ==> r == Failure(KeyError) && db == old(db)
      ensures lastId == old(lastId)
      ensures DeleteStep(old(State()), itemId) == (if r.Success? then Success(State()) else Failure(KeyError))
    {
      if itemId !in db {
        return Failure(KeyError);
      }
      db := db - {itemId};
      r := Success(());
    }

    /** Dispatching an operation to the object, by calling its methods. */
    method Invoke(op: Op, args: Dict, listOutcome: Result<Output, Exc>, updateOutcome: Result<Output, Exc>)
      returns (r: Result<Output, Exc>)
      modifies this
      ensures (r, State()) == Dispatch(old(State()), op, args, listOutcome, updateOutcome)
    {
      match op {
        case List =>
          r := listOutcome;
        case Update =>
          r := updateOutcome;
        case Get =>
          var id := Lookup(args, "item_id");
          if id.None? {
            return Failure(TypeError);
          }
          var v := Get(id.value);
          r := if v.Success? then Success(Plain(v.value)) else Failure(v.error);
        case ReplaceAll =>
          var items := Lookup(args, "items");
          if items.None? {
            return Failure(TypeError);
          }
          ReplaceAll(if items.value.VList? then items.value.items else []);
          r := Success(Plain(VNone));
        case Create =>
          var item := Lookup(args, "item");
          if item.None? {
            return Failure(TypeError);
          }
          var v := Create(item.value);
          r := Success(Plain(v));
        case DeleteAll =>
          DeleteAll();
          r := Success(Plain(VNone));
        case CreateOrReplace =>
          var id, item := Lookup(args, "item_id"), Lookup(args, "item");
          if id.None? || item.None? {
            return Failure(TypeError);
          }
          var v := CreateOrReplace(id.value, item.value);
          r := Success(Plain(v));
        case Delete =>
          var id := Lookup(args, "item_id");
          if id.None? {
            return Failure(TypeError);
          }
          var d := Delete(id.value);
          r := if d.Success? then Success(Plain(VNone)) else Failure(d.error);
      }
    }
  }
}
