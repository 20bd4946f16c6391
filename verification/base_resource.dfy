/**
 * The capability interface every resource exposes, as the request handler
 * sees it: the eight operation names, the parameter schema of an operation
 * (what `inspect.signature` reports in the source), and the two shapes of an
 * operation's result.
 */
module BaseResource {
  import opened Wrappers
  import opened Values

  datatype Op = List | Get | ReplaceAll | Create | DeleteAll | CreateOrReplace | Update | Delete

  /** The six operations that change a resource. */
  predicate IsMutator(op: Op) {
    !op.List? && !op.Get?
  }

  /** The parameter annotations that occur in the resources: `str`, `uint`,
      `bool`, `list` and `dict`. */
  datatype Kind = KStr | KUInt | KBool | KList | KDict

  /** One declared parameter: its name, its annotation if any, and its
      default if it has one (`Some(VNone)` is the default `None`). */
  datatype Param = Param(name: string, kind: Option<Kind>, default: Option<Value>)

  /** The declared parameters of an operation, in declaration order. */
  type Signature = seq<Param>

  /** Python refuses two parameters of one name. */
  predicate WellFormed(sig: Signature) {
    forall i, j :: 0 <= i < j < |sig| ==> sig[i].name != sig[j].name
  }

  /** What an operation returns: a plain value, or a pair whose second part is
      merged into the top level of the response (`([], {'count': n})`). */
  datatype Output = Plain(data: Value) | Pair(data: Value, extra: Dict)

  function Required(name: string, kind: Option<Kind>): Param {
    Param(name, kind, None)
  }

  /** The parameters of the six mutators, declared alike by every resource:
      `replace_all(items: list)`, `create(item)`, `delete_all()`,
      `create_or_replace(item_id, item: dict)`, `update(item_id, item: dict)`
      and `delete(item_id)`. */
  function MutatorSignature(op: Op): (sig: Signature)
    requires IsMutator(op)
    ensures WellFormed(sig)
    ensures forall p :: p in sig ==> p.default.None?
  {
    match op
    case ReplaceAll => [Required("items", Some(KList))]
    case Create => [Required("item", None)]
    case DeleteAll => []
    case CreateOrReplace => [Required("item_id", None), Required("item", Some(KDict))]
    case Update => [Required("item_id", None), Required("item", Some(KDict))]
    case Delete => [Required("item_id", None)]
  }
}
