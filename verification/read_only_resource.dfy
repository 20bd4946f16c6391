/**
 * The read-only base resource: `list` is abstract and `get` is left to
 * subclasses, both raising `NotImplementedError` when reached; the six
 * mutators refuse with `MethodIsNotAllowedException`.
 */
module ReadOnlyResource {
  import opened Wrappers
  import opened Values
  import opened BaseResource

  /** The declared parameters: `list()`, `get(item_id)` and the mutators. */
  function Signature(op: Op): (sig: BaseResource.Signature)
    ensures WellFormed(sig)
    ensures op.List? ==> sig == []
    ensures op.Get? ==> sig == [Required("item_id", None)]
  {
    match op
    case List => []
    case Get => [Required("item_id", None)]
    case _ => MutatorSignature(op)
  }

  /** Calling an operation: it always raises, `NotImplementedError` exactly for
      the two readers and `MethodIsNotAllowedException` exactly for the six
      mutators, whatever the arguments. */
  function Invoke(op: Op, args: Dict): (r: Result<Output, Exc>)
    ensures r.Failure?
    ensures r.error == NotImplementedError <==> !IsMutator(op)
    ensures r.error == MethodIsNotAllowed <==> IsMutator(op)
  {
    if IsMutator(op) then Failure(MethodIsNotAllowed) else Failure(NotImplementedError)
  }
}
