/**
 * The execution context of one flow run: the `HashMap<Integer, Object>`
 * that the trigger handler creates and every step then reads and writes,
 * holding each step's payload under its order number.
 */
module ExecutionContext {
  import opened Values

  class Context {
    var entries: ExecContext

    /** `new HashMap<>()`. */
    constructor ()
      ensures entries == map[]
    {
      entries := map[];
    }

    /** `context.put(order, payload)`. */
    method Put(order: int, payload: Value)
      modifies this
      ensures entries == old(entries)[order := payload]
    {
      entries := entries[order := payload];
    }
  }
}
