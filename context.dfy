/**
 * The slice of a gin request context that the handlers touch: the
 * `Authorization` header, the JSON reply written, the abort flag, the
 * per-request key/value store, and whether the rest of the handler chain
 * (the protected handler) was run.
 */
module GinContext {
  import opened Wrappers

  const StatusOK: int := 200
  const StatusBadRequest: int := 400
  const StatusUnauthorized: int := 401
  const StatusInternalServerError: int := 500

  /** A reply `c.JSON(status, gin.H{field: text})`, a one-entry JSON object. */
  datatype Reply = Reply(status: int, field: string, text: string)

  class Context {
    /** `c.GetHeader("Authorization")`; "" when the header is absent. */
    const authorization: string
    var reply: Option<Reply>
    var aborted: bool
    var keys: map<string, string>
    var nextCalled: bool

    constructor (authorization: string)
      ensures this.authorization == authorization
      ensures reply == None && !aborted && keys == map[] && !nextCalled
    {
      this.authorization := authorization;
      reply := None;
      aborted := false;
      keys := map[];
      nextCalled := false;
    }

    method JSON(status: int, field: string, text: string)
      modifies this
      ensures reply == Some(Reply(status, field, text))
      ensures aborted == old(aborted) && keys == old(keys) && nextCalled == old(nextCalled)
    {
      reply := Some(Reply(status, field, text));
    }

    /** Stops the handler chain: nothing after the current handler runs. */
    method Abort()
      modifies this
      ensures aborted
      ensures reply == old(reply) && keys == old(keys) && nextCalled == old(nextCalled)
    {
      aborted := true;
    }

    method Set(key: string, value: string)
      modifies this
      ensures keys == old(keys)[key := value]
      ensures reply == old(reply) && aborted == old(aborted) && nextCalled == old(nextCalled)
    {
      keys := keys[key := value];
    }

    /** Runs the rest of the chain; its effect beyond that is not modelled. */
    method Next()
      modifies this
      ensures nextCalled
      ensures reply == old(reply) && aborted == old(aborted) && keys == old(keys)
    {
      nextCalled := true;
    }
  }
}
