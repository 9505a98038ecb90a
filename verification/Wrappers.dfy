// Shared vocabulary: optional values, product ids, and the values that travel between the modules.

module Wrappers {

  datatype Option<+T> = None | Some(value: T)

  const INT64_LIMIT := 0x8000_0000_0000_0000

  /** A signed 64-bit product id. */
  type ProductId = x: int | -INT64_LIMIT <= x < INT64_LIMIT

  /** A user action as it is submitted, published and stored. */
  datatype UserAction = UserAction(user: string, actionType: string, productId: string, idempotencyKey: string)

  /** `top` is `ranked` as far as `k` elements. */
  predicate IsTop<T(==)>(top: seq<T>, ranked: seq<T>, k: nat)
  {
    top <= ranked && |top| == if |ranked| < k then |ranked| else k
  }

  /** A pure prefix of at most `limit` elements; used for both truncations of a ranking. */
  function TakeTop<T>(ranked: seq<T>, limit: nat): (top: seq<T>)
    ensures IsTop(top, ranked, limit)
  {
    if |ranked| <= limit then ranked else ranked[..limit]
  }
}
