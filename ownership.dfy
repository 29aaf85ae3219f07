/**
 * The `authorize` middleware every resource router runs before update and
 * delete: an ordered decision on the authenticated user and the owner of the
 * addressed row.
 */
module Ownership {
  import opened Http

  /** The identity the token check attaches to a request as `req.user`. */
  datatype Identity = Identity(id: int)

  /** The three sentences a resource's `authorize` answers with. */
  datatype Guard = Guard(unauthenticated: string, missing: string, forbidden: string)

  /**
   * The decision for `user` on a row whose owner is `owner` (`None` when the
   * row does not exist): 401 without a user, then 404 without a row, then 403
   * when the owner is someone else, otherwise on to the next handler.
   */
  function Authorize(user: Option<Identity>, owner: Option<int>, g: Guard): (r: Step)
    ensures r == Next <==> user.Some? && owner == Some(user.value.id)
    ensures r.Respond? <==> !(user.Some? && owner == Some(user.value.id))
    ensures user.None? ==> r == Respond(401, g.unauthenticated)
    ensures user.Some? && owner.None? ==> r == Respond(404, g.missing)
    ensures user.Some? && owner.Some? && owner.value != user.value.id ==> r == Respond(403, g.forbidden)
  {
    if user.None? then Respond(401, g.unauthenticated)
    else if owner.None? then Respond(404, g.missing)
    else if owner.value != user.value.id then Respond(403, g.forbidden)
    else Next
  }

  /** The owner of row `id` of `table`, or `None` when there is no such row. */
  function OwnerOf<T>(table: map<int, T>, id: int, owner: T -> int): (r: Option<int>)
    ensures r.Some? <==> id in table
    ensures r.Some? ==> r.value == owner(table[id])
  {
    if id in table then Some(owner(table[id])) else None
  }
}
