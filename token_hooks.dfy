/** The guard of the `updateToken` hook: which token updates lead to `setEffect`. */
module TokenHooks {

  /** The hook reacts when the update moved the token (its diff has `x` or `y`) and the
      update was made by the current user. */
  predicate HandlesTokenUpdate(diffKeys: set<string>, currentUserId: string, userId: string)
  {
    ("x" in diffKeys || "y" in diffKeys) && currentUserId == userId
  }

  /** An update that does not move the token, or that another user made, is ignored; a move
      made by the current user is handled whatever else the diff holds. */
  lemma UpdateGuard(diffKeys: set<string>, currentUserId: string, userId: string, other: set<string>)
    ensures HandlesTokenUpdate(diffKeys, currentUserId, userId)
        <==> ("x" in diffKeys || "y" in diffKeys) && currentUserId == userId
    ensures "x" !in diffKeys && "y" !in diffKeys ==> !HandlesTokenUpdate(diffKeys, currentUserId, userId)
    ensures currentUserId != userId ==> !HandlesTokenUpdate(diffKeys, currentUserId, userId)
    ensures HandlesTokenUpdate(diffKeys, currentUserId, userId)
            ==> HandlesTokenUpdate(diffKeys + other, currentUserId, userId)
  {
  }
}
