/**
 * The in-memory email-verification registry of the server's user model
 * (`VERIFIED_USERS`, a map from user id to a flag behind a mutex, with
 * `update_email_verified_by_id` and `is_email_verified`).
 */
module VerifiedUsers {

  /** A user's status: the stored flag, or false for a user never updated. */
  function IsVerified(verified: map<int, bool>, userId: int): (b: bool)
    ensures b ==> userId in verified
  {
    if userId in verified then verified[userId] else false
  }

  class Registry {
    var verified: map<int, bool>

    constructor ()
      ensures verified == map[]
    {
      verified := map[];
    }

    /** `update_email_verified_by_id`: stores the flag, replacing any earlier one. */
    method UpdateEmailVerifiedById(userId: int, v: bool)
      modifies this
      ensures verified == old(verified)[userId := v]
    {
      verified := verified[userId := v];
    }

    /** `is_email_verified`. */
    method IsEmailVerified(userId: int) returns (b: bool)
      ensures b == IsVerified(verified, userId)
    {
      if userId in verified {
        b := verified[userId];
      } else {
        b := false;
      }
    }
  }

  /** One update: the updated user reads the new flag, every other user is unaffected, and repeating it changes nothing. */
  lemma UpdateThenQuery(verified: map<int, bool>, userId: int, v: bool, other: int)
    ensures IsVerified(verified[userId := v], userId) == v
    ensures other != userId ==> IsVerified(verified[userId := v], other) == IsVerified(verified, other)
    ensures verified[userId := v][userId := v] == verified[userId := v]
  {
  }

  /** A sequence of updates, applied in order. */
  function ApplyAll(verified: map<int, bool>, updates: seq<(int, bool)>): map<int, bool> {
    if updates == [] then verified
    else ApplyAll(verified, updates[..|updates| - 1])[updates[|updates| - 1].0 := updates[|updates| - 1].1]
  }

  /** The flag the last update of `userId` stored, or false when there is none. */
  function LastUpdate(updates: seq<(int, bool)>, userId: int): bool {
    if updates == [] then false
    else if updates[|updates| - 1].0 == userId then updates[|updates| - 1].1
    else LastUpdate(updates[..|updates| - 1], userId)
  }

  /**
   * Starting from the empty registry, a user's status is the flag of the
   * last update of that user, and false for a user no update names.
   */
  lemma {:induction false} LastUpdateWins(updates: seq<(int, bool)>, userId: int)
    ensures IsVerified(ApplyAll(map[], updates), userId) == LastUpdate(updates, userId)
    ensures (forall i :: 0 <= i < |updates| ==> updates[i].0 != userId) ==> !IsVerified(ApplyAll(map[], updates), userId)
  {
    if updates != [] {
      LastUpdateWins(updates[..|updates| - 1], userId);
      if updates[|updates| - 1].0 != userId {
        var pre := updates[..|updates| - 1];
        assert forall i :: 0 <= i < |pre| ==> pre[i] == updates[i];
      }
    }
  }
}
