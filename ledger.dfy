/**
 * The backend's request handlers, step by step, on one mutable store.
 *
 * The store is the key-value map the handlers read with a get and overwrite
 * with a set. Each handler loads the user's record (creating it on first
 * sight), changes the loaded copy, and writes the whole record back. Every
 * handler method is proved to leave the store, and to reply, exactly as the
 * matching function of module Quests says, and to keep the store consistent;
 * the write-back helper UpdateUserData keeps it consistent only when the
 * record it writes is.
 */
module Ledger {
  import opened Quests

  class QuestLedger {
    /** Record keys `user:<telegramId>` to records. */
    var store: Store

    /**
     * The store is consistent. The constructor establishes it and every
     * handler keeps it, but no handler requires it: the handlers run on
     * whatever the store holds, so their contracts say what they do on any
     * store and state consistency as an implication.
     */
    ghost predicate Valid()
      reads this
    {
      StoreValid(store)
    }

    constructor ()
      ensures store == map[] && Valid()
    {
      store := map[];
    }

    /**
     * getUserData: returns the stored record, or creates the default record,
     * writes it, and returns it.
     */
    method GetUserData(telegramId: string, now: string) returns (userData: UserRecord)
      modifies this
      ensures (userData, store) == Load(old(store), telegramId, now)
      ensures old(Valid()) ==> Valid()
    {
      var key := Key(telegramId);
      if key !in store {
        var newUser := NewUser(telegramId, now);
        store := store[key := newUser];
        userData := newUser;
      } else {
        userData := store[key];
      }
      if old(Valid()) {
        StepPreservesValid(old(store), FetchUser(telegramId, now));
      }
    }

    /** updateUserData: overwrites the user's record with `userData` and returns it. */
    method UpdateUserData(telegramId: string, userData: UserRecord) returns (saved: UserRecord)
      modifies this
      ensures store == old(store)[Key(telegramId) := userData]
      ensures saved == userData
      ensures old(Valid()) && RecordValid(userData) && userData.telegramId == telegramId ==> Valid()
    {
      store := store[Key(telegramId) := userData];
      saved := userData;
    }

    /** GET /api/quests/:telegramId: the quest list for the user, creating the user if new. */
    method GetQuests(telegramId: string, now: string) returns (quests: seq<QuestView>)
      modifies this
      ensures (quests, store) == ListQuests(old(store), telegramId, now)
      ensures old(Valid()) ==> Valid()
    {
      var userData := GetUserData(telegramId, now);
      quests := [QuestView(QuestId, Reward, StatusName(userData.beincom))];
    }

    /** POST /api/quest/verify: moves the quest from DO to CLAIM. */
    method VerifyQuest(telegramId: string, questId: string, now: string) returns (reply: VerifyReply)
      modifies this
      ensures (reply, store) == Verify(old(store), telegramId, questId, now)
      ensures old(Valid()) ==> Valid()
    {
      if questId != QuestId {
        return VerifyRejected(InvalidQuest);
      }
      var userData := GetUserData(telegramId, now);
      if userData.beincom == Pending {
        userData := userData.(beincom := Verified);
        var _ := UpdateUserData(telegramId, userData);
        reply := NewlyVerified;
      } else {
        reply := AlreadyVerified;
      }
      if old(Valid()) {
        StepPreservesValid(old(store), Request.VerifyQuest(telegramId, questId, now));
      }
    }

    /**
     * POST /api/quest/claim: moves the quest from CLAIM to CLAIMED and credits
     * the reward in the same write; refuses a quest still at DO.
     */
    method ClaimQuest(telegramId: string, questId: string, now: string) returns (reply: ClaimReply)
      modifies this
      ensures (reply, store) == Claim(old(store), telegramId, questId, now)
      ensures old(Valid()) ==> Valid()
    {
      if questId != QuestId {
        return ClaimRejected(InvalidQuest);
      }
      var userData := GetUserData(telegramId, now);
      if userData.beincom == Verified {
        userData := userData.(beincom := Claimed);
        userData := userData.(points := userData.points + Reward);
        var _ := UpdateUserData(telegramId, userData);
        reply := RewardClaimed(userData.points);
      } else if userData.beincom == Claimed {
        reply := AlreadyClaimed;
      } else {
        reply := ClaimRejected(NotReady);
      }
      if old(Valid()) {
        StepPreservesValid(old(store), Request.ClaimQuest(telegramId, questId, now));
      }
    }
  }

  /**
   * A client of the class: the life of a new user, as in
   * Quests.FirstVisitToReward, driven through the in-place handlers and
   * derived from their contracts alone.
   */
  method FirstVisit(telegramId: string, now: string)
  {
    var ledger := new QuestLedger();
    var quests := ledger.GetQuests(telegramId, now);
    assert quests[0].status == "DO";
    var claim := ledger.ClaimQuest(telegramId, QuestId, now);
    assert claim == ClaimRejected(NotReady);
    var verify := ledger.VerifyQuest(telegramId, QuestId, now);
    assert verify == NewlyVerified;
    verify := ledger.VerifyQuest(telegramId, QuestId, now);
    assert verify == AlreadyVerified;
    claim := ledger.ClaimQuest(telegramId, QuestId, now);
    assert claim == RewardClaimed(100);
    claim := ledger.ClaimQuest(telegramId, QuestId, now);
    assert claim == AlreadyClaimed;
    assert ledger.store[Key(telegramId)].points == 100;
    assert ledger.Valid();
  }
}
