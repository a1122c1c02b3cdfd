/**
 * The quest ledger of the mini-app backend, as values.
 *
 * Each user has one record in a key-value store under the key
 * `user:<telegramId>`. A record holds the user's points and the status of the
 * one quest of the catalog ("beincom"), which moves DO -> CLAIM -> CLAIMED.
 * This module gives the store and every request handler as a function from the
 * old store to a reply and the new store, together with the invariants the
 * handlers keep. Module Ledger runs the same handlers step by step on a
 * mutable store and is proved against these functions.
 */
module Quests {

  /** The only quest of the catalog, and the points its claim credits. */
  const QuestId: string := "beincom"
  const Reward: nat := 100
  const KeyPrefix: string := "user:"

  /** A user's progress on a quest: DO, CLAIM and CLAIMED on the wire. */
  datatype QuestStatus = Pending | Verified | Claimed

  /** The string the backend stores and reports for a status. */
  function StatusName(status: QuestStatus): (name: string)
    ensures name == "DO" || name == "CLAIM" || name == "CLAIMED"
  {
    match status
    case Pending => "DO"
    case Verified => "CLAIM"
    case Claimed => "CLAIMED"
  }

  /** Distinct statuses are stored and reported under distinct names. */
  lemma StatusNameInjective(a: QuestStatus, b: QuestStatus)
    requires StatusName(a) == StatusName(b)
    ensures a == b
  {
  }

  /** Position of a status along DO -> CLAIM -> CLAIMED. */
  function Rank(status: QuestStatus): nat
  {
    match status
    case Pending => 0
    case Verified => 1
    case Claimed => 2
  }

  /**
   * A stored user record. `createdAt` is the creation time, kept as an
   * opaque string that no handler changes.
   */
  datatype UserRecord = UserRecord(telegramId: string, points: nat, beincom: QuestStatus, createdAt: string)

  /** The store: record keys to records. */
  type Store = map<string, UserRecord>

  /** The store key of a user: the prefix followed by the id. */
  function Key(telegramId: string): (key: string)
    ensures |key| == |KeyPrefix| + |telegramId|
    ensures key[..|KeyPrefix|] == KeyPrefix && key[|KeyPrefix|..] == telegramId
  {
    KeyPrefix + telegramId
  }

  /** Distinct users have distinct keys, so a handler for one never reaches another's record. */
  lemma KeyInjective(a: string, b: string)
    requires Key(a) == Key(b)
    ensures a == b
  {
  }

  /** The default record of a user seen for the first time. */
  function NewUser(telegramId: string, now: string): (user: UserRecord)
    ensures user.telegramId == telegramId && user.createdAt == now
    ensures user.points == 0 && user.beincom == Pending
  {
    UserRecord(telegramId, 0, Pending, now)
  }

  /** A record is consistent when it holds the reward exactly when the quest is claimed. */
  predicate RecordValid(user: UserRecord)
  {
    user.points == if user.beincom == Claimed then Reward else 0
  }

  /** Every record is consistent and stored under its own user's key. */
  predicate StoreValid(s: Store)
  {
    forall k :: k in s ==> RecordValid(s[k]) && k == Key(s[k].telegramId)
  }

  /**
   * The single-step moves a handler may make on a record: none, DO to CLAIM
   * with the points kept, or CLAIM to CLAIMED with the reward credited.
   */
  predicate Transition(before: UserRecord, after: UserRecord)
  {
    after == before
    || (before.beincom == Pending && after == before.(beincom := Verified))
    || (before.beincom == Verified && after == before.(beincom := Claimed, points := before.points + Reward))
  }

  /**
   * `after` is a later state of `before`: the same user and creation time, a
   * status no earlier in DO -> CLAIM -> CLAIMED, and points that grew by the
   * reward if the quest became claimed in between and by nothing otherwise.
   */
  predicate Advanced(before: UserRecord, after: UserRecord)
  {
    && after.telegramId == before.telegramId
    && after.createdAt == before.createdAt
    && Rank(before.beincom) <= Rank(after.beincom)
    && after.points == before.points + (if before.beincom != Claimed && after.beincom == Claimed then Reward else 0)
  }

  lemma TransitionAdvances(before: UserRecord, after: UserRecord)
    requires Transition(before, after)
    ensures Advanced(before, after)
    ensures Rank(after.beincom) <= Rank(before.beincom) + 1
  {
  }

  lemma AdvancedTransitive(a: UserRecord, b: UserRecord, c: UserRecord)
    requires Advanced(a, b) && Advanced(b, c)
    ensures Advanced(a, c)
  {
  }

  lemma TransitionPreservesValid(before: UserRecord, after: UserRecord)
    requires Transition(before, after) && RecordValid(before)
    ensures RecordValid(after)
  {
  }

  // ---------------------------------------------------------------------
  // Handlers as functions on the store

  /**
   * getUserData: the stored record if there is one, and the store unchanged;
   * otherwise a default record, which is written to the store first.
   */
  function Load(s: Store, telegramId: string, now: string): (res: (UserRecord, Store))
    ensures Key(telegramId) in res.1 && res.1[Key(telegramId)] == res.0
    ensures res.1.Keys == s.Keys + {Key(telegramId)}
    ensures forall k :: k in s ==> res.1[k] == s[k]
    ensures Key(telegramId) in s ==> res.0 == s[Key(telegramId)] && res.1 == s
    ensures Key(telegramId) !in s ==> res.0 == NewUser(telegramId, now)
  {
    var key := Key(telegramId);
    if key in s then (s[key], s)
    else
      var user := NewUser(telegramId, now);
      (user, s[key := user])
  }

  /** One entry of the quest list the client renders. */
  datatype QuestView = QuestView(id: string, reward: nat, status: string)

  /** The fixed catalog joined with the user's stored status. */
  function QuestList(user: UserRecord): (quests: seq<QuestView>)
    ensures |quests| == 1 && quests[0].id == QuestId && quests[0].reward == Reward
    ensures forall status: QuestStatus :: quests[0].status == StatusName(status) <==> status == user.beincom
  {
    [QuestView(QuestId, Reward, StatusName(user.beincom))]
  }

  /** GET /api/quests/:telegramId: loads (or creates) the record and projects it. */
  function ListQuests(s: Store, telegramId: string, now: string): (res: (seq<QuestView>, Store))
    ensures res.1 == Load(s, telegramId, now).1
    ensures res.0 == QuestList(res.1[Key(telegramId)])
  {
    var (user, s1) := Load(s, telegramId, now);
    (QuestList(user), s1)
  }

  /** Why a verify or claim request is refused (HTTP 400). */
  datatype Failure = InvalidQuest | NotReady

  /** Replies of POST /api/quest/verify. */
  datatype VerifyReply = NewlyVerified | AlreadyVerified | VerifyRejected(failure: Failure)

  /** Replies of POST /api/quest/claim; a successful claim reports the new total. */
  datatype ClaimReply = RewardClaimed(points: nat) | AlreadyClaimed | ClaimRejected(failure: Failure)

  /**
   * POST /api/quest/verify: an unknown quest is refused before the store is
   * read; otherwise DO becomes CLAIM and is written back, and CLAIM or
   * CLAIMED is left alone.
   */
  function Verify(s: Store, telegramId: string, questId: string, now: string): (res: (VerifyReply, Store))
    ensures questId != QuestId ==> res == (VerifyRejected(InvalidQuest), s)
    ensures questId == QuestId ==>
      (res.0 == NewlyVerified <==> Key(telegramId) !in s || s[Key(telegramId)].beincom == Pending)
    ensures questId == QuestId ==>
      (res.0 == AlreadyVerified <==> Key(telegramId) in s && s[Key(telegramId)].beincom != Pending)
    ensures questId == QuestId ==> res.1.Keys == s.Keys + {Key(telegramId)}
    ensures res.0 == AlreadyVerified ==> res.1 == s
    ensures res.0 == NewlyVerified ==> res.1[Key(telegramId)].beincom == Verified
  {
    if questId != QuestId then (VerifyRejected(InvalidQuest), s)
    else
      var (user, s1) := Load(s, telegramId, now);
      if user.beincom == Pending then
        (NewlyVerified, s1[Key(telegramId) := user.(beincom := Verified)])
      else
        (AlreadyVerified, s1)
  }

  /**
   * POST /api/quest/claim: an unknown quest is refused before the store is
   * read; otherwise CLAIM becomes CLAIMED with the reward credited in the same
   * write, CLAIMED is left alone, and DO is refused as not ready (after the
   * load may have created the record).
   */
  function Claim(s: Store, telegramId: string, questId: string, now: string): (res: (ClaimReply, Store))
    ensures questId != QuestId ==> res == (ClaimRejected(InvalidQuest), s)
    ensures questId == QuestId ==>
      (res.0.RewardClaimed? <==> Key(telegramId) in s && s[Key(telegramId)].beincom == Verified)
    ensures questId == QuestId ==>
      (res.0 == AlreadyClaimed <==> Key(telegramId) in s && s[Key(telegramId)].beincom == Claimed)
    ensures questId == QuestId ==>
      (res.0 == ClaimRejected(NotReady) <==> Key(telegramId) !in s || s[Key(telegramId)].beincom == Pending)
    ensures questId == QuestId ==> res.1.Keys == s.Keys + {Key(telegramId)}
    ensures res.0.RewardClaimed? ==>
      && res.0.points == s[Key(telegramId)].points + Reward
      && res.1[Key(telegramId)].points == res.0.points
      && res.1[Key(telegramId)].beincom == Claimed
    ensures res.0 == AlreadyClaimed ==> res.1 == s
    ensures res.0 == ClaimRejected(NotReady) ==> res.1 == Load(s, telegramId, now).1
  {
    if questId != QuestId then (ClaimRejected(InvalidQuest), s)
    else
      var (user, s1) := Load(s, telegramId, now);
      match user.beincom
      case Verified =>
        var claimed := user.(beincom := Claimed, points := user.points + Reward);
        (RewardClaimed(claimed.points), s1[Key(telegramId) := claimed])
      case Claimed => (AlreadyClaimed, s1)
      case Pending => (ClaimRejected(NotReady), s1)
  }

  // ---------------------------------------------------------------------
  // Requests and runs of requests

  /** One request to the backend; `now` is the clock reading a creation would record. */
  datatype Request =
    | FetchUser(telegramId: string, now: string)
    | FetchQuests(telegramId: string, now: string)
    | VerifyQuest(telegramId: string, questId: string, now: string)
    | ClaimQuest(telegramId: string, questId: string, now: string)

  /** The store after one request, each handled as one atomic step. */
  function Step(s: Store, req: Request): Store
  {
    match req
    case FetchUser(id, now) => Load(s, id, now).1
    case FetchQuests(id, now) => ListQuests(s, id, now).1
    case VerifyQuest(id, q, now) => Verify(s, id, q, now).1
    case ClaimQuest(id, q, now) => Claim(s, id, q, now).1
  }

  /** The store after a sequence of requests handled one after the other. */
  function Run(s: Store, reqs: seq<Request>): Store
    decreases |reqs|
  {
    if reqs == [] then s else Run(Step(s, reqs[0]), reqs[1..])
  }

  /**
   * One request touches only its own user's key: every other record stays as
   * it was, no other key appears, and the requester's existing record makes a
   * legal single transition. A record created by the request starts from the
   * default record.
   */
  lemma StepFrame(s: Store, req: Request)
    ensures Step(s, req).Keys <= s.Keys + {Key(req.telegramId)}
    ensures forall k :: k in s && k != Key(req.telegramId) ==> k in Step(s, req) && Step(s, req)[k] == s[k]
    ensures Key(req.telegramId) in s ==>
      Key(req.telegramId) in Step(s, req) && Transition(s[Key(req.telegramId)], Step(s, req)[Key(req.telegramId)])
    ensures Key(req.telegramId) !in s && Key(req.telegramId) in Step(s, req) ==>
      Transition(NewUser(req.telegramId, req.now), Step(s, req)[Key(req.telegramId)])
  {
  }

  /** Every request keeps the store consistent. */
  lemma StepPreservesValid(s: Store, req: Request)
    requires StoreValid(s)
    ensures StoreValid(Step(s, req))
  {
  }

  /**
   * Across any sequence of requests no record is lost and every record only
   * advances: its status never moves backwards, and its points never
   * decrease and grow by the reward exactly when it becomes claimed.
   */
  lemma {:induction false} RunAdvances(s: Store, reqs: seq<Request>)
    ensures forall k :: k in s ==> k in Run(s, reqs) && Advanced(s[k], Run(s, reqs)[k])
    decreases |reqs|
  {
    if reqs != [] {
      var s1 := Step(s, reqs[0]);
      StepFrame(s, reqs[0]);
      RunAdvances(s1, reqs[1..]);
      forall k | k in s
        ensures k in Run(s, reqs) && Advanced(s[k], Run(s, reqs)[k])
      {
        if k == Key(reqs[0].telegramId) {
          TransitionAdvances(s[k], s1[k]);
        }
        AdvancedTransitive(s[k], s1[k], Run(s1, reqs[1..])[k]);
      }
    }
  }

  /**
   * Running two sequences of requests one after the other is running their
   * concatenation, so a fact about runs applies from any intermediate store,
   * including to records created partway through.
   */
  lemma {:induction false} RunAppend(s: Store, first: seq<Request>, second: seq<Request>)
    ensures Run(s, first + second) == Run(Run(s, first), second)
    decreases |first|
  {
    if first != [] {
      assert (first + second)[0] == first[0];
      assert (first + second)[1..] == first[1..] + second;
      RunAppend(Step(s, first[0]), first[1..], second);
    } else {
      assert first + second == second;
    }
  }

  /**
   * A record that exists at any point of a run only advances from there to
   * the end of the run, whether it existed at the start or was created on the
   * way.
   */
  lemma LaterRecordsAdvance(s: Store, first: seq<Request>, second: seq<Request>, k: string)
    requires k in Run(s, first)
    ensures k in Run(s, first + second)
    ensures Advanced(Run(s, first)[k], Run(s, first + second)[k])
  {
    RunAppend(s, first, second);
    RunAdvances(Run(s, first), second);
  }

  /** Across any sequence of requests the store stays consistent. */
  lemma {:induction false} RunPreservesValid(s: Store, reqs: seq<Request>)
    requires StoreValid(s)
    ensures StoreValid(Run(s, reqs))
    decreases |reqs|
  {
    if reqs != [] {
      StepPreservesValid(s, reqs[0]);
      RunPreservesValid(Step(s, reqs[0]), reqs[1..]);
    }
  }

  /**
   * In a consistent store a user holds the reward exactly when the quest is
   * claimed, and never more than one reward.
   */
  lemma PointsMatchStatus(s: Store, telegramId: string)
    requires StoreValid(s) && Key(telegramId) in s
    ensures s[Key(telegramId)].points <= Reward
    ensures s[Key(telegramId)].points == Reward <==> s[Key(telegramId)].beincom == Claimed
  {
  }

  /**
   * Points are credited at most once: after a successful claim, whatever
   * requests follow, a further claim by the same user is answered "already
   * claimed" and changes nothing.
   */
  lemma ClaimCreditsOnce(s: Store, telegramId: string, now: string, reqs: seq<Request>, later: string)
    requires Claim(s, telegramId, QuestId, now).0.RewardClaimed?
    ensures var s' := Run(Claim(s, telegramId, QuestId, now).1, reqs);
      Claim(s', telegramId, QuestId, later) == (AlreadyClaimed, s')
  {
    var s1 := Claim(s, telegramId, QuestId, now).1;
    RunAdvances(s1, reqs);
  }

  /** Verifying twice writes at most once: the second verify is a no-op. */
  lemma VerifyIdempotent(s: Store, telegramId: string, now: string, later: string)
    ensures var s1 := Verify(s, telegramId, QuestId, now).1;
      Verify(s1, telegramId, QuestId, later) == (AlreadyVerified, s1)
  {
  }

  /** A claim before any verify is refused and credits nothing. */
  lemma ClaimBeforeVerify(s: Store, telegramId: string, now: string)
    requires Key(telegramId) !in s || s[Key(telegramId)].beincom == Pending
    ensures var (reply, s') := Claim(s, telegramId, QuestId, now);
      && reply == ClaimRejected(NotReady)
      && s'[Key(telegramId)].beincom == Pending
      && s'[Key(telegramId)].points == (if Key(telegramId) in s then s[Key(telegramId)].points else 0)
  {
  }

  /**
   * The whole life of a new user: the default record, a verify, a claim
   * crediting 100 points, and a repeated claim that credits nothing.
   */
  lemma FirstVisitToReward(telegramId: string, now: string)
    ensures var (user, s1) := Load(map[], telegramId, now);
      && user.points == 0 && user.beincom == Pending
      && var (v, s2) := Verify(s1, telegramId, QuestId, now);
      && v == NewlyVerified
      && var (c, s3) := Claim(s2, telegramId, QuestId, now);
      && c == RewardClaimed(100)
      && Claim(s3, telegramId, QuestId, now) == (AlreadyClaimed, s3)
      && s3[Key(telegramId)].points == 100
  {
  }
}
