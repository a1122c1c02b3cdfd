# Quest ledger of the Telegram mini-app backend

The backend keeps one record per Telegram user in a key-value store, under the
key `user:<telegramId>`. A record holds the user's `points` and the status of
the one quest of the catalog, `beincom`. The status moves `DO` → `CLAIM` →
`CLAIMED`. Four handlers work on it:

- `getUserData` returns the stored record. For a user without one, it first
  writes a default record (`points: 0`, `beincom: 'DO'`). `GET /api/user` is
  this helper and nothing more.
- `GET /api/quests/:telegramId` joins the fixed one-quest catalog with the
  user's stored status.
- `POST /api/quest/verify` moves `DO` to `CLAIM`.
- `POST /api/quest/claim` moves `CLAIM` to `CLAIMED` and credits 100 points in
  the same write.

The project has two modules:

- `quests.dfy`, module `Quests`. It defines the records, the store (a `map`
  from key to record) and every handler as a function from the old store to a
  reply and the new store. It also holds the invariants and the lemmas about
  single requests and about any sequence of requests.
- `ledger.dfy`, module `Ledger`. Class `QuestLedger` holds the store as a
  mutable field. Its methods run the handlers the way the source does: load the
  record, change the loaded copy, write the whole record back. Each of the
  four handler methods (`GetUserData`, `GetQuests`, `VerifyQuest`,
  `ClaimQuest`) is proved to reply and to leave the store exactly as the
  matching `Quests` function says, and to keep the store consistent.
  `UpdateUserData` has no matching function: it overwrites one key, and keeps
  the store consistent only when the record it writes is consistent and
  carries the id of its key. `FirstVisit` drives one new user through the
  handlers as a client of the class.

Statuses are the datatype `QuestStatus` (`Pending`, `Verified`, `Claimed`).
`StatusName` gives their stored names `DO`, `CLAIM` and `CLAIMED`. Handler
outcomes are values. Verify replies `NewlyVerified` ("verified"),
`AlreadyVerified` or `VerifyRejected(InvalidQuest)`. Claim replies
`RewardClaimed(points)` ("claimed"), `AlreadyClaimed`,
`ClaimRejected(InvalidQuest)` or `ClaimRejected(NotReady)`. The two rejections
are the source's 400 responses "Invalid quest ID" and "Quest not ready for
claiming".

A store is consistent (`StoreValid`) when every record sits under its own
user's key and holds 100 points exactly when its quest is claimed. The empty
store is consistent, and every handler keeps it that way.

Three points where the handlers behave differently from what a client might expect:

- An `already_claimed` reply carries no point total. The code sends none
  (backend/index.js:147).
- A claim on a quest still at `DO` may leave a newly created record behind.
  The code loads, and so creates, the record before it checks the status.
- No handler is atomic against concurrent requests for the same user. Each
  handler is modelled as one sequential step.

## Model

| member | source | states |
|---|---|---|
| `Quests.Key` | backend/index.js:35 | a user's store key is `user:` followed by the id, and the id can be read back from it |
| `Quests.KeyInjective` | backend/index.js:58 | different users have different keys, so a handler for one user never reaches another user's record |
| `Quests.NewUser` | backend/index.js:38-45 | a first-time user's record has 0 points, quest status `DO`, the user's own id and the creation time |
| `Quests.StatusName` | backend/index.js:42 | each status is stored and reported as one of `DO`, `CLAIM`, `CLAIMED` |
| `Quests.StatusNameInjective` | backend/index.js:42 | the three statuses are stored and reported under three different names |
| `Quests.TransitionAdvances` | backend/index.js:114-116 | every legal single move keeps the user and creation time, never moves the status back, skips no status, and changes points only by +100 on entering `CLAIMED` |
| `Quests.TransitionPreservesValid` | backend/index.js:137-140 | a legal move keeps "100 points exactly when claimed" true |
| `Quests.Load` | backend/index.js:33-54 | the returned record is the one stored afterwards; an existing record comes back unchanged and nothing is written; otherwise the default record is written; no other key is touched |
| `Quests.QuestList` | backend/index.js:88-95 | the view is one quest, `beincom`, with reward 100, and its status names exactly the stored status |
| `Quests.ListQuests` | backend/index.js:83-97 | the quest list changes the store exactly as `getUserData` does and reports the stored record |
| `Quests.Verify` | backend/index.js:104-124 | an unknown quest id is refused and the store is untouched; "verified" exactly when the status was `DO` or there was no record, and the status is then `CLAIM`; "already verified" exactly when it was `CLAIM` or `CLAIMED`, and nothing is written |
| `Quests.Claim` | backend/index.js:127-154 | an unknown quest id is refused and the store is untouched; "claimed" exactly when the status was `CLAIM`, with the status then `CLAIMED` and the stored and reported points the old points plus 100; "already claimed" exactly when it was `CLAIMED`, and nothing is written; "not ready" exactly when it was `DO` or there was no record, and only the load's write happens |
| `Quests.StepFrame` | backend/index.js:104-154 | one request touches only its own user's key; that user's existing record makes one legal move, and a record created by the request starts from the default record |
| `Quests.StepPreservesValid` | backend/index.js:137-140 | every request keeps the store consistent |
| `Quests.RunAdvances` | backend/index.js:112-140 | across any sequence of requests no record disappears, statuses never move back, points never decrease, and points grow by 100 exactly when the quest becomes claimed |
| `Quests.RunAppend` | backend/index.js:112-140 | running two sequences of requests in turn is running their concatenation |
| `Quests.LaterRecordsAdvance` | backend/index.js:112-140 | a record present at any point of a run, including one created during it, only advances from there to the end of the run |
| `Quests.RunPreservesValid` | backend/index.js:38-46 | across any sequence of requests the store stays consistent |
| `Quests.PointsMatchStatus` | backend/index.js:139 | in a consistent store a user has at most 100 points, and has 100 exactly when the quest is claimed |
| `Quests.ClaimCreditsOnce` | backend/index.js:146-147 | after a successful claim, whatever requests follow, the same user's next claim is answered "already claimed" and changes nothing, so the reward is credited at most once |
| `Quests.VerifyIdempotent` | backend/index.js:118-119 | a second verify of the quest answers "already verified" and writes nothing |
| `Quests.ClaimBeforeVerify` | backend/index.js:148-149 | a claim while the quest is at `DO` is refused as not ready, and the status and points stay as they were |
| `Quests.FirstVisitToReward` | backend/index.js:112-145 | a new user starts at 0 points and `DO`; verify answers "verified"; claim answers "claimed" with 100 points; a repeated claim answers "already claimed" and leaves the 100 points |
| `Ledger.QuestLedger.GetUserData` | backend/index.js:33-54 | the in-place handler returns and stores exactly what `Quests.Load` gives, and keeps the store consistent |
| `Ledger.QuestLedger.UpdateUserData` | backend/index.js:56-64 | the user's key now holds the given record, every other key is unchanged, and the record is returned |
| `Ledger.QuestLedger.GetQuests` | backend/index.js:83-97 | the in-place handler returns and stores exactly what `Quests.ListQuests` gives |
| `Ledger.QuestLedger.VerifyQuest` | backend/index.js:104-124 | the in-place handler replies and stores exactly what `Quests.Verify` gives, and keeps the store consistent |
| `Ledger.QuestLedger.ClaimQuest` | backend/index.js:127-154 | the in-place handler replies and stores exactly what `Quests.Claim` gives, and keeps the store consistent |

## Left out

- HTTP routing, CORS, the health route, status codes and server startup are
  left out. A handler's outcome is a reply value; the 400 responses are the
  `Failure` values.
- The Redis client is replaced by an in-model `map`. Its connection, its error
  events and the 500 responses that follow a failed store call are left out.
  So the model has no store-unavailable error, and every store call succeeds.
- JSON serialisation of records is left out; records are stored as structured
  values. The source treats a stored empty string as "no record"; a structured
  store has no such value.
- `createdAt` is an opaque string passed in as `now`. No handler changes it.
  The clock is not modelled.
- The quest's title, description and URL are constant text or string
  interpolation, so `QuestView` carries only the id, the reward and the status.
- `telegramId` is a string. The POST handlers take it from the JSON body
  unchecked, so it may be a number, `null`, an object or missing. The key
  template then turns it into a string such as `user:12345`, `user:null`,
  `user:undefined` or `user:[object Object]`. That key is shared with the
  path id `"12345"`, `"null"` or `"undefined"`, and the stored `telegramId`
  field is not that string. For such requests `StoreValid`'s "stored under
  its own user's key" and `Quests.KeyInjective`'s "a handler for one user
  never reaches another user's record" do not describe the source.
- Points are unbounded naturals. The 2^53 precision limit of JavaScript numbers
  is not modelled.
- Concurrency is left out. The source reads a record and writes it back later
  with no compare-and-set, so two claims can interleave between the read and
  the write. The model runs each handler as one atomic step, and its
  statements hold for sequential requests only.
- The client UI, the bot and the serverless mock API are not part of this
  model. They hold no ledger logic.
