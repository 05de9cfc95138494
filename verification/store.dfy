/**
 * The persisted records (legal acts, act events, outbox records, users,
 * subscriptions, the system-state table) and the in-memory database that
 * stands in for the relational store. Each table is a field of `Database`;
 * a row is a datatype value, and an update of a row's fields replaces it.
 */
module Store {
  import opened Js
  import opened Mapper

  datatype ActEventType = CREATED | UPDATED

  /** One legal act, unique by `eqanunId`. */
  datatype LegalAct = LegalAct(
    eqanunId: int,
    publishedDate: Option<string>,
    category: string,
    title: string,
    summary: Option<string>,
    url: string,
    contentHash: Option<string>)

  /** Append-only record that an act was created or updated, with the raw input as snapshot. */
  datatype ActEvent = ActEvent(eqanunId: int, eventType: ActEventType, snapshot: RawAct)

  datatype OutboxKind = NEW_ACTS_DETECTED | ACT_CHANGE_DETECTED | USER_NOTIFICATION

  datatype OutboxStatus = NEW | SENT | FAILED

  /**
   * The payload of an outbox record: a change of an act for the two change
   * kinds (`updated` is false when the key is absent), a message to one chat
   * for `USER_NOTIFICATION`.
   */
  datatype Payload =
    | ChangePayload(eqanunId: int, event: ActEventType, updated: bool)
    | NotificationPayload(
        telegramChatId: string,
        eqanunId: int,
        title: string,
        category: string,
        url: string,
        updated: bool,
        originalTitleLength: Option<int>)

  /** One outbox row; rows are kept in creation order, so the index is the age. */
  datatype OutboxRecord = OutboxRecord(kind: OutboxKind, payload: Payload, status: OutboxStatus, attempts: int)

  /** The `type` column of a subscription; the column is free text, so other values can occur. */
  datatype SubFilterType = ALL | CATEGORY | KEYWORD | OtherFilter(name: string)

  /** A subscription of the user with chat id `chatId`. */
  datatype Subscription = Subscription(chatId: string, filterType: SubFilterType, query: Option<string>, isActive: bool)

  datatype User = User(telegramChatId: string, locale: string)

  /** The delivery attempt at which a notification is given up. */
  const MaxAttempts: int := 5

  /** Key of the ingestion watermark in the system-state table. */
  const LastSeenKey: string := "lastSeenEqanunId"

  /** Every act is stored under its own `eqanunId`, so there is at most one act per id. */
  ghost predicate ActsKeyed(acts: map<int, LegalAct>) {
    forall id :: id in acts ==> acts[id].eqanunId == id
  }

  ghost predicate UsersKeyed(users: map<string, User>) {
    forall chatId :: chatId in users ==> users[chatId].telegramChatId == chatId
  }

  /** A user notification carries a notification payload, a change record a change payload. */
  predicate PayloadMatchesKind(r: OutboxRecord) {
    (r.kind == USER_NOTIFICATION) == r.payload.NotificationPayload?
  }

  /** Attempts stay within the ceiling, and a record still waiting has attempts left. */
  predicate RetryBounded(r: OutboxRecord) {
    0 <= r.attempts <= MaxAttempts && (r.status == NEW ==> r.attempts < MaxAttempts)
  }

  ghost predicate OutboxWellFormed(outbox: seq<OutboxRecord>) {
    forall i :: 0 <= i < |outbox| ==> PayloadMatchesKind(outbox[i]) && RetryBounded(outbox[i])
  }

  /** Two subscriptions clash on the unique key (user, type, query); a null query never clashes. */
  predicate SameKey(a: Subscription, b: Subscription) {
    a.chatId == b.chatId && a.filterType == b.filterType && a.query.Some? && a.query == b.query
  }

  ghost predicate SubscriptionsUnique(subs: seq<Subscription>) {
    forall i, j :: 0 <= i < j < |subs| ==> !SameKey(subs[i], subs[j])
  }

  /** The watermark is stored as a decimal numeral. */
  ghost predicate StateWellFormed(state: map<string, string>) {
    LastSeenKey in state ==> IsDigits(state[LastSeenKey])
  }

  /** The watermark read back as a number, absent before the first write. */
  function LastSeen(state: map<string, string>): Option<int>
    requires StateWellFormed(state)
  {
    if LastSeenKey in state then Some(ParseNat(state[LastSeenKey])) else None
  }

  /** The system-state table after an ingestion batch whose largest id is `maxId`. */
  function WriteWatermark(state: map<string, string>, maxId: int): map<string, string> {
    if maxId > 0 then state[LastSeenKey := ShowNat(maxId)] else state
  }

  /** A positive watermark that is written is read back unchanged; otherwise nothing changes. */
  lemma WatermarkRoundTrip(state: map<string, string>, maxId: int)
    requires StateWellFormed(state)
    ensures StateWellFormed(WriteWatermark(state, maxId))
    ensures maxId > 0 ==> LastSeen(WriteWatermark(state, maxId)) == Some(maxId)
    ensures maxId <= 0 ==> LastSeen(WriteWatermark(state, maxId)) == LastSeen(state)
  {
    if maxId > 0 {
      ParseShow(maxId);
    }
  }

  /** Which consumer claims outbox records. */
  datatype Consumer = Planner | Sender

  /** A record that `c` picks up: still NEW and of the kind it consumes. */
  predicate Claimable(c: Consumer, r: OutboxRecord) {
    r.status == NEW &&
    match c
    case Planner => r.kind == NEW_ACTS_DETECTED || r.kind == ACT_CHANGE_DETECTED
    case Sender => r.kind == USER_NOTIFICATION
  }

  /**
   * The indices, from `from` on, of the first `limit` records `c` picks up,
   * oldest first: the `find({ where, take, order: { createdAt: 'ASC' } })` query.
   */
  function ClaimFrom(outbox: seq<OutboxRecord>, c: Consumer, limit: nat, from: nat): (r: seq<nat>)
    ensures |r| <= limit
    ensures forall k :: 0 <= k < |r| ==> from <= r[k] < |outbox| && Claimable(c, outbox[r[k]])
    ensures forall k, l :: 0 <= k < l < |r| ==> r[k] < r[l]
    ensures forall i :: from <= i < |outbox| && Claimable(c, outbox[i]) && i !in r ==>
              |r| == limit && forall k :: 0 <= k < |r| ==> r[k] < i
    decreases |outbox| - from
  {
    if from >= |outbox| || limit == 0 then []
    else if Claimable(c, outbox[from]) then [from] + ClaimFrom(outbox, c, limit - 1, from + 1)
    else ClaimFrom(outbox, c, limit, from + 1)
  }

  function Claim(outbox: seq<OutboxRecord>, c: Consumer, limit: nat): seq<nat> {
    ClaimFrom(outbox, c, limit, 0)
  }

  /** The tables of the relational store. */
  class Database {
    var acts: map<int, LegalAct>
    var events: seq<ActEvent>
    var outbox: seq<OutboxRecord>
    var systemState: map<string, string>
    var users: map<string, User>
    var subscriptions: seq<Subscription>

    /** The constraints the schema and the services keep. */
    ghost predicate Valid()
      reads this
    {
      && ActsKeyed(acts)
      && UsersKeyed(users)
      && OutboxWellFormed(outbox)
      && SubscriptionsUnique(subscriptions)
      && StateWellFormed(systemState)
    }

    /** An empty database, as after the migrations. */
    constructor ()
      ensures Valid()
      ensures acts == map[] && events == [] && outbox == [] && systemState == map[]
      ensures users == map[] && subscriptions == []
    {
      acts, events, outbox, systemState := map[], [], [], map[];
      users, subscriptions := map[], [];
    }
  }
}
