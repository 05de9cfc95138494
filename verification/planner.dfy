/**
 * The notification planner (`NotifPlannerService`): claims up to 200 waiting
 * change records, oldest first, and for each one whose act exists writes one
 * user notification per active subscription matching the act, then marks
 * the change record SENT (or FAILED when the act is missing).
 */
module Planning {
  import opened Js
  import opened TextUtil
  import opened Store

  /** How many change records one run claims. */
  const PlanBatch: nat := 200

  /**
   * `matches(sub, act)`: ALL matches everything; CATEGORY compares the query
   * with the act's category ignoring case; KEYWORD looks for the lower-cased
   * query in the lower-cased title; any other type matches nothing. A
   * missing query counts as empty.
   */
  function Matches(sub: Subscription, act: LegalAct): bool {
    match sub.filterType
    case ALL => true
    case CATEGORY => Lower(OrEmpty(sub.query)) == Lower(act.category)
    case KEYWORD => Includes(Lower(act.title), Lower(OrEmpty(sub.query)))
    case OtherFilter(_) => false
  }

  /** A keyword subscription with an empty or missing query matches every act. */
  lemma EmptyKeywordMatchesAll(sub: Subscription, act: LegalAct)
    requires sub.filterType == KEYWORD && (sub.query == None || sub.query == Some(""))
    ensures Matches(sub, act)
  {
    assert Lower("") == "";
    IncludesEmpty(Lower(act.title));
  }

  /** A keyword that occurs in the title, in any letter case, matches. */
  lemma KeywordInTitleMatches(sub: Subscription, act: LegalAct, before: string, after: string)
    requires sub.filterType == KEYWORD && sub.query.Some?
    requires Lower(act.title) == Lower(before + sub.query.value + after)
    ensures Matches(sub, act)
  {
    var q := sub.query.value;
    LowerAppend(before + q, after);
    LowerAppend(before, q);
    var t := Lower(act.title);
    assert t == Lower(before) + Lower(q) + Lower(after);
    assert t[|Lower(before)|..|Lower(before)| + |Lower(q)|] == Lower(q);
    assert OccursAt(t, Lower(q), |Lower(before)|);
  }

  /**
   * Matching sees a query stored upper-cased (as the bot stores categories)
   * as the original query with every dotless `ı` dotted, since `ı`
   * upper-cases to `I`; a query without `ı` matches exactly as the original.
   */
  lemma MatchesIgnoresQueryCase(sub: Subscription, act: LegalAct, q: string)
    requires sub.query == Some(Upper(q))
    ensures Matches(sub, act) == Matches(sub.(query := Some(Undot(q))), act)
    ensures 'ı' !in q ==> Matches(sub, act) == Matches(sub.(query := Some(q)), act)
  {
    LowerOfUpper(q);
    LowerUndot(q);
    if 'ı' !in q {
      UndotFree(q);
    }
  }

  /**
   * A category subscription matches an act exactly when the categories agree
   * up to case, once the query's dotless `ı` are dotted.
   */
  lemma CategoryMatch(sub: Subscription, act: LegalAct, q: string)
    requires sub.filterType == CATEGORY && sub.query == Some(Upper(q))
    ensures Matches(sub, act) <==> Undot(Lower(q)) == Lower(act.category)
    ensures 'ı' !in q ==> (Matches(sub, act) <==> Lower(q) == Lower(act.category))
  {
    LowerOfUpper(q);
    if 'ı' !in q {
      LowerOfUpperDotted(q);
    }
  }

  /** `find({ where: { isActive: true } })`: the active subscriptions, in table order. */
  function Active(subs: seq<Subscription>): (r: seq<Subscription>)
    decreases |subs|
  {
    if subs == [] then []
    else Active(subs[..|subs| - 1]) + (if subs[|subs| - 1].isActive then [subs[|subs| - 1]] else [])
  }

  /** A subscription is listed exactly when it is stored and active. */
  lemma {:induction false} ActiveMembers(subs: seq<Subscription>)
    ensures forall s :: s in Active(subs) <==> s in subs && s.isActive
    decreases |subs|
  {
    if subs != [] {
      ActiveMembers(subs[..|subs| - 1]);
      assert subs == subs[..|subs| - 1] + [subs[|subs| - 1]];
    }
  }

  /**
   * The user notification for one subscription: the act's title cut to 3000
   * code units and escaped, with the original length when it was cut.
   */
  function Notification(sub: Subscription, act: LegalAct, eqanunId: int, updated: bool): OutboxRecord {
    var safe := BuildSafeTitleForTelegram(act.title, DefaultHardCap);
    OutboxRecord(
      USER_NOTIFICATION,
      NotificationPayload(sub.chatId, eqanunId, safe.title, act.category, act.url, updated,
                          if safe.truncated then Some(safe.originalLength) else None),
      NEW, 0)
  }

  /** The notifications for one act, one per matching subscription, in order. */
  function FanOut(subs: seq<Subscription>, act: LegalAct, eqanunId: int, updated: bool): seq<OutboxRecord>
    decreases |subs|
  {
    if subs == [] then []
    else
      var s := subs[|subs| - 1];
      FanOut(subs[..|subs| - 1], act, eqanunId, updated)
        + (if Matches(s, act) then [Notification(s, act, eqanunId, updated)] else [])
  }

  /** A notification is written for exactly the subscriptions that match. */
  lemma {:induction false} FanOutMembers(subs: seq<Subscription>, act: LegalAct, eqanunId: int, updated: bool)
    ensures forall s :: s in subs && Matches(s, act) ==> Notification(s, act, eqanunId, updated) in FanOut(subs, act, eqanunId, updated)
    ensures forall r :: r in FanOut(subs, act, eqanunId, updated) ==>
              exists s :: s in subs && Matches(s, act) && r == Notification(s, act, eqanunId, updated)
    decreases |subs|
  {
    if subs != [] {
      var init := subs[..|subs| - 1];
      FanOutMembers(init, act, eqanunId, updated);
      assert subs == init + [subs[|subs| - 1]];
    }
  }

  /** The subscriptions that match the act, in table order; a row stored twice is listed twice. */
  function Matching(subs: seq<Subscription>, act: LegalAct): seq<Subscription>
    decreases |subs|
  {
    if subs == [] then []
    else Matching(subs[..|subs| - 1], act) + (if Matches(subs[|subs| - 1], act) then [subs[|subs| - 1]] else [])
  }

  /** Each matching row is listed as often as it is stored, and no other row is listed. */
  lemma {:induction false} MatchingCounts(subs: seq<Subscription>, act: LegalAct)
    ensures forall s :: multiset(Matching(subs, act))[s] == if Matches(s, act) then multiset(subs)[s] else 0
    decreases |subs|
  {
    if subs != [] {
      var init, last := subs[..|subs| - 1], subs[|subs| - 1];
      MatchingCounts(init, act);
      assert subs == init + [last];
      assert multiset(subs) == multiset(init) + multiset{last};
    }
  }

  /** Each active row is listed as often as it is stored, and no inactive row is listed. */
  lemma {:induction false} ActiveCounts(subs: seq<Subscription>)
    ensures forall s :: multiset(Active(subs))[s] == if s.isActive then multiset(subs)[s] else 0
    decreases |subs|
  {
    if subs != [] {
      var init, last := subs[..|subs| - 1], subs[|subs| - 1];
      ActiveCounts(init);
      assert subs == init + [last];
      assert multiset(subs) == multiset(init) + multiset{last};
    }
  }

  /**
   * The fan-out writes exactly one notification per matching subscription
   * row, in table order: the `k`-th notification is that of the `k`-th
   * matching row.
   */
  lemma {:induction false} FanOutExact(subs: seq<Subscription>, act: LegalAct, eqanunId: int, updated: bool)
    ensures |FanOut(subs, act, eqanunId, updated)| == |Matching(subs, act)|
    ensures forall k :: 0 <= k < |Matching(subs, act)| ==>
              FanOut(subs, act, eqanunId, updated)[k] == Notification(Matching(subs, act)[k], act, eqanunId, updated)
    decreases |subs|
  {
    if subs != [] {
      FanOutExact(subs[..|subs| - 1], act, eqanunId, updated);
    }
  }

  /** Every notification is a NEW user notification with no attempts, and so well formed. */
  lemma {:induction false} FanOutWellFormed(subs: seq<Subscription>, act: LegalAct, eqanunId: int, updated: bool)
    ensures forall k :: 0 <= k < |FanOut(subs, act, eqanunId, updated)| ==>
              var r := FanOut(subs, act, eqanunId, updated)[k];
              r.kind == USER_NOTIFICATION && r.status == NEW && r.attempts == 0
              && r.payload.NotificationPayload? && r.payload.telegramChatId in ChatIds(subs)
              && r.payload.eqanunId == eqanunId
    decreases |subs|
  {
    if subs != [] {
      FanOutWellFormed(subs[..|subs| - 1], act, eqanunId, updated);
    }
  }

  function ChatIds(subs: seq<Subscription>): set<string> {
    set s | s in subs :: s.chatId
  }

  /** The status a claimed change record ends with: SENT when its act exists, FAILED otherwise. */
  function Outcome(acts: map<int, LegalAct>, evt: OutboxRecord): OutboxStatus {
    if evt.payload.eqanunId in acts then SENT else FAILED
  }

  /** The notifications one claimed change record gives rise to. */
  function NotificationsFor(acts: map<int, LegalAct>, subs: seq<Subscription>, evt: OutboxRecord): seq<OutboxRecord> {
    var id := evt.payload.eqanunId;
    if id in acts then FanOut(Active(subs), acts[id], id, evt.payload.updated) else []
  }

  /**
   * One pass of the planner's loop over the record at `idx`: FAILED when the
   * act is missing; otherwise the notifications are appended and the record
   * is marked SENT.
   */
  function PlanOne(outbox: seq<OutboxRecord>, acts: map<int, LegalAct>, subs: seq<Subscription>, idx: nat): (r: seq<OutboxRecord>)
    requires idx < |outbox|
    ensures |outbox| <= |r|
  {
    var evt := outbox[idx];
    (outbox + NotificationsFor(acts, subs, evt))[idx := evt.(status := Outcome(acts, evt))]
  }

  /** The planner's loop over the claimed records, in order. */
  function PlanAll(outbox: seq<OutboxRecord>, acts: map<int, LegalAct>, subs: seq<Subscription>, pending: seq<nat>): (r: seq<OutboxRecord>)
    requires forall k :: 0 <= k < |pending| ==> pending[k] < |outbox|
    ensures |outbox| <= |r|
    decreases |pending|
  {
    if pending == [] then outbox
    else PlanOne(PlanAll(outbox, acts, subs, pending[..|pending| - 1]), acts, subs, pending[|pending| - 1])
  }

  /** The table after a run: the claimed records, oldest 200 first, planned. */
  function PlanRun(outbox: seq<OutboxRecord>, acts: map<int, LegalAct>, subs: seq<Subscription>): seq<OutboxRecord> {
    PlanAll(outbox, acts, subs, Claim(outbox, Planner, PlanBatch))
  }

  /** The claimed records with their final status; the others as they were. */
  function Marked(outbox: seq<OutboxRecord>, acts: map<int, LegalAct>, pending: seq<nat>): (r: seq<OutboxRecord>)
    ensures |r| == |outbox|
  {
    seq(|outbox|, i requires 0 <= i < |outbox| =>
      if i in pending then outbox[i].(status := Outcome(acts, outbox[i])) else outbox[i])
  }

  /** The notifications of the claimed records, record by record. */
  function AllNotifications(outbox: seq<OutboxRecord>, acts: map<int, LegalAct>, subs: seq<Subscription>, pending: seq<nat>): seq<OutboxRecord>
    requires forall k :: 0 <= k < |pending| ==> pending[k] < |outbox|
    decreases |pending|
  {
    if pending == [] then []
    else AllNotifications(outbox, acts, subs, pending[..|pending| - 1])
         + NotificationsFor(acts, subs, outbox[pending[|pending| - 1]])
  }

  lemma MarkedSnoc(outbox: seq<OutboxRecord>, acts: map<int, LegalAct>, pending: seq<nat>, idx: nat)
    requires idx < |outbox| && idx !in pending
    ensures Marked(outbox, acts, pending + [idx])
            == Marked(outbox, acts, pending)[idx := outbox[idx].(status := Outcome(acts, outbox[idx]))]
  {
  }

  lemma AppendAssoc<T>(a: seq<T>, b: seq<T>, c: seq<T>)
    ensures (a + b) + c == a + (b + c)
  {
  }

  /** Updating inside the first part of a concatenation leaves the second part alone. */
  lemma UpdateInPrefix<T>(a: seq<T>, b: seq<T>, i: nat, v: T)
    requires i < |a|
    ensures (a + b)[i := v] == a[i := v] + b
  {
  }

  /** The last claimed record is planned on the table the earlier ones left behind. */
  lemma PlanAllUnfold(outbox: seq<OutboxRecord>, acts: map<int, LegalAct>, subs: seq<Subscription>, pending: seq<nat>)
    requires pending != []
    requires forall k :: 0 <= k < |pending| ==> pending[k] < |outbox|
    ensures var idx := pending[|pending| - 1];
      var r := PlanAll(outbox, acts, subs, pending[..|pending| - 1]);
      PlanAll(outbox, acts, subs, pending)
      == (r + NotificationsFor(acts, subs, r[idx]))[idx := r[idx].(status := Outcome(acts, r[idx]))]
  {
  }

  /** The notifications of one more claimed record follow those of the earlier ones. */
  lemma AllNotificationsUnfold(outbox: seq<OutboxRecord>, acts: map<int, LegalAct>, subs: seq<Subscription>, pending: seq<nat>)
    requires pending != []
    requires forall k :: 0 <= k < |pending| ==> pending[k] < |outbox|
    ensures AllNotifications(outbox, acts, subs, pending)
            == AllNotifications(outbox, acts, subs, pending[..|pending| - 1])
               + NotificationsFor(acts, subs, outbox[pending[|pending| - 1]])
  {
  }

  /** A record that is not claimed keeps its place and contents in the marked table. */
  lemma MarkedUnclaimed(outbox: seq<OutboxRecord>, acts: map<int, LegalAct>, pending: seq<nat>, idx: nat)
    requires idx < |outbox| && idx !in pending
    ensures Marked(outbox, acts, pending)[idx] == outbox[idx]
  {
  }

  /** One more claimed record: the closed form carries over to the longer run. */
  lemma PlanAllStep(outbox: seq<OutboxRecord>, acts: map<int, LegalAct>, subs: seq<Subscription>,
                    init: seq<nat>, idx: nat)
    requires idx < |outbox| && idx !in init
    requires forall k :: 0 <= k < |init| ==> init[k] < |outbox|
    requires PlanAll(outbox, acts, subs, init) == Marked(outbox, acts, init) + AllNotifications(outbox, acts, subs, init)
    ensures PlanAll(outbox, acts, subs, init + [idx])
            == Marked(outbox, acts, init + [idx]) + AllNotifications(outbox, acts, subs, init + [idx])
  {
    var pending := init + [idx];
    assert pending[..|pending| - 1] == init && pending[|pending| - 1] == idx;
    var r := PlanAll(outbox, acts, subs, init);
    var m := Marked(outbox, acts, init);
    var n := AllNotifications(outbox, acts, subs, init);
    var v := outbox[idx].(status := Outcome(acts, outbox[idx]));
    var f := NotificationsFor(acts, subs, outbox[idx]);
    MarkedUnclaimed(outbox, acts, init, idx);
    assert r[idx] == outbox[idx];
    PlanAllUnfold(outbox, acts, subs, pending);
    AllNotificationsUnfold(outbox, acts, subs, pending);
    MarkedSnoc(outbox, acts, init, idx);
    AppendAssoc(m, n, f);
    UpdateInPrefix(m, n + f, idx, v);
  }

  /**
   * Closed form of a run over distinct claimed records: the records keep
   * their places, the claimed ones marked SENT or FAILED, and the
   * notifications follow, record by record.
   */
  lemma {:induction false} PlanAllClosedForm(outbox: seq<OutboxRecord>, acts: map<int, LegalAct>, subs: seq<Subscription>, pending: seq<nat>)
    requires forall k :: 0 <= k < |pending| ==> pending[k] < |outbox|
    requires forall k, l :: 0 <= k < l < |pending| ==> pending[k] < pending[l]
    ensures PlanAll(outbox, acts, subs, pending) == Marked(outbox, acts, pending) + AllNotifications(outbox, acts, subs, pending)
    decreases |pending|
  {
    if pending != [] {
      var init := pending[..|pending| - 1];
      var idx := pending[|pending| - 1];
      PlanAllClosedForm(outbox, acts, subs, init);
      assert idx !in init by {
        forall k | 0 <= k < |init| ensures init[k] != idx {
          assert init[k] == pending[k];
        }
      }
      assert pending == init + [idx];
      PlanAllStep(outbox, acts, subs, init, idx);
    }
  }

  /** Marking claimed records as done keeps the table well formed. */
  lemma MarkedWellFormed(outbox: seq<OutboxRecord>, acts: map<int, LegalAct>, pending: seq<nat>)
    requires OutboxWellFormed(outbox)
    ensures OutboxWellFormed(Marked(outbox, acts, pending))
  {
    var m := Marked(outbox, acts, pending);
    forall i | 0 <= i < |m|
      ensures PayloadMatchesKind(m[i]) && RetryBounded(m[i])
    {
      assert PayloadMatchesKind(outbox[i]) && RetryBounded(outbox[i]);
    }
  }

  lemma WellFormedAppend(a: seq<OutboxRecord>, b: seq<OutboxRecord>)
    requires OutboxWellFormed(a) && OutboxWellFormed(b)
    ensures OutboxWellFormed(a + b)
  {
    forall i | 0 <= i < |a + b|
      ensures PayloadMatchesKind((a + b)[i]) && RetryBounded((a + b)[i])
    {
      if i < |a| {
        assert (a + b)[i] == a[i];
      } else {
        assert (a + b)[i] == b[i - |a|];
      }
    }
  }

  /**
   * A run over the claimed records: each record the planner claims ends SENT
   * or FAILED, the others are unchanged, and what is appended are the
   * notifications; the table stays well formed.
   */
  lemma PlanFacts(outbox: seq<OutboxRecord>, acts: map<int, LegalAct>, subs: seq<Subscription>)
    requires OutboxWellFormed(outbox)
    ensures var r := PlanRun(outbox, acts, subs);
      var pending := Claim(outbox, Planner, PlanBatch);
      && |pending| <= PlanBatch
      && r == Marked(outbox, acts, pending) + AllNotifications(outbox, acts, subs, pending)
      && (forall i :: 0 <= i < |outbox| && i in pending ==>
            Claimable(Planner, outbox[i]) && r[i] == outbox[i].(status := Outcome(acts, outbox[i])))
      && (forall i :: 0 <= i < |outbox| && i !in pending ==> r[i] == outbox[i])
      && OutboxWellFormed(r)
  {
    var pending := Claim(outbox, Planner, PlanBatch);
    var m := Marked(outbox, acts, pending);
    var n := AllNotifications(outbox, acts, subs, pending);
    PlanAllClosedForm(outbox, acts, subs, pending);
    var r := PlanRun(outbox, acts, subs);
    assert r == m + n;
    forall i | 0 <= i < |outbox| && i in pending
      ensures Claimable(Planner, outbox[i]) && r[i] == outbox[i].(status := Outcome(acts, outbox[i]))
    {
      var k :| 0 <= k < |pending| && pending[k] == i;
      assert r[i] == m[i];
    }
    forall i | 0 <= i < |outbox| && i !in pending
      ensures r[i] == outbox[i]
    {
      assert r[i] == m[i];
    }
    MarkedWellFormed(outbox, acts, pending);
    assert OutboxWellFormed(n) by {
      AllNotificationsWellFormed(outbox, acts, subs, pending);
    }
    WellFormedAppend(m, n);
  }

  lemma {:induction false} AllNotificationsWellFormed(outbox: seq<OutboxRecord>, acts: map<int, LegalAct>, subs: seq<Subscription>, pending: seq<nat>)
    requires forall k :: 0 <= k < |pending| ==> pending[k] < |outbox|
    ensures forall k :: 0 <= k < |AllNotifications(outbox, acts, subs, pending)| ==>
              var r := AllNotifications(outbox, acts, subs, pending)[k];
              r.kind == USER_NOTIFICATION && r.status == NEW && r.attempts == 0 && r.payload.NotificationPayload?
    decreases |pending|
  {
    if pending != [] {
      var init := pending[..|pending| - 1];
      AllNotificationsWellFormed(outbox, acts, subs, init);
      var evt := outbox[pending[|pending| - 1]];
      var id := evt.payload.eqanunId;
      if id in acts {
        FanOutWellFormed(Active(subs), acts[id], id, evt.payload.updated);
      }
    }
  }

  /**
   * Who is notified about a claimed record whose act exists: every active
   * subscription that matches the act gets its notification, and every
   * notification is that of an active matching subscription.
   */
  lemma NotifiedSubscribers(acts: map<int, LegalAct>, subs: seq<Subscription>, evt: OutboxRecord)
    requires evt.payload.eqanunId in acts
    ensures var id := evt.payload.eqanunId;
      var act := acts[id];
      && (forall s :: s in subs && s.isActive && Matches(s, act) ==>
            Notification(s, act, id, evt.payload.updated) in NotificationsFor(acts, subs, evt))
      && (forall r :: r in NotificationsFor(acts, subs, evt) ==>
            exists s :: s in subs && s.isActive && Matches(s, act) && r == Notification(s, act, id, evt.payload.updated))
  {
    var id := evt.payload.eqanunId;
    var act := acts[id];
    ActiveMembers(subs);
    FanOutMembers(Active(subs), act, id, evt.payload.updated);
  }

  /**
   * For a record whose act exists, the `k`-th notification written belongs
   * to the `k`-th active matching subscription row, and each such row is
   * listed exactly as often as it is stored: a chat with two matching
   * subscriptions is notified twice.
   */
  lemma OnePerSubscription(acts: map<int, LegalAct>, subs: seq<Subscription>, evt: OutboxRecord)
    requires evt.payload.eqanunId in acts
    ensures var id := evt.payload.eqanunId;
      var m := Matching(Active(subs), acts[id]);
      && |NotificationsFor(acts, subs, evt)| == |m|
      && (forall k :: 0 <= k < |m| ==> NotificationsFor(acts, subs, evt)[k] == Notification(m[k], acts[id], id, evt.payload.updated))
      && (forall s :: multiset(m)[s] == if s.isActive && Matches(s, acts[id]) then multiset(subs)[s] else 0)
  {
    var id := evt.payload.eqanunId;
    FanOutExact(Active(subs), acts[id], id, evt.payload.updated);
    MatchingCounts(Active(subs), acts[id]);
    ActiveCounts(subs);
  }

  /** The planner; it reads acts and subscriptions and writes only the outbox. */
  class NotifPlannerService {
    const db: Database

    constructor (db: Database)
      ensures this.db == db
    {
      this.db := db;
    }

    /** `plan()` (lines 16-61): one transaction over the claimed change records. */
    method Plan()
      requires db.Valid()
      modifies db
      ensures db.Valid()
      ensures db.outbox == PlanRun(old(db.outbox), db.acts, db.subscriptions)
      ensures db.acts == old(db.acts) && db.events == old(db.events) && db.systemState == old(db.systemState)
      ensures db.users == old(db.users) && db.subscriptions == old(db.subscriptions)
    {
      ghost var outbox0 := db.outbox;
      var pending := Claim(db.outbox, Planner, PlanBatch);
      if |pending| == 0 {
        return;
      }
      var k := 0;
      while k < |pending|
        invariant 0 <= k <= |pending|
        invariant db.outbox == PlanAll(outbox0, db.acts, db.subscriptions, pending[..k])
        invariant db.acts == old(db.acts) && db.events == old(db.events) && db.systemState == old(db.systemState)
        invariant db.users == old(db.users) && db.subscriptions == old(db.subscriptions)
      {
        assert pending[..k + 1][..k] == pending[..k];
        PlanRecord(pending[k]);
        k := k + 1;
      }
      assert pending[..k] == pending;
      assert OutboxWellFormed(db.outbox) by {
        PlanFacts(outbox0, db.acts, db.subscriptions);
      }
    }

    /** The body of the loop for the record at `idx` (lines 33-58). */
    method PlanRecord(idx: nat)
      requires idx < |db.outbox|
      modifies db
      ensures db.outbox == PlanOne(old(db.outbox), db.acts, db.subscriptions, idx)
      ensures db.acts == old(db.acts) && db.events == old(db.events) && db.systemState == old(db.systemState)
      ensures db.users == old(db.users) && db.subscriptions == old(db.subscriptions)
    {
      var evt := db.outbox[idx];
      var eqanunId := evt.payload.eqanunId;
      if eqanunId !in db.acts {
        db.outbox := db.outbox[idx := evt.(status := FAILED)];
        return;
      }
      var act := db.acts[eqanunId];
      var subs := Active(db.subscriptions);
      ghost var before := db.outbox;
      var j := 0;
      while j < |subs|
        invariant 0 <= j <= |subs|
        invariant db.outbox == before + FanOut(subs[..j], act, eqanunId, evt.payload.updated)
        invariant db.acts == old(db.acts) && db.events == old(db.events) && db.systemState == old(db.systemState)
        invariant db.users == old(db.users) && db.subscriptions == old(db.subscriptions)
      {
        var sub := subs[j];
        assert subs[..j + 1][..j] == subs[..j];
        if Matches(sub, act) {
          db.outbox := db.outbox + [Notification(sub, act, eqanunId, evt.payload.updated)];
        }
        j := j + 1;
      }
      assert subs[..j] == subs;
      db.outbox := db.outbox[idx := evt.(status := SENT)];
    }
  }
}
