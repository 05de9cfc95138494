/**
 * The upsert of raw acts into the store (`ActsService`): an act not seen
 * before is created, a changed one is overwritten, each with an event and,
 * outside the initial load, an outbox record; the largest id handled becomes
 * the ingestion watermark.
 */
module Acts {
  import opened Js
  import opened Mapper
  import opened Store

  /** The longest title stored. */
  const TitleCap: int := 12000

  /** The title as stored: its first 12000 code units when longer. */
  function CapTitle(title: string): (r: string)
    ensures r <= title && |r| <= TitleCap
    ensures r == title <==> |title| <= TitleCap
  {
    if |title| > TitleCap then title[..TitleCap] else title
  }

  /** The stored publication date: none when the raw one is missing or empty. */
  function PublishedDate(raw: RawAct): Option<string> {
    if Truthy(raw.publishedDate) then raw.publishedDate else None
  }

  /** The act inserted for a raw act whose id is not stored yet. */
  function NewAct(raw: RawAct): LegalAct {
    LegalAct(raw.eqanunId, PublishedDate(raw), raw.category, CapTitle(raw.title), None, raw.url, raw.contentHash)
  }

  /** A stored act differs from the raw one in its content hash or its stored title. */
  predicate Changed(existing: LegalAct, raw: RawAct) {
    existing.contentHash != raw.contentHash || existing.title != CapTitle(raw.title)
  }

  /** A changed act with the raw act's fields written over it; id and summary are kept. */
  function Overwrite(existing: LegalAct, raw: RawAct): LegalAct {
    existing.(title := CapTitle(raw.title), category := raw.category, publishedDate := PublishedDate(raw),
              url := raw.url, contentHash := raw.contentHash)
  }

  /** The outbox record announcing a change; only an update carries `updated: true`. */
  function ChangeRecord(eqanunId: int, event: ActEventType): OutboxRecord {
    OutboxRecord(ACT_CHANGE_DETECTED, ChangePayload(eqanunId, event, event == UPDATED), NEW, 0)
  }

  /** The state the upsert loop carries: three tables and the three counters. */
  datatype Upsert = Upsert(
    acts: map<int, LegalAct>,
    events: seq<ActEvent>,
    outbox: seq<OutboxRecord>,
    created: nat,
    updated: nat,
    maxId: int)

  /** The counters start at zero. */
  function Begin(acts: map<int, LegalAct>, events: seq<ActEvent>, outbox: seq<OutboxRecord>): Upsert {
    Upsert(acts, events, outbox, 0, 0, 0)
  }

  /** One iteration of the upsert loop. */
  function UpsertOne(u: Upsert, raw: RawAct, initialLoad: bool): Upsert {
    var id := raw.eqanunId;
    if id !in u.acts then
      Upsert(u.acts[id := NewAct(raw)], u.events + [ActEvent(id, CREATED, raw)],
             if initialLoad then u.outbox else u.outbox + [ChangeRecord(id, CREATED)],
             u.created + 1, u.updated, Max(u.maxId, id))
    else if Changed(u.acts[id], raw) then
      Upsert(u.acts[id := Overwrite(u.acts[id], raw)], u.events + [ActEvent(id, UPDATED, raw)],
             if initialLoad then u.outbox else u.outbox + [ChangeRecord(id, UPDATED)],
             u.created, u.updated + 1, Max(u.maxId, id))
    else
      u.(maxId := Max(u.maxId, id))
  }

  /** One iteration keeps every act under its own id and every outbox record well formed. */
  lemma UpsertOneWellFormed(u: Upsert, raw: RawAct, initialLoad: bool)
    requires ActsKeyed(u.acts) && OutboxWellFormed(u.outbox)
    ensures ActsKeyed(UpsertOne(u, raw, initialLoad).acts)
    ensures OutboxWellFormed(UpsertOne(u, raw, initialLoad).outbox)
  {
  }

  /** The upsert loop run over a whole batch, in order. */
  function UpsertAll(u: Upsert, batch: seq<RawAct>, initialLoad: bool): Upsert
    decreases |batch|
  {
    if batch == [] then u
    else UpsertOne(UpsertAll(u, batch[..|batch| - 1], initialLoad), batch[|batch| - 1], initialLoad)
  }

  /** The ids of a batch. */
  function Ids(batch: seq<RawAct>): set<int> {
    set raw | raw in batch :: raw.eqanunId
  }

  predicate DistinctIds(batch: seq<RawAct>) {
    forall k, l :: 0 <= k < l < |batch| ==> batch[k].eqanunId != batch[l].eqanunId
  }

  /**
   * Each raw act yields at most one event; events are only appended; outbox
   * records (all NEW change records with no attempts) are appended one per
   * event, except in the initial load, which leaves the outbox alone.
   */
  lemma {:induction false} UpsertCounts(u: Upsert, batch: seq<RawAct>, initialLoad: bool)
    ensures var r := UpsertAll(u, batch, initialLoad);
      && u.created <= r.created && u.updated <= r.updated
      && (r.created - u.created) + (r.updated - u.updated) <= |batch|
      && |r.events| == |u.events| + (r.created - u.created) + (r.updated - u.updated)
      && r.events[..|u.events|] == u.events
      && (initialLoad ==> r.outbox == u.outbox)
      && (!initialLoad ==> |r.outbox| == |u.outbox| + (r.created - u.created) + (r.updated - u.updated))
      && |u.outbox| <= |r.outbox| && r.outbox[..|u.outbox|] == u.outbox
      && forall j :: |u.outbox| <= j < |r.outbox| ==>
           r.outbox[j].kind == ACT_CHANGE_DETECTED && r.outbox[j].status == NEW && r.outbox[j].attempts == 0
           && r.outbox[j].payload.ChangePayload? && r.outbox[j].payload.eqanunId in Ids(batch)
    decreases |batch|
  {
    if batch != [] {
      var init := batch[..|batch| - 1];
      UpsertCounts(u, init, initialLoad);
      var p := UpsertAll(u, init, initialLoad);
      var r := UpsertAll(u, batch, initialLoad);
      assert r == UpsertOne(p, batch[|batch| - 1], initialLoad);
      assert Ids(init) <= Ids(batch) by {
        forall x | x in init ensures x in batch {
          assert x == batch[..|batch| - 1][IndexIn(init, x)];
        }
      }
      assert batch[|batch| - 1] in batch;
      assert r.events[..|p.events|] == p.events;
      assert r.outbox[..|p.outbox|] == p.outbox;
    }
  }

  /** An index at which `x` occurs in `s`. */
  function IndexIn<T(==)>(s: seq<T>, x: T): (k: nat)
    requires x in s
    ensures k < |s| && s[k] == x
  {
    if s[0] == x then 0 else 1 + IndexIn(s[1..], x)
  }

  /** The ids of a batch with one more act. */
  lemma IdsSnoc(init: seq<RawAct>, last: RawAct)
    ensures Ids(init + [last]) == Ids(init) + {last.eqanunId}
  {
    var b := init + [last];
    forall x | x in b ensures x in init || x == last {
      var k := IndexIn(b, x);
      if k < |init| {
        assert x == init[k];
      }
    }
    assert last == b[|init|];
    forall x | x in init ensures x in b {
      assert x == b[IndexIn(init, x)];
    }
  }

  /** One upsert step stores the act under its id and touches no other id. */
  lemma UpsertOneKeys(u: Upsert, raw: RawAct, initialLoad: bool)
    requires ActsKeyed(u.acts)
    ensures var r := UpsertOne(u, raw, initialLoad);
      && r.acts.Keys == u.acts.Keys + {raw.eqanunId}
      && ActsKeyed(r.acts)
      && forall id :: id in u.acts && id != raw.eqanunId ==> r.acts[id] == u.acts[id]
  {
  }

  /**
   * The stored ids grow by exactly the batch's ids, every act stays under its
   * own id, and an act whose id is not in the batch is left untouched.
   */
  lemma {:induction false} UpsertKeys(u: Upsert, batch: seq<RawAct>, initialLoad: bool)
    requires ActsKeyed(u.acts)
    ensures var r := UpsertAll(u, batch, initialLoad);
      && r.acts.Keys == u.acts.Keys + Ids(batch)
      && ActsKeyed(r.acts)
      && forall id :: id in u.acts && id !in Ids(batch) ==> r.acts[id] == u.acts[id]
    decreases |batch|
  {
    if batch != [] {
      var init := batch[..|batch| - 1];
      var last := batch[|batch| - 1];
      UpsertKeys(u, init, initialLoad);
      assert batch == init + [last];
      IdsSnoc(init, last);
      UpsertOneKeys(UpsertAll(u, init, initialLoad), last, initialLoad);
    }
  }

  /** The counter `maxId` is the largest of its start value and the batch's ids. */
  lemma {:induction false} UpsertMaxId(u: Upsert, batch: seq<RawAct>, initialLoad: bool)
    ensures var r := UpsertAll(u, batch, initialLoad);
      && u.maxId <= r.maxId
      && (forall raw :: raw in batch ==> raw.eqanunId <= r.maxId)
      && (r.maxId == u.maxId || r.maxId in Ids(batch))
    decreases |batch|
  {
    if batch != [] {
      var init := batch[..|batch| - 1];
      var last := batch[|batch| - 1];
      UpsertMaxId(u, init, initialLoad);
      assert batch == init + [last];
      assert last in batch;
      var p := UpsertAll(u, init, initialLoad);
      if p.maxId != u.maxId {
        var x :| x in init && x.eqanunId == p.maxId;
        assert x in batch;
      }
    }
  }

  /** After the upsert every raw act of a batch with distinct ids is stored unchanged-from-it. */
  lemma {:induction false} UpsertStores(u: Upsert, batch: seq<RawAct>, initialLoad: bool)
    requires DistinctIds(batch)
    ensures var r := UpsertAll(u, batch, initialLoad);
      forall k :: 0 <= k < |batch| ==> batch[k].eqanunId in r.acts && !Changed(r.acts[batch[k].eqanunId], batch[k])
    decreases |batch|
  {
    if batch != [] {
      var init, last := batch[..|batch| - 1], batch[|batch| - 1];
      var p := UpsertAll(u, init, initialLoad);
      assert DistinctIds(init) by {
        assert forall k :: 0 <= k < |init| ==> init[k] == batch[k];
      }
      UpsertStores(u, init, initialLoad);
      UpsertOneStores(p, last, initialLoad);
      forall k | 0 <= k < |batch| - 1
        ensures batch[k].eqanunId in UpsertOne(p, last, initialLoad).acts
        ensures !Changed(UpsertOne(p, last, initialLoad).acts[batch[k].eqanunId], batch[k])
      {
        assert batch[k] == init[k];
        UpsertOneKeepsOthers(p, last, initialLoad, batch[k].eqanunId);
      }
    }
  }

  /** After one iteration the act it upserted is stored as the raw act has it. */
  lemma UpsertOneStores(u: Upsert, raw: RawAct, initialLoad: bool)
    ensures var r := UpsertOne(u, raw, initialLoad);
      raw.eqanunId in r.acts && !Changed(r.acts[raw.eqanunId], raw)
  {
  }

  /** One iteration leaves every other id's act as it was. */
  lemma UpsertOneKeepsOthers(u: Upsert, raw: RawAct, initialLoad: bool, id: int)
    requires id != raw.eqanunId
    ensures var r := UpsertOne(u, raw, initialLoad);
      id in r.acts <==> id in u.acts
    ensures var r := UpsertOne(u, raw, initialLoad);
      id in u.acts ==> r.acts[id] == u.acts[id]
  {
  }

  /** A batch whose every act is already stored as it is changes nothing but `maxId`. */
  lemma {:induction false} UpsertUnchanged(u: Upsert, batch: seq<RawAct>, initialLoad: bool)
    requires forall k :: 0 <= k < |batch| ==> batch[k].eqanunId in u.acts && !Changed(u.acts[batch[k].eqanunId], batch[k])
    ensures var r := UpsertAll(u, batch, initialLoad);
      r.acts == u.acts && r.events == u.events && r.outbox == u.outbox && r.created == u.created && r.updated == u.updated
    decreases |batch|
  {
    if batch != [] {
      UpsertUnchanged(u, batch[..|batch| - 1], initialLoad);
    }
  }

  /**
   * Upserting the same batch twice: the second run creates nothing, updates
   * nothing, writes no event and no outbox record, and reports the same maxId.
   */
  lemma UpsertIdempotent(acts: map<int, LegalAct>, events: seq<ActEvent>, outbox: seq<OutboxRecord>,
                         batch: seq<RawAct>, initialLoad: bool, initialLoad2: bool)
    requires DistinctIds(batch)
    ensures var r := UpsertAll(Begin(acts, events, outbox), batch, initialLoad);
      var r2 := UpsertAll(Begin(r.acts, r.events, r.outbox), batch, initialLoad2);
      && r2.created == 0 && r2.updated == 0
      && r2.acts == r.acts && r2.events == r.events && r2.outbox == r.outbox
      && r2.maxId == r.maxId
  {
    var r := UpsertAll(Begin(acts, events, outbox), batch, initialLoad);
    var u2 := Begin(r.acts, r.events, r.outbox);
    var r2 := UpsertAll(u2, batch, initialLoad2);
    UpsertStores(Begin(acts, events, outbox), batch, initialLoad);
    UpsertUnchanged(u2, batch, initialLoad2);
    UpsertMaxId(Begin(acts, events, outbox), batch, initialLoad);
    UpsertMaxId(u2, batch, initialLoad2);
    if r.maxId != 0 {
      var x :| x in batch && x.eqanunId == r.maxId;
    }
    if r2.maxId != 0 {
      var x :| x in batch && x.eqanunId == r2.maxId;
    }
  }

  /** The service, over the store it writes to. */
  class ActsService {
    const db: Database

    constructor (db: Database)
      ensures this.db == db
    {
      this.db := db;
    }

    /** `getLastSeenId()`: the stored watermark, absent before the first write. */
    method GetLastSeenId() returns (r: Option<int>)
      requires db.Valid()
      ensures r == LastSeen(db.systemState)
      ensures r.Some? ==> 0 <= r.value
    {
      if LastSeenKey in db.systemState {
        r := Some(ParseNat(db.systemState[LastSeenKey]));
      } else {
        r := None;
      }
    }

    /**
     * One pass of the upsert loop (lines 35-85): creates the act if its id is
     * not stored, otherwise overwrites it if it changed, recording an event
     * and, outside the initial load, an outbox record; raises `maxId`.
     */
    method UpsertRawAct(raw: RawAct, initialLoad: bool, created0: nat, updated0: nat, maxId0: int)
      returns (created: nat, updated: nat, maxId: int)
      requires db.Valid()
      modifies db
      ensures db.Valid()
      ensures Upsert(db.acts, db.events, db.outbox, created, updated, maxId)
              == UpsertOne(Upsert(old(db.acts), old(db.events), old(db.outbox), created0, updated0, maxId0), raw, initialLoad)
      ensures db.systemState == old(db.systemState)
      ensures db.users == old(db.users) && db.subscriptions == old(db.subscriptions)
    {
      UpsertOneWellFormed(Upsert(db.acts, db.events, db.outbox, created0, updated0, maxId0), raw, initialLoad);
      created, updated, maxId := created0, updated0, maxId0;
      var id := raw.eqanunId;
      if id !in db.acts {
        db.acts := db.acts[id := NewAct(raw)];
        db.events := db.events + [ActEvent(id, CREATED, raw)];
        created := created + 1;
        maxId := Max(maxId, id);
        if !initialLoad {
          db.outbox := db.outbox + [ChangeRecord(id, CREATED)];
        }
      } else {
        var existing := db.acts[id];
        var safeTitle := CapTitle(raw.title);
        var changed := existing.contentHash != raw.contentHash || existing.title != safeTitle;
        if changed {
          db.acts := db.acts[id := Overwrite(existing, raw)];
          db.events := db.events + [ActEvent(id, UPDATED, raw)];
          updated := updated + 1;
          if !initialLoad {
            db.outbox := db.outbox + [ChangeRecord(id, UPDATED)];
          }
        }
        maxId := Max(maxId, id);
      }
    }

    /**
     * `ingestRawActs(rawActs, { initialLoad })`: one transaction running the
     * upsert loop over the batch and then, if some id was positive, storing
     * the largest id as the watermark.
     */
    method IngestRawActs(rawActs: seq<RawAct>, initialLoad: bool) returns (created: nat, updated: nat, maxId: int)
      requires db.Valid()
      modifies db
      ensures db.Valid()
      ensures var u := UpsertAll(Begin(old(db.acts), old(db.events), old(db.outbox)), rawActs, initialLoad);
        && db.acts == u.acts && db.events == u.events && db.outbox == u.outbox
        && created == u.created && updated == u.updated && maxId == u.maxId
      ensures db.systemState == WriteWatermark(old(db.systemState), maxId)
      ensures db.users == old(db.users) && db.subscriptions == old(db.subscriptions)
    {
      ghost var start := Begin(db.acts, db.events, db.outbox);
      created, updated, maxId := 0, 0, 0;
      var i := 0;
      while i < |rawActs|
        invariant 0 <= i <= |rawActs|
        invariant Upsert(db.acts, db.events, db.outbox, created, updated, maxId) == UpsertAll(start, rawActs[..i], initialLoad)
        invariant db.Valid()
        invariant db.systemState == old(db.systemState)
        invariant db.users == old(db.users) && db.subscriptions == old(db.subscriptions)
      {
        assert rawActs[..i + 1][..i] == rawActs[..i];
        created, updated, maxId := UpsertRawAct(rawActs[i], initialLoad, created, updated, maxId);
        i := i + 1;
      }
      assert rawActs[..i] == rawActs;
      if maxId > 0 {
        db.systemState := db.systemState[LastSeenKey := ShowNat(maxId)];
      }
      WatermarkRoundTrip(old(db.systemState), maxId);
    }
  }
}
