/**
 * The ingestion job (`EqanunIngestJob`): pages through the e-qanun search API
 * newest first, keeps the items above the watermark (all of them on the
 * initial load), sorts them by id and hands them to the upsert.
 */
module Ingest {
  import opened Js
  import opened Mapper
  import opened Store
  import opened Acts
  import opened Sorting

  const PageSize: int := 100

  /** In incremental mode no offset beyond this one is fetched. */
  const IncrementalOffsetLimit: int := 5000

  /** One search page; a missing or zero total count is 0. */
  datatype Page = Page(data: seq<ApiItem>, totalCount: int)

  /** The outcome of fetching the page at an offset: the page, or an exception. */
  datatype Fetched = Fetched(page: Page) | FetchFailed

  /**
   * The items line 60 skips: outside the initial load and with a non-zero
   * watermark, those whose id is at or below it.
   */
  predicate Skipped(lastSeen: Option<int>, item: ApiItem) {
    lastSeen.Some? && lastSeen.value != 0 && item.id <= lastSeen.value
  }

  /** The items of a page that are kept, in page order. */
  function Fresh(lastSeen: Option<int>, items: seq<ApiItem>): (r: seq<ApiItem>)
    ensures |r| <= |items|
    decreases |items|
  {
    if items == [] then []
    else
      var last := items[|items| - 1];
      Fresh(lastSeen, items[..|items| - 1]) + (if Skipped(lastSeen, last) then [] else [last])
  }

  /** One more item is kept exactly when it is not skipped. */
  lemma FreshSnoc(lastSeen: Option<int>, items: seq<ApiItem>, x: ApiItem)
    ensures Skipped(lastSeen, x) ==> Fresh(lastSeen, items + [x]) == Fresh(lastSeen, items)
    ensures !Skipped(lastSeen, x) ==> Fresh(lastSeen, items + [x]) == Fresh(lastSeen, items) + [x]
  {
    assert (items + [x])[..|items|] == items;
  }

  /** Every kept item is one of the items and is not skipped. */
  lemma {:induction false} FreshMembers(lastSeen: Option<int>, items: seq<ApiItem>)
    ensures forall x :: x in Fresh(lastSeen, items) ==> x in items && !Skipped(lastSeen, x)
    decreases |items|
  {
    if items != [] {
      var init := items[..|items| - 1];
      FreshMembers(lastSeen, init);
      assert items == init + [items[|items| - 1]];
    }
  }

  /** Every item that is not skipped is kept. */
  lemma {:induction false} FreshKeeps(lastSeen: Option<int>, items: seq<ApiItem>)
    ensures forall x :: x in items && !Skipped(lastSeen, x) ==> x in Fresh(lastSeen, items)
    decreases |items|
  {
    if items != [] {
      var init := items[..|items| - 1];
      FreshKeeps(lastSeen, init);
      assert items == init + [items[|items| - 1]];
    }
  }

  /** Without a non-zero watermark nothing is skipped. */
  lemma {:induction false} FreshKeepsAll(lastSeen: Option<int>, items: seq<ApiItem>)
    requires lastSeen.None? || lastSeen == Some(0)
    ensures Fresh(lastSeen, items) == items
    decreases |items|
  {
    if items != [] {
      FreshKeepsAll(lastSeen, items[..|items| - 1]);
      assert items == items[..|items| - 1] + [items[|items| - 1]];
    }
  }

  lemma {:induction false} FreshAppend(lastSeen: Option<int>, a: seq<ApiItem>, b: seq<ApiItem>)
    ensures Fresh(lastSeen, a + b) == Fresh(lastSeen, a) + Fresh(lastSeen, b)
    decreases |b|
  {
    if b == [] {
      assert a + b == a;
    } else {
      var b' := b[..|b| - 1];
      FreshAppend(lastSeen, a, b');
      assert (a + b)[..|a + b| - 1] == a + b';
      assert (a + b)[|a + b| - 1] == b[|b| - 1];
    }
  }

  /** `apiItemToRawAct` applied to each item. */
  function MapRaw(items: seq<ApiItem>): seq<RawAct> {
    MapSeq(ApiItemToRawAct, items)
  }

  /** `maxId` after the items: the running maximum of the start value and their ids. */
  function MaxOver(m: int, items: seq<ApiItem>): (r: int)
    decreases |items|
  {
    if items == [] then m else Max(MaxOver(m, items[..|items| - 1]), items[|items| - 1].id)
  }

  lemma MaxOverSnoc(m: int, items: seq<ApiItem>, x: ApiItem)
    ensures MaxOver(m, items + [x]) == Max(MaxOver(m, items), x.id)
  {
    assert (items + [x])[..|items|] == items;
  }

  lemma {:induction false} MaxOverAppend(m: int, a: seq<ApiItem>, b: seq<ApiItem>)
    ensures MaxOver(m, a + b) == MaxOver(MaxOver(m, a), b)
    decreases |b|
  {
    if b == [] {
      assert a + b == a;
    } else {
      MaxOverAppend(m, a, b[..|b| - 1]);
      assert (a + b)[..|a + b| - 1] == a + b[..|b| - 1];
    }
  }

  /** The running maximum is the largest of the start value and the ids. */
  lemma {:induction false} MaxOverBounds(m: int, items: seq<ApiItem>)
    ensures m <= MaxOver(m, items)
    ensures forall x :: x in items ==> x.id <= MaxOver(m, items)
    ensures MaxOver(m, items) == m || exists x :: x in items && x.id == MaxOver(m, items)
    decreases |items|
  {
    if items != [] {
      var init := items[..|items| - 1];
      MaxOverBounds(m, init);
      assert items == init + [items[|items| - 1]];
      if MaxOver(m, init) != m && MaxOver(m, items) == MaxOver(m, init) {
        var x :| x in init && x.id == MaxOver(m, init);
        assert x in items;
      }
    }
  }

  /** The items of the page fetched at offset `o`; none when the fetch failed. */
  function DataAt(fetch: int -> Fetched, o: int): seq<ApiItem> {
    if fetch(o).Fetched? then fetch(o).page.data else []
  }

  /** The items of the pages fetched at `offsets`, concatenated in order. */
  function PagesData(fetch: int -> Fetched, offsets: seq<int>): seq<ApiItem>
    decreases |offsets|
  {
    if offsets == [] then [] else PagesData(fetch, offsets[..|offsets| - 1]) + DataAt(fetch, offsets[|offsets| - 1])
  }

  /** Why the pagination stopped. */
  datatype Stop = FetchError | EmptyPage | NoNewItems | ReachedTotal | ShortPage | SafetyLimit

  /** The offsets fetched, in order, the items kept from their pages, in order, and why the loop stopped. */
  datatype Pagination = Pagination(items: seq<ApiItem>, offsets: seq<int>, stop: Stop)

  /** The total count in force at `start`: the remembered one, else the one of the page fetched there. */
  function TotalAt(fetch: int -> Fetched, start: int, totalCount: Option<int>): int {
    if totalCount.Some? then totalCount.value
    else if fetch(start).Fetched? then fetch(start).page.totalCount
    else 0
  }

  /**
   * The loop goes on after the page at offset `o`: the page arrived and is
   * not empty, and then, in incremental mode, it held a new item and the next
   * offset is within the safety limit, or, on the initial load, it was full
   * and the next offset is below the total.
   */
  predicate Continues(fetch: int -> Fetched, lastSeen: Option<int>, o: int, total: int) {
    && fetch(o).Fetched?
    && |fetch(o).page.data| > 0
    && (lastSeen.Some? ==> |Fresh(lastSeen, fetch(o).page.data)| > 0 && o + PageSize <= IncrementalOffsetLimit)
    && (lastSeen.None? ==> o + PageSize < total && |fetch(o).page.data| >= PageSize)
  }

  /** The first of the loop's exits that applies at offset `o`, in the order the loop tests them. */
  function StopAt(fetch: int -> Fetched, lastSeen: Option<int>, o: int, total: int): Stop {
    if fetch(o).FetchFailed? then FetchError
    else if |fetch(o).page.data| == 0 then EmptyPage
    else if lastSeen.Some? && |Fresh(lastSeen, fetch(o).page.data)| == 0 then NoNewItems
    else if lastSeen.None? && o + PageSize >= total then ReachedTotal
    else if lastSeen.None? then ShortPage
    else SafetyLimit
  }

  /** The conditions under which the loop is entered at offset `start`. */
  predicate PaginationState(lastSeen: Option<int>, start: int, totalCount: Option<int>) {
    && 0 <= start
    && (lastSeen.None? && totalCount.Some? ==> start < totalCount.value)
    && (lastSeen.Some? ==> start <= IncrementalOffsetLimit)
  }

  /**
   * The pagination loop from offset `start` on, `totalCount` being the total
   * remembered from an earlier page. A failed or empty page contributes no
   * item.
   */
  function Paginate(fetch: int -> Fetched, lastSeen: Option<int>, start: int, totalCount: Option<int>): Pagination
    requires PaginationState(lastSeen, start, totalCount)
    decreases (if lastSeen.None? && totalCount.None? then 1 else 0),
              (if lastSeen.Some? then IncrementalOffsetLimit + PageSize - start
               else if totalCount.Some? then totalCount.value - start else 0)
  {
    var kept := Fresh(lastSeen, DataAt(fetch, start));
    var total := TotalAt(fetch, start, totalCount);
    if Continues(fetch, lastSeen, start, total) then
      var rest := Paginate(fetch, lastSeen, start + PageSize, Some(total));
      Pagination(kept + rest.items, [start] + rest.offsets, rest.stop)
    else
      Pagination(kept, [start], StopAt(fetch, lastSeen, start, total))
  }

  /** The watermark as the start value of `maxId`: `lastSeen ?? 0`. */
  function BaseMaxId(lastSeen: Option<int>): int {
    if lastSeen.Some? then lastSeen.value else 0
  }

  /** The whole pagination of one ingestion run. */
  function PaginateAll(fetch: int -> Fetched, lastSeen: Option<int>): Pagination {
    Paginate(fetch, lastSeen, 0, None)
  }

  /**
   * The offsets fetched are `start`, `start + 100`, … in order; the loop goes
   * on after each of them but the last, and stops at the last.
   */
  lemma {:induction false} PaginateOffsets(fetch: int -> Fetched, lastSeen: Option<int>, start: int, totalCount: Option<int>)
    requires PaginationState(lastSeen, start, totalCount)
    ensures var p := Paginate(fetch, lastSeen, start, totalCount);
      var total := TotalAt(fetch, start, totalCount);
      && |p.offsets| >= 1
      && (forall k :: 0 <= k < |p.offsets| ==> p.offsets[k] == start + k * PageSize)
      && (forall k :: 0 <= k < |p.offsets| - 1 ==> Continues(fetch, lastSeen, p.offsets[k], total))
      && !Continues(fetch, lastSeen, p.offsets[|p.offsets| - 1], total)
    decreases (if lastSeen.None? && totalCount.None? then 1 else 0),
              (if lastSeen.Some? then IncrementalOffsetLimit + PageSize - start
               else if totalCount.Some? then totalCount.value - start else 0)
  {
    var total := TotalAt(fetch, start, totalCount);
    if Continues(fetch, lastSeen, start, total) {
      PaginateOffsets(fetch, lastSeen, start + PageSize, Some(total));
      var p := Paginate(fetch, lastSeen, start, totalCount);
      var rest := Paginate(fetch, lastSeen, start + PageSize, Some(total));
      assert p.offsets == [start] + rest.offsets;
      assert TotalAt(fetch, start + PageSize, Some(total)) == total;
      forall k | 0 < k < |p.offsets| ensures p.offsets[k] == rest.offsets[k - 1] {
      }
    }
  }

  /** The pages' items, with one more page in front. */
  lemma {:induction false} PagesDataCons(fetch: int -> Fetched, o: int, rest: seq<int>)
    ensures PagesData(fetch, [o] + rest) == DataAt(fetch, o) + PagesData(fetch, rest)
    decreases |rest|
  {
    if rest == [] {
      assert [o] + rest == [o];
      assert [o][..0] == [];
    } else {
      var init := rest[..|rest| - 1];
      PagesDataCons(fetch, o, init);
      assert ([o] + rest)[..|[o] + rest| - 1] == [o] + init;
    }
  }

  /** What the loop collects is exactly the kept items of the pages it fetched, in fetch order. */
  lemma {:induction false} PaginateItems(fetch: int -> Fetched, lastSeen: Option<int>, start: int, totalCount: Option<int>)
    requires PaginationState(lastSeen, start, totalCount)
    ensures var p := Paginate(fetch, lastSeen, start, totalCount);
      p.items == Fresh(lastSeen, PagesData(fetch, p.offsets))
    decreases (if lastSeen.None? && totalCount.None? then 1 else 0),
              (if lastSeen.Some? then IncrementalOffsetLimit + PageSize - start
               else if totalCount.Some? then totalCount.value - start else 0)
  {
    var total := TotalAt(fetch, start, totalCount);
    var d := DataAt(fetch, start);
    if Continues(fetch, lastSeen, start, total) {
      PaginateItems(fetch, lastSeen, start + PageSize, Some(total));
      var rest := Paginate(fetch, lastSeen, start + PageSize, Some(total));
      PagesDataCons(fetch, start, rest.offsets);
      FreshAppend(lastSeen, d, PagesData(fetch, rest.offsets));
    } else {
      assert PagesData(fetch, [start]) == d by {
        assert [start][..0] == [];
      }
    }
  }

  /**
   * What one ingestion run collects: exactly the items of the fetched pages
   * that are above a non-zero watermark (every item on the initial load or
   * with a watermark of 0), in fetch order.
   */
  lemma PaginateAllItems(fetch: int -> Fetched, lastSeen: Option<int>)
    ensures var p := PaginateAll(fetch, lastSeen);
      var data := PagesData(fetch, p.offsets);
      && p.items == Fresh(lastSeen, data)
      && (lastSeen.None? || lastSeen == Some(0) ==> p.items == data)
      && (forall x :: x in data && !Skipped(lastSeen, x) ==> x in p.items)
      && (forall x :: x in p.items && lastSeen.Some? && lastSeen.value != 0 ==> x.id > lastSeen.value)
  {
    var p := PaginateAll(fetch, lastSeen);
    var data := PagesData(fetch, p.offsets);
    PaginateItems(fetch, lastSeen, 0, None);
    if lastSeen.None? || lastSeen == Some(0) {
      FreshKeepsAll(lastSeen, data);
    }
    FreshKeeps(lastSeen, data);
    FreshMembers(lastSeen, data);
  }

  /**
   * Which pages one ingestion run fetches: offsets 0, 100, 200, …, going on
   * exactly while `Continues` holds; in incremental mode at most 51 pages.
   */
  lemma PaginateAllOffsets(fetch: int -> Fetched, lastSeen: Option<int>)
    ensures var p := PaginateAll(fetch, lastSeen);
      var total := TotalAt(fetch, 0, None);
      && |p.offsets| >= 1
      && (forall k :: 0 <= k < |p.offsets| ==> p.offsets[k] == k * PageSize)
      && (forall k :: 0 <= k < |p.offsets| - 1 ==> Continues(fetch, lastSeen, p.offsets[k], total))
      && !Continues(fetch, lastSeen, p.offsets[|p.offsets| - 1], total)
      && (lastSeen.Some? ==> |p.offsets| <= IncrementalOffsetLimit / PageSize + 1)
  {
    var p := PaginateAll(fetch, lastSeen);
    PaginateOffsets(fetch, lastSeen, 0, None);
    if lastSeen.Some? {
      var n := |p.offsets|;
      if n >= 2 {
        assert Continues(fetch, lastSeen, p.offsets[n - 2], TotalAt(fetch, 0, None));
        assert (n - 2) * PageSize + PageSize <= IncrementalOffsetLimit;
      }
    }
  }

  /** One more item of the page: skipped, or kept, mapped and counted in the running maximum. */
  lemma TakeStep(toRaw: ApiItem -> RawAct, lastSeen: Option<int>, data: seq<ApiItem>, j: nat,
                 toIngest0: seq<RawAct>, maxId0: int)
    requires j < |data|
    ensures var kept := Fresh(lastSeen, data[..j]);
      var item := data[j];
      && (Skipped(lastSeen, item) ==> Fresh(lastSeen, data[..j + 1]) == kept)
      && (!Skipped(lastSeen, item) ==>
            && Fresh(lastSeen, data[..j + 1]) == kept + [item]
            && toIngest0 + MapSeq(toRaw, kept + [item]) == toIngest0 + MapSeq(toRaw, kept) + [toRaw(item)]
            && MaxOver(maxId0, kept + [item]) == Max(MaxOver(maxId0, kept), item.id))
  {
    var kept := Fresh(lastSeen, data[..j]);
    var item := data[j];
    assert data[..j + 1] == data[..j] + [item];
    FreshSnoc(lastSeen, data[..j], item);
    MapSeqSnoc(toRaw, kept, item);
    MaxOverSnoc(maxId0, kept, item);
  }

  /**
   * The item loop of one page (lines 58-64): appends each kept item, mapped
   * by `toRaw`, raises `maxId` to its id and counts it. The mapping is a
   * parameter so that the loop's proof does not look into its definition;
   * the job passes `ApiItemToRawAct`.
   */
  method TakeNewItems(toRaw: ApiItem -> RawAct, lastSeen: Option<int>, data: seq<ApiItem>,
                      toIngest0: seq<RawAct>, maxId0: int)
    returns (toIngest: seq<RawAct>, maxId: int, newOnPage: nat)
    ensures toIngest == toIngest0 + MapSeq(toRaw, Fresh(lastSeen, data))
    ensures maxId == MaxOver(maxId0, Fresh(lastSeen, data))
    ensures newOnPage == |Fresh(lastSeen, data)|
  {
    var initialLoad := lastSeen.None?;
    toIngest, maxId, newOnPage := toIngest0, maxId0, 0;
    ghost var kept: seq<ApiItem> := [];
    var j := 0;
    while j < |data|
      invariant 0 <= j <= |data|
      invariant kept == Fresh(lastSeen, data[..j])
      invariant toIngest == toIngest0 + MapSeq(toRaw, kept)
      invariant maxId == MaxOver(maxId0, kept)
      invariant newOnPage == |kept|
    {
      var item := data[j];
      TakeStep(toRaw, lastSeen, data, j, toIngest0, maxId0);
      if !(!initialLoad && Skipped(lastSeen, item)) {
        newOnPage := newOnPage + 1;
        toIngest := toIngest + [toRaw(item)];
        if item.id > maxId {
          maxId := item.id;
        }
        kept := kept + [item];
      }
      j := j + 1;
    }
    assert data[..j] == data;
  }

  lemma AppendAssoc<T>(a: seq<T>, b: seq<T>, c: seq<T>)
    ensures (a + b) + c == a + (b + c)
  {
  }

  /** One step of `Paginate`: the items kept at `start`, then those of the rest when the loop goes on. */
  lemma PaginateStep(fetch: int -> Fetched, lastSeen: Option<int>, start: int, totalCount: Option<int>)
    requires PaginationState(lastSeen, start, totalCount)
    ensures var total := TotalAt(fetch, start, totalCount);
      var kept := Fresh(lastSeen, DataAt(fetch, start));
      && (Continues(fetch, lastSeen, start, total) ==>
            && PaginationState(lastSeen, start + PageSize, Some(total))
            && Paginate(fetch, lastSeen, start, totalCount).items
               == kept + Paginate(fetch, lastSeen, start + PageSize, Some(total)).items)
      && (!Continues(fetch, lastSeen, start, total) ==> Paginate(fetch, lastSeen, start, totalCount).items == kept)
  {
  }

  /**
   * One pass of the page loop (lines 40-95): fetches the page at `start`,
   * takes its new items and decides whether the loop stops; when it goes on,
   * the next offset is `start + 100` and the total count is the one in force.
   */
  method NextPage(toRaw: ApiItem -> RawAct, fetch: int -> Fetched, lastSeen: Option<int>,
                  start: int, totalCount: Option<int>, toIngest0: seq<RawAct>, maxId0: int)
    returns (toIngest: seq<RawAct>, maxId: int, next: int, nextTotal: Option<int>, stop: bool)
    requires PaginationState(lastSeen, start, totalCount)
    ensures var kept := Fresh(lastSeen, DataAt(fetch, start));
      toIngest == toIngest0 + MapSeq(toRaw, kept) && maxId == MaxOver(maxId0, kept)
    ensures stop <==> !Continues(fetch, lastSeen, start, TotalAt(fetch, start, totalCount))
    ensures !stop ==> next == start + PageSize && nextTotal == Some(TotalAt(fetch, start, totalCount))
  {
    var initialLoad := lastSeen.None?;
    toIngest, maxId, next, nextTotal := toIngest0, maxId0, start, totalCount;
    var fetched := fetch(start);
    if fetched.FetchFailed? {
      assert MapSeq(toRaw, []) == [];
      return toIngest, maxId, next, nextTotal, true;
    }
    var page := fetched.page;
    if |page.data| == 0 {
      assert Fresh(lastSeen, page.data) == [] && MapSeq(toRaw, []) == [];
      return toIngest, maxId, next, nextTotal, true;
    }
    if nextTotal.None? {
      nextTotal := Some(page.totalCount);
    }
    var newOnPage;
    toIngest, maxId, newOnPage := TakeNewItems(toRaw, lastSeen, page.data, toIngest, maxId);
    if !initialLoad && newOnPage == 0 {
      return toIngest, maxId, next, nextTotal, true;
    }
    next := next + PageSize;
    if initialLoad {
      if next >= nextTotal.value || |page.data| < PageSize {
        return toIngest, maxId, next, nextTotal, true;
      }
    } else {
      if next > IncrementalOffsetLimit {
        return toIngest, maxId, next, nextTotal, true;
      }
    }
    stop := false;
  }

  /**
   * The page loop of `performIngest` (lines 33-96): fetches pages from
   * offset 0 on and collects the mapped items that pass the watermark
   * filter, with the running maximum id; it reads and writes nothing else.
   */
  method CollectPages(toRaw: ApiItem -> RawAct, fetch: int -> Fetched, lastSeen: Option<int>)
    returns (toIngest: seq<RawAct>, maxId: int)
    ensures toIngest == MapSeq(toRaw, PaginateAll(fetch, lastSeen).items)
    ensures maxId == MaxOver(BaseMaxId(lastSeen), PaginateAll(fetch, lastSeen).items)
  {
    var start := 0;
    maxId := BaseMaxId(lastSeen);
    toIngest := [];
    var totalCount: Option<int> := None;
    ghost var items: seq<ApiItem> := [];
    ghost var all := PaginateAll(fetch, lastSeen).items;
    while true
      invariant PaginationState(lastSeen, start, totalCount)
      invariant all == items + Paginate(fetch, lastSeen, start, totalCount).items
      invariant toIngest == MapSeq(toRaw, items)
      invariant maxId == MaxOver(BaseMaxId(lastSeen), items)
      decreases (if lastSeen.None? && totalCount.None? then 1 else 0),
                (if lastSeen.Some? then IncrementalOffsetLimit + PageSize - start
                 else if totalCount.Some? then totalCount.value - start else 0)
    {
      ghost var kept := Fresh(lastSeen, DataAt(fetch, start));
      ghost var rest := Paginate(fetch, lastSeen, start, totalCount).items;
      PaginateStep(fetch, lastSeen, start, totalCount);
      var stop;
      var toIngest', maxId';
      toIngest', maxId', start, totalCount, stop := NextPage(toRaw, fetch, lastSeen, start, totalCount, toIngest, maxId);
      assert toIngest' == MapSeq(toRaw, items + kept) by {
        MapSeqAppend(toRaw, items, kept);
      }
      assert maxId' == MaxOver(BaseMaxId(lastSeen), items + kept) by {
        MaxOverAppend(BaseMaxId(lastSeen), items, kept);
      }
      toIngest, maxId := toIngest', maxId';
      ghost var prev := items;
      items := items + kept;
      if stop {
        break;
      }
      AppendAssoc(prev, kept, Paginate(fetch, lastSeen, start, totalCount).items);
    }
  }

  /** What `performIngest` returns. */
  datatype IngestResult = IngestResult(created: nat, updated: nat, maxId: int, scanned: nat, initialLoad: bool)

  /** One ingestion run: its result, the three tables the upsert writes, and the system-state table. */
  datatype Run = Run(result: IngestResult, tables: Upsert, state: map<string, string>)

  /**
   * The batch a run hands to the upsert: the kept items of the fetched
   * pages, mapped, sorted by id.
   */
  function Batch(fetch: int -> Fetched, lastSeen: Option<int>): seq<RawAct> {
    SortById(MapRaw(PaginateAll(fetch, lastSeen).items))
  }

  /**
   * `performIngest()` as a function of the fetched pages and the store:
   * with nothing new it changes nothing and reports the old watermark;
   * otherwise it upserts the sorted batch (as an initial load when no
   * watermark was stored) and reports the running maximum of the watermark
   * and the collected ids.
   */
  function IngestRun(fetch: int -> Fetched, acts: map<int, LegalAct>, events: seq<ActEvent>,
                     outbox: seq<OutboxRecord>, state: map<string, string>): Run
    requires StateWellFormed(state)
  {
    var lastSeen := LastSeen(state);
    var items := PaginateAll(fetch, lastSeen).items;
    var batch := Batch(fetch, lastSeen);
    if batch == [] then
      Run(IngestResult(0, 0, BaseMaxId(lastSeen), 0, lastSeen.None?), Begin(acts, events, outbox), state)
    else
      var u := UpsertAll(Begin(acts, events, outbox), batch, lastSeen.None?);
      Run(IngestResult(u.created, u.updated, MaxOver(BaseMaxId(lastSeen), items), |batch|, lastSeen.None?),
          u, WriteWatermark(state, u.maxId))
  }

  /** The ids of some items. */
  function ItemIds(items: seq<ApiItem>): set<int> {
    set x | x in items :: x.id
  }

  /** The batch holds exactly the raw acts of the collected items, so it has their ids. */
  lemma BatchIds(items: seq<ApiItem>)
    ensures Ids(SortById(MapRaw(items))) == ItemIds(items)
  {
    var mapped := MapRaw(items);
    SortByIdCorrect(mapped);
    MapSeqAt(ApiItemToRawAct, items);
    forall id | id in ItemIds(items)
      ensures id in Ids(SortById(mapped))
    {
      var x :| x in items && x.id == id;
      var k :| 0 <= k < |items| && items[k] == x;
      ApiItemToRawActFields(x);
      assert mapped[k] in multiset(SortById(mapped));
    }
    forall id | id in Ids(SortById(mapped))
      ensures id in ItemIds(items)
    {
      var raw :| raw in SortById(mapped) && raw.eqanunId == id;
      assert raw in multiset(mapped);
      var k :| 0 <= k < |mapped| && mapped[k] == raw;
      ApiItemToRawActFields(items[k]);
    }
  }

  /**
   * The `maxId` the job reports equals the one the upsert computes from the
   * batch (and so stores), provided every collected id is above a non-zero
   * watermark and something was collected when the watermark is positive.
   */
  lemma MaxIdAgrees(lastSeen: Option<int>, items: seq<ApiItem>, u: Upsert, initialLoad: bool)
    requires lastSeen.Some? ==> 0 <= lastSeen.value
    requires forall x :: x in items && lastSeen.Some? && lastSeen.value != 0 ==> x.id > lastSeen.value
    requires items != [] || BaseMaxId(lastSeen) == 0
    requires u.maxId == 0
    ensures UpsertAll(u, SortById(MapRaw(items)), initialLoad).maxId == MaxOver(BaseMaxId(lastSeen), items)
  {
    var batch := SortById(MapRaw(items));
    var m := BaseMaxId(lastSeen);
    var big := MaxOver(m, items);
    var r := UpsertAll(u, batch, initialLoad).maxId;
    UpsertMaxId(u, batch, initialLoad);
    MaxOverBounds(m, items);
    BatchIds(items);
    assert forall id :: id in Ids(batch) ==> id <= r by {
      forall id | id in Ids(batch) ensures id <= r {
        var raw :| raw in batch && raw.eqanunId == id;
      }
    }
    assert forall id :: id in ItemIds(items) ==> id <= big;
    if m > 0 {
      var x := items[0];
      assert x.id in ItemIds(items);
      assert big != m;
      assert big in ItemIds(items);
      assert r != 0;
    } else if big != m {
      assert big in ItemIds(items);
    }
  }

  /**
   * The watermark a run leaves behind: a run that collects nothing changes
   * nothing; otherwise the largest id is stored when positive and is the
   * reported `maxId`; the watermark never goes down, and a positive one
   * goes up whenever something was collected.
   */
  lemma IngestWatermark(fetch: int -> Fetched, acts: map<int, LegalAct>, events: seq<ActEvent>,
                        outbox: seq<OutboxRecord>, state: map<string, string>)
    requires StateWellFormed(state)
    ensures var r := IngestRun(fetch, acts, events, outbox, state);
      && StateWellFormed(r.state)
      && (r.result.scanned == 0 ==>
            r.state == state && r.tables == Begin(acts, events, outbox)
            && r.result.maxId == BaseMaxId(LastSeen(state)))
      && (r.result.scanned > 0 && r.result.maxId > 0 ==> LastSeen(r.state) == Some(r.result.maxId))
      && (r.result.scanned > 0 && r.result.maxId <= 0 ==> r.state == state)
      && (LastSeen(state).Some? ==>
            LastSeen(r.state).Some? && LastSeen(state).value <= LastSeen(r.state).value)
      && (LastSeen(state).Some? && LastSeen(state).value > 0 && r.result.scanned > 0 ==>
            LastSeen(state).value < LastSeen(r.state).value)
  {
    var lastSeen := LastSeen(state);
    var p := PaginateAll(fetch, lastSeen);
    var batch := Batch(fetch, lastSeen);
    var r := IngestRun(fetch, acts, events, outbox, state);
    if batch != [] {
      var u := UpsertAll(Begin(acts, events, outbox), batch, lastSeen.None?);
      PaginateAllItems(fetch, lastSeen);
      assert p.items != [];
      MaxIdAgrees(lastSeen, p.items, Begin(acts, events, outbox), lastSeen.None?);
      WatermarkRoundTrip(state, u.maxId);
      MaxOverBounds(BaseMaxId(lastSeen), p.items);
      if lastSeen.Some? && lastSeen.value > 0 {
        var x := p.items[0];
        assert x in p.items;
      }
    }
  }

  /**
   * A run creates or updates at most one act per raw act it scanned; on the
   * initial load it adds no outbox record, otherwise one per created or
   * updated act.
   */
  lemma IngestCounts(fetch: int -> Fetched, acts: map<int, LegalAct>, events: seq<ActEvent>,
                     outbox: seq<OutboxRecord>, state: map<string, string>)
    requires StateWellFormed(state)
    ensures var r := IngestRun(fetch, acts, events, outbox, state);
      && r.result.created + r.result.updated <= r.result.scanned
      && r.result.scanned == |PaginateAll(fetch, LastSeen(state)).items|
      && r.result.initialLoad == LastSeen(state).None?
      && (r.result.initialLoad ==> r.tables.outbox == outbox)
      && |r.tables.outbox| == |outbox| + (if r.result.initialLoad then 0 else r.result.created + r.result.updated)
      && |r.tables.events| == |events| + r.result.created + r.result.updated
  {
    var lastSeen := LastSeen(state);
    var batch := Batch(fetch, lastSeen);
    UpsertCounts(Begin(acts, events, outbox), batch, lastSeen.None?);
  }

  /** The ingestion job; it reaches the store through the acts service. */
  class EqanunIngestJob {
    const acts: ActsService

    constructor (acts: ActsService)
      ensures this.acts == acts
    {
      this.acts := acts;
    }

    /**
     * `performIngest()` (lines 28-111), with `fetch` standing for the search
     * API: reads the watermark, collects the new items page by page, sorts
     * them by id and upserts them.
     */
    method PerformIngest(fetch: int -> Fetched) returns (res: IngestResult)
      requires acts.db.Valid()
      modifies acts.db
      ensures acts.db.Valid()
      ensures var r := IngestRun(fetch, old(acts.db.acts), old(acts.db.events), old(acts.db.outbox),
                                 old(acts.db.systemState));
        && res == r.result
        && acts.db.acts == r.tables.acts && acts.db.events == r.tables.events && acts.db.outbox == r.tables.outbox
        && acts.db.systemState == r.state
      ensures acts.db.users == old(acts.db.users) && acts.db.subscriptions == old(acts.db.subscriptions)
    {
      var lastSeen := acts.GetLastSeenId();
      var initialLoad := lastSeen.None?;
      var toIngest, maxId := CollectPages(ApiItemToRawAct, fetch, lastSeen);
      if |toIngest| == 0 {
        return IngestResult(0, 0, if lastSeen.Some? then lastSeen.value else 0, 0, initialLoad);
      }
      var batch := new RawAct[|toIngest|](i requires 0 <= i < |toIngest| => toIngest[i]);
      assert batch[..] == toIngest;
      SortByEqanunId(batch);
      var created, updated, _ := acts.IngestRawActs(batch[..], initialLoad);
      res := IngestResult(created, updated, maxId, batch.Length, initialLoad);
    }

    /** `manual()`: the same run, started by hand. */
    method Manual(fetch: int -> Fetched) returns (res: IngestResult)
      requires acts.db.Valid()
      modifies acts.db
      ensures acts.db.Valid()
      ensures var r := IngestRun(fetch, old(acts.db.acts), old(acts.db.events), old(acts.db.outbox),
                                 old(acts.db.systemState));
        && res == r.result
        && acts.db.acts == r.tables.acts && acts.db.events == r.tables.events && acts.db.outbox == r.tables.outbox
        && acts.db.systemState == r.state
      ensures acts.db.users == old(acts.db.users) && acts.db.subscriptions == old(acts.db.subscriptions)
    {
      res := PerformIngest(fetch);
    }
  }
}
