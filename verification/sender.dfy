/**
 * The notification sender (`NotifSenderService`): claims up to 100 waiting
 * user notifications, oldest first, composes each one's Telegram message,
 * shortening the title when the message is over Telegram's limit, and sends
 * it. A delivered notification becomes SENT; a failed one counts an attempt
 * and is given up (FAILED) at the fifth.
 *
 * The Telegram call is outside the model: its outcome for the `k`-th claimed
 * notification is `delivered(k)`, and the messages handed to it are returned.
 */
module Sending {
  import opened Js
  import opened TextUtil
  import opened Store

  /** How many notifications one run claims. */
  const SendBatch: nat := 100

  /** Telegram's limit on a message, in UTF-16 code units. */
  const TelegramLimit: int := 4096

  /** A shortened title keeps at least this many code units... */
  const MinTitle: int := 20

  /** ...and is cut this many code units below what the limit would allow. */
  const TitleSlack: int := 10

  /** The first line of a message; each starts with an emoji of two code units. */
  function Header(updated: bool): string {
    if updated then "🔁 Updated act" else "🆕 New act"
  }

  /** What comes before the title: the header line and the opening `*` of the bold title. */
  function Lead(updated: bool): string {
    Header(updated) + ":\n*"
  }

  /** What follows the title: the closing `*`, the category in italics, then the link. */
  function Trailer(category: string, url: string): string {
    "*\n_" + category + "_\n" + url
  }

  /** The message: header, the title in bold, the category in italics, then the link. */
  function Compose(updated: bool, title: string, category: string, url: string): string {
    Lead(updated) + title + Trailer(category, url)
  }

  /** The fallback escape: a title without any backslash is escaped, one with a backslash is taken as escaped already. */
  function SenderTitle(title: string): string {
    if '\\' in title then title else EscapeMarkdown(title)
  }

  /**
   * The text sent for a notification: the composed message, or, when it is
   * over the limit, the message again with the title cut to
   * `max(20, title.length - excess - 10)` code units and `…` appended.
   */
  function Message(updated: bool, rawTitle: string, category: string, url: string): string {
    var title := SenderTitle(rawTitle);
    var text := Compose(updated, title, category, url);
    if Utf16Length(text) > TelegramLimit then
      var extra := Utf16Length(text) - TelegramLimit;
      Compose(updated, SliceTo(title, Max(MinTitle, |title| - extra - TitleSlack)) + [Ellipsis], category, url)
    else text
  }

  /**
   * A message within the limit is sent as composed, and under the conditions
   * of `MessageFits` the message sent is within the limit.
   */
  lemma MessageForFacts(p: Payload)
    requires p.NotificationPayload?
    ensures var full := Compose(p.updated, SenderTitle(p.title), p.category, p.url);
      Utf16Length(full) <= TelegramLimit ==> MessageFor(p) == full
    ensures Bmp(p.title) && Utf16Length(Compose(p.updated, "", p.category, p.url)) <= TelegramLimit - TitleSlack - MinTitle
            ==> Utf16Length(MessageFor(p)) <= TelegramLimit
  {
    if Bmp(p.title) && Utf16Length(Compose(p.updated, "", p.category, p.url)) <= TelegramLimit - TitleSlack - MinTitle {
      MessageFits(p.updated, p.title, p.category, p.url);
    }
  }

  /** The message of a notification's payload. */
  function MessageFor(p: Payload): string
    requires p.NotificationPayload?
  {
    Message(p.updated, p.title, p.category, p.url)
  }

  /** The length of a message is the title's plus that of everything around it. */
  lemma ComposeLength(updated: bool, title: string, category: string, url: string)
    ensures Utf16Length(Compose(updated, title, category, url))
            == Utf16Length(Compose(updated, "", category, url)) + Utf16Length(title)
  {
    var h := Lead(updated);
    var t := Trailer(category, url);
    assert Compose(updated, "", category, url) == h + t;
    Utf16Append(h + title, t);
    Utf16Append(h, title);
    Utf16Append(h, t);
  }

  /** Escaping adds only backslashes, so it stays in the Basic Multilingual Plane. */
  lemma {:induction false} EscapeBmp(s: string)
    requires Bmp(s)
    ensures Bmp(EscapeMarkdown(s))
    decreases |s|
  {
    if s != [] {
      EscapeBmp(s[1..]);
      var e := EscapeMarkdown(s);
      assert e == EscapeChar(s[0]) + EscapeMarkdown(s[1..]);
    }
  }

  /**
   * The planner's titles reach Telegram as the planner escaped them: the
   * fallback escape never escapes a second time.
   */
  lemma PlannedTitleKept(rawTitle: string, hardCap: int)
    ensures var planned := BuildSafeTitleForTelegram(rawTitle, hardCap).title;
      SenderTitle(planned) == planned
  {
    var v := TruncateWithEllipsis(rawTitle, hardCap).value;
    var planned := EscapeMarkdown(v);
    if '\\' !in planned {
      BackslashFreeEscape(v);
      EscapeWithoutReserved(planned);
    }
  }

  /**
   * A message fits Telegram's limit whenever everything but the title leaves
   * room for a 20-unit title and the slack: a message over the limit is cut
   * to exactly 9 code units below it, keeping the title's beginning.
   */
  lemma MessageFits(updated: bool, rawTitle: string, category: string, url: string)
    requires Bmp(rawTitle)
    requires Utf16Length(Compose(updated, "", category, url)) <= TelegramLimit - TitleSlack - MinTitle
    ensures Utf16Length(Message(updated, rawTitle, category, url)) <= TelegramLimit
    ensures var title := SenderTitle(rawTitle);
      var fixed := Utf16Length(Compose(updated, "", category, url));
      Utf16Length(Compose(updated, title, category, url)) > TelegramLimit ==>
        && Utf16Length(Message(updated, rawTitle, category, url)) == TelegramLimit - TitleSlack + 1
        && Message(updated, rawTitle, category, url)
           == Compose(updated, SliceTo(title, TelegramLimit - TitleSlack - fixed) + [Ellipsis], category, url)
  {
    var title := SenderTitle(rawTitle);
    var fixed := Utf16Length(Compose(updated, "", category, url));
    if '\\' !in rawTitle {
      EscapeBmp(rawTitle);
    }
    assert Bmp(title);
    Utf16Bmp(title);
    ComposeLength(updated, title, category, url);
    var full := Utf16Length(Compose(updated, title, category, url));
    var m := Message(updated, rawTitle, category, url);
    if full > TelegramLimit {
      var n := TelegramLimit - TitleSlack - fixed;
      assert n == |title| - (full - TelegramLimit) - TitleSlack;
      var cut := SliceTo(title, TelegramLimit - TitleSlack - fixed) + [Ellipsis];
      assert m == Compose(updated, cut, category, url) by {
        assert Max(MinTitle, n) == n;
      }
      CutLength(title, n);
      ComposeLength(updated, cut, category, url);
    } else {
      assert m == Compose(updated, title, category, url);
    }
  }

  /** A title without astral characters cut to `n` units and given an ellipsis is `n + 1` units long. */
  lemma CutLength(title: string, n: int)
    requires Bmp(title) && 0 <= n <= |title|
    ensures Utf16Length(SliceTo(title, n) + [Ellipsis]) == n + 1
  {
    var cut := SliceTo(title, n) + [Ellipsis];
    assert Bmp(cut) by {
      assert forall i :: 0 <= i < n ==> cut[i] == title[i];
    }
    Utf16Bmp(cut);
  }

  /**
   * The outcome of one delivery: SENT when Telegram accepts the message;
   * otherwise one more attempt is counted, and the fifth gives up.
   */
  function Deliver(r: OutboxRecord, ok: bool): OutboxRecord {
    if ok then r.(status := SENT)
    else r.(attempts := r.attempts + 1, status := if r.attempts + 1 >= MaxAttempts then FAILED else NEW)
  }

  /** Delivering a claimed notification keeps its record well formed and its payload intact. */
  lemma DeliverWellFormed(r: OutboxRecord, ok: bool)
    requires Claimable(Sender, r) && PayloadMatchesKind(r) && RetryBounded(r)
    ensures var d := Deliver(r, ok);
      && PayloadMatchesKind(d) && RetryBounded(d)
      && d.kind == r.kind && d.payload == r.payload
      && (ok <==> d.status == SENT)
      && (!ok ==> d.attempts == r.attempts + 1)
  {
  }

  /** The record after `n` failed deliveries in a row. */
  function Failures(r: OutboxRecord, n: nat): OutboxRecord
    decreases n
  {
    if n == 0 then r else Deliver(Failures(r, n - 1), false)
  }

  /**
   * A new notification whose deliveries all fail is claimed again after each
   * of its first four failures and given up at the fifth.
   */
  lemma {:induction false} GivenUpAtFifthFailure(r: OutboxRecord, n: nat)
    requires r.kind == USER_NOTIFICATION && r.status == NEW && r.attempts == 0
    requires n <= MaxAttempts
    ensures Failures(r, n).attempts == n
    ensures Claimable(Sender, Failures(r, n)) <==> n < MaxAttempts
    ensures n == MaxAttempts ==> Failures(r, n).status == FAILED
    decreases n
  {
    if n > 0 {
      GivenUpAtFifthFailure(r, n - 1);
    }
  }

  /** The run's loop over the claimed notifications; the `k`-th one's delivery succeeds when `delivered(k)`. */
  function SendAll(outbox: seq<OutboxRecord>, jobs: seq<nat>, delivered: nat -> bool): (r: seq<OutboxRecord>)
    requires forall k :: 0 <= k < |jobs| ==> jobs[k] < |outbox|
    ensures |r| == |outbox|
    decreases |jobs|
  {
    if jobs == [] then outbox
    else
      var prev := SendAll(outbox, jobs[..|jobs| - 1], delivered);
      var idx := jobs[|jobs| - 1];
      prev[idx := Deliver(prev[idx], delivered(|jobs| - 1))]
  }

  /** A message handed to Telegram. */
  datatype TelegramMessage = TelegramMessage(chatId: string, text: string)

  /** Every claimed record of the sender carries a notification payload. */
  ghost predicate NotificationJobs(outbox: seq<OutboxRecord>, jobs: seq<nat>) {
    forall k :: 0 <= k < |jobs| ==> jobs[k] < |outbox| && outbox[jobs[k]].payload.NotificationPayload?
  }

  /** The messages sent for the claimed notifications, in order. */
  function Outgoing(outbox: seq<OutboxRecord>, jobs: seq<nat>): (r: seq<TelegramMessage>)
    requires NotificationJobs(outbox, jobs)
    ensures |r| == |jobs|
    decreases |jobs|
  {
    if jobs == [] then []
    else
      var p := outbox[jobs[|jobs| - 1]].payload;
      Outgoing(outbox, jobs[..|jobs| - 1]) + [TelegramMessage(p.telegramChatId, MessageFor(p))]
  }

  /** The table after a run: the 100 oldest waiting notifications delivered or retried. */
  function SendRun(outbox: seq<OutboxRecord>, delivered: nat -> bool): seq<OutboxRecord> {
    SendAll(outbox, Claim(outbox, Sender, SendBatch), delivered)
  }

  /**
   * Over distinct claimed records, the run sets each claimed record to its
   * delivery outcome and leaves every other record alone.
   */
  lemma {:induction false} SendAllClosedForm(outbox: seq<OutboxRecord>, jobs: seq<nat>, delivered: nat -> bool)
    requires forall k :: 0 <= k < |jobs| ==> jobs[k] < |outbox|
    requires forall k, l :: 0 <= k < l < |jobs| ==> jobs[k] < jobs[l]
    ensures forall k :: 0 <= k < |jobs| ==>
              SendAll(outbox, jobs, delivered)[jobs[k]] == Deliver(outbox[jobs[k]], delivered(k))
    ensures forall i :: 0 <= i < |outbox| && i !in jobs ==> SendAll(outbox, jobs, delivered)[i] == outbox[i]
    decreases |jobs|
  {
    if jobs != [] {
      var init := jobs[..|jobs| - 1];
      var idx := jobs[|jobs| - 1];
      SendAllClosedForm(outbox, init, delivered);
      assert idx !in init by {
        forall k | 0 <= k < |init| ensures init[k] != idx {
          assert init[k] == jobs[k];
        }
      }
      forall i | 0 <= i < |outbox| && i !in jobs
        ensures SendAll(outbox, jobs, delivered)[i] == outbox[i]
      {
        assert i !in init && i != idx by {
          assert jobs == init + [idx];
        }
      }
      forall k | 0 <= k < |jobs|
        ensures SendAll(outbox, jobs, delivered)[jobs[k]] == Deliver(outbox[jobs[k]], delivered(k))
      {
        if k < |init| {
          assert jobs[k] == init[k];
        }
      }
    }
  }

  /**
   * A run claims at most 100 notifications, all waiting ones; each claimed
   * record ends with its delivery outcome, every other record is unchanged,
   * and the table stays well formed.
   */
  lemma SendFacts(outbox: seq<OutboxRecord>, delivered: nat -> bool)
    requires OutboxWellFormed(outbox)
    ensures var jobs := Claim(outbox, Sender, SendBatch);
      var r := SendRun(outbox, delivered);
      && |jobs| <= SendBatch
      && NotificationJobs(outbox, jobs)
      && (forall k :: 0 <= k < |jobs| ==> Claimable(Sender, outbox[jobs[k]]) && r[jobs[k]] == Deliver(outbox[jobs[k]], delivered(k)))
      && (forall i :: 0 <= i < |outbox| && i !in jobs ==> r[i] == outbox[i])
      && OutboxWellFormed(r)
  {
    var jobs := Claim(outbox, Sender, SendBatch);
    var r := SendRun(outbox, delivered);
    SendAllClosedForm(outbox, jobs, delivered);
    forall i | 0 <= i < |r|
      ensures PayloadMatchesKind(r[i]) && RetryBounded(r[i])
    {
      if i in jobs {
        var k :| 0 <= k < |jobs| && jobs[k] == i;
        DeliverWellFormed(outbox[i], delivered(k));
      }
    }
  }

  /** Before its turn, a claimed record is as it was when claimed. */
  lemma NextJobUntouched(outbox: seq<OutboxRecord>, jobs: seq<nat>, k: nat, delivered: nat -> bool)
    requires forall i :: 0 <= i < |jobs| ==> jobs[i] < |outbox|
    requires forall i, j :: 0 <= i < j < |jobs| ==> jobs[i] < jobs[j]
    requires k < |jobs|
    ensures SendAll(outbox, jobs[..k], delivered)[jobs[k]] == outbox[jobs[k]]
  {
    SendAllClosedForm(outbox, jobs[..k], delivered);
    assert jobs[k] !in jobs[..k];
  }

  /** One more turn of the loop: one more record delivered, one more message sent. */
  lemma SendStep(outbox: seq<OutboxRecord>, jobs: seq<nat>, k: nat, delivered: nat -> bool)
    requires NotificationJobs(outbox, jobs)
    requires k < |jobs|
    ensures var prev := SendAll(outbox, jobs[..k], delivered);
      SendAll(outbox, jobs[..k + 1], delivered) == prev[jobs[k] := Deliver(prev[jobs[k]], delivered(k))]
    ensures var p := outbox[jobs[k]].payload;
      Outgoing(outbox, jobs[..k + 1]) == Outgoing(outbox, jobs[..k]) + [TelegramMessage(p.telegramChatId, MessageFor(p))]
  {
    assert jobs[..k + 1][..k] == jobs[..k];
  }

  /** The sender; it writes only the outbox. */
  class NotifSenderService {
    const db: Database

    constructor (db: Database)
      ensures this.db == db
    {
      this.db := db;
    }

    /**
     * `send()`: one transaction over the claimed notifications; returns the
     * messages handed to Telegram, one per claimed notification.
     */
    method Send(delivered: nat -> bool) returns (sent: seq<TelegramMessage>)
      requires db.Valid()
      modifies db
      ensures db.Valid()
      ensures NotificationJobs(old(db.outbox), Claim(old(db.outbox), Sender, SendBatch))
      ensures db.outbox == SendRun(old(db.outbox), delivered)
      ensures sent == Outgoing(old(db.outbox), Claim(old(db.outbox), Sender, SendBatch))
      ensures db.acts == old(db.acts) && db.events == old(db.events) && db.systemState == old(db.systemState)
      ensures db.users == old(db.users) && db.subscriptions == old(db.subscriptions)
    {
      ghost var outbox0 := db.outbox;
      SendFacts(outbox0, delivered);
      var jobs := Claim(db.outbox, Sender, SendBatch);
      sent := [];
      var k := 0;
      while k < |jobs|
        invariant 0 <= k <= |jobs|
        invariant db.outbox == SendAll(outbox0, jobs[..k], delivered)
        invariant sent == Outgoing(outbox0, jobs[..k])
        invariant db.acts == old(db.acts) && db.events == old(db.events) && db.systemState == old(db.systemState)
        invariant db.users == old(db.users) && db.subscriptions == old(db.subscriptions)
      {
        NextJobUntouched(outbox0, jobs, k, delivered);
        var msg := SendJob(jobs[k], delivered(k));
        sent := sent + [msg];
        SendStep(outbox0, jobs, k, delivered);
        k := k + 1;
      }
      assert jobs[..k] == jobs;
    }

    /** The body of the loop for the notification at `idx` (lines 24-52). */
    method SendJob(idx: nat, ok: bool) returns (msg: TelegramMessage)
      requires idx < |db.outbox| && db.outbox[idx].payload.NotificationPayload?
      modifies db
      ensures var p := old(db.outbox)[idx].payload;
        msg == TelegramMessage(p.telegramChatId, MessageFor(p))
      ensures db.outbox == old(db.outbox)[idx := Deliver(old(db.outbox)[idx], ok)]
      ensures db.acts == old(db.acts) && db.events == old(db.events) && db.systemState == old(db.systemState)
      ensures db.users == old(db.users) && db.subscriptions == old(db.subscriptions)
    {
      var job := db.outbox[idx];
      var text := ComposeMessage(job.payload);
      msg := TelegramMessage(job.payload.telegramChatId, text);
      if ok {
        job := job.(status := SENT);
      } else {
        var attempts := job.attempts + 1;
        job := job.(attempts := attempts, status := if attempts >= MaxAttempts then FAILED else NEW);
      }
      db.outbox := db.outbox[idx := job];
    }
  }

  /** The text built for one notification (lines 24-43); the fallback escape is `SenderTitle`. */
  method ComposeMessage(p: Payload) returns (text: string)
    requires p.NotificationPayload?
    ensures text == MessageFor(p)
    ensures var full := Compose(p.updated, SenderTitle(p.title), p.category, p.url);
      Utf16Length(full) <= TelegramLimit ==> text == full
    ensures Bmp(p.title) && Utf16Length(Compose(p.updated, "", p.category, p.url)) <= TelegramLimit - TitleSlack - MinTitle
            ==> Utf16Length(text) <= TelegramLimit
  {
    var title := SenderTitle(p.title);
    var full := Compose(p.updated, title, p.category, p.url);
    var length := Utf16Length(full);
    if length > TelegramLimit {
      var extra := length - TelegramLimit;
      var allowedTitleLen := Max(MinTitle, |title| - extra - TitleSlack);
      var shortened := SliceTo(title, allowedTitleLen) + [Ellipsis];
      text := Compose(p.updated, shortened, p.category, p.url);
    } else {
      text := full;
    }
    assert text == MessageFor(p);
    MessageForFacts(p);
  }
}
