/**
 * The subscription rules of the chat adapter (`TelegramUpdate`): how a
 * subscription request is normalised and deduplicated before it is stored,
 * how a `/start` deep link is routed, the per-chat flag that turns the next
 * text into a keyword, and the admin guard of `/sync`. Each handler returns
 * the replies it sends; the keyboards and the other commands are not modelled.
 */
module Bot {
  import opened Js
  import opened Store
  import opened I18n
  import opened Ingest

  /** The `locale` column's default. */
  const DefaultLocale: string := "az"

  /** The fixed reply to a chat that has no user yet. */
  const StartFirstReply: string := "Başlamaq üçün /start yazın."

  /** `user?.locale ?? 'az'`: the user's locale, or Azerbaijani for a chat without a user. */
  function LocaleOf(users: map<string, User>, chatId: string): string {
    if chatId in users then users[chatId].locale else DefaultLocale
  }

  /**
   * `upsertUser(chatId)` (lines 37-44): the users table with a user for the
   * chat; a missing one is created with the default locale, an existing one
   * is kept as it is.
   */
  function UpsertUserSpec(users: map<string, User>, chatId: string): (r: map<string, User>)
    ensures chatId in r && r.Keys == users.Keys + {chatId}
    ensures forall c :: c in users ==> r[c] == users[c]
    ensures chatId !in users ==> r[chatId].locale == DefaultLocale
    ensures UsersKeyed(users) ==> UsersKeyed(r)
  {
    if chatId in users then users else users[chatId := User(chatId, DefaultLocale)]
  }

  /**
   * The query stored for a request (lines 277-279): none for ALL, upper-cased
   * for a non-empty CATEGORY query, as given otherwise.
   */
  function NormalizeQuery(t: SubFilterType, query: Option<string>): Option<string> {
    if t == ALL then None
    else if t == CATEGORY && Truthy(query) then Some(Upper(query.value))
    else query
  }

  /** Normalising twice is normalising once, so a stored query is its own normal form. */
  lemma NormalizeQueryIdempotent(t: SubFilterType, query: Option<string>)
    ensures NormalizeQuery(t, NormalizeQuery(t, query)) == NormalizeQuery(t, query)
  {
    if t == CATEGORY && Truthy(query) {
      UpperIdempotent(query.value);
    }
  }

  /** The first subscription in table order that satisfies `p`, if any. */
  function First(subs: seq<Subscription>, p: Subscription -> bool): (r: Option<Subscription>)
    ensures r.Some? ==> r.value in subs && p(r.value)
    ensures r.None? ==> forall s :: s in subs ==> !p(s)
    decreases |subs|
  {
    if subs == [] then None
    else if p(subs[0]) then Some(subs[0])
    else First(subs[1..], p)
  }

  /** A KEYWORD subscription of the chat whose query normalises to the same text as `q`. */
  predicate KeywordClashes(s: Subscription, chatId: string, normalize: string -> string, q: string) {
    s.chatId == chatId && s.filterType == KEYWORD && normalize(OrEmpty(s.query)) == normalize(q)
  }

  /**
   * `findOne({ where: { user, type, query } })`: same chat and type, and the
   * same query unless the query is null, which TypeORM leaves out of the filter.
   */
  predicate SameRequest(s: Subscription, chatId: string, t: SubFilterType, q: Option<string>) {
    s.chatId == chatId && s.filterType == t && (q.None? || s.query == q)
  }

  /** The result of `addSubscription`: whether a row was inserted, and the row. */
  datatype AddOutcome = AddOutcome(created: bool, existing: Subscription)

  /** The outcome together with the subscriptions table afterwards. */
  datatype Added = Added(outcome: AddOutcome, subs: seq<Subscription>)

  /**
   * `addSubscription(user, type, query)` (lines 276-313): a non-empty keyword
   * that normalises like one of the chat's keywords is refused; so is a
   * request that an existing row already answers; otherwise one active row
   * is inserted.
   */
  function AddSubscriptionSpec(subs: seq<Subscription>, chatId: string, t: SubFilterType, query: Option<string>,
                               normalize: string -> string): Added
  {
    var q := NormalizeQuery(t, query);
    var clash := if t == KEYWORD && Truthy(q) then First(subs, s => KeywordClashes(s, chatId, normalize, q.value)) else None;
    if clash.Some? then Added(AddOutcome(false, clash.value), subs)
    else
      var existing := First(subs, s => SameRequest(s, chatId, t, q));
      if existing.Some? then Added(AddOutcome(false, existing.value), subs)
      else
        var row := Subscription(chatId, t, q, true);
        Added(AddOutcome(true, row), subs + [row])
  }

  /**
   * A row is inserted exactly when no keyword of the chat clashes and no row
   * answers the request; the inserted row is the normalised request, active.
   * A refused request leaves the table alone and names a row of the chat.
   */
  lemma AddSubscriptionOutcome(subs: seq<Subscription>, chatId: string, t: SubFilterType, query: Option<string>,
                               normalize: string -> string)
    ensures var a := AddSubscriptionSpec(subs, chatId, t, query, normalize);
      var q := NormalizeQuery(t, query);
      && (a.outcome.created <==>
            && (forall s :: s in subs ==> !SameRequest(s, chatId, t, q))
            && !(t == KEYWORD && Truthy(q) && exists s :: s in subs && KeywordClashes(s, chatId, normalize, q.value)))
      && (a.outcome.created ==> a.outcome.existing == Subscription(chatId, t, q, true) && a.subs == subs + [a.outcome.existing])
      && (!a.outcome.created ==> a.subs == subs && a.outcome.existing in subs && a.outcome.existing.chatId == chatId)
  {
  }

  /** Adding never breaks the unique key (user, type, query). */
  lemma AddKeepsUnique(subs: seq<Subscription>, chatId: string, t: SubFilterType, query: Option<string>,
                       normalize: string -> string)
    requires SubscriptionsUnique(subs)
    ensures SubscriptionsUnique(AddSubscriptionSpec(subs, chatId, t, query, normalize).subs)
  {
    var a := AddSubscriptionSpec(subs, chatId, t, query, normalize);
    AddSubscriptionOutcome(subs, chatId, t, query, normalize);
    if a.outcome.created {
      var row := a.outcome.existing;
      forall i, j | 0 <= i < j < |a.subs| ensures !SameKey(a.subs[i], a.subs[j]) {
        if j == |subs| {
          assert a.subs[i] == subs[i];
          assert !SameRequest(subs[i], chatId, t, row.query);
        }
      }
    }
  }

  /** Asking for the same subscription twice inserts at most once: the second request is refused. */
  lemma AddTwice(subs: seq<Subscription>, chatId: string, t: SubFilterType, query: Option<string>,
                 normalize: string -> string)
    ensures var a := AddSubscriptionSpec(subs, chatId, t, query, normalize);
      var b := AddSubscriptionSpec(a.subs, chatId, t, query, normalize);
      !b.outcome.created && b.subs == a.subs
  {
    var a := AddSubscriptionSpec(subs, chatId, t, query, normalize);
    AddSubscriptionOutcome(subs, chatId, t, query, normalize);
    AddSubscriptionOutcome(a.subs, chatId, t, query, normalize);
    if a.outcome.created {
      var row := a.outcome.existing;
      assert row in a.subs && SameRequest(row, chatId, t, NormalizeQuery(t, query));
    }
  }

  /** Where a `/start` payload leads (lines 74-92). */
  datatype StartAction = SubscribeCategory(cat: string) | SubscribeKeyword(term: string) | Greet

  /**
   * `cat_X` subscribes to the upper-cased category X, `kw_T` to the keyword
   * decoded from T; no payload, or any other one, greets.
   */
  function StartRoute(payload: Option<string>, decode: string -> string): StartAction {
    if !Truthy(payload) then Greet
    else if StartsWith(payload.value, "cat_") then SubscribeCategory(Upper(ReplaceFirst(payload.value, "cat_", "")))
    else if StartsWith(payload.value, "kw_") then SubscribeKeyword(decode(ReplaceFirst(payload.value, "kw_", "")))
    else Greet
  }

  /** A deep link built from a prefix and a value routes back to that value. */
  lemma StartRouteCases(x: string, decode: string -> string, payload: Option<string>)
    ensures StartRoute(Some("cat_" + x), decode) == SubscribeCategory(Upper(x))
    ensures StartRoute(Some("kw_" + x), decode) == SubscribeKeyword(decode(x))
    ensures payload.Some? && !StartsWith(payload.value, "cat_") && !StartsWith(payload.value, "kw_") ==>
              StartRoute(payload, decode) == Greet
  {
    ReplaceLeadingPrefix("cat_" + x, "cat_");
    assert ("cat_" + x)[4..] == x;
    ReplaceLeadingPrefix("kw_" + x, "kw_");
    assert ("kw_" + x)[3..] == x;
    assert !StartsWith("kw_" + x, "cat_") by {
      assert ("kw_" + x)[0] != "cat_"[0];
    }
  }

  /**
   * A category deep link stores the category upper-cased once: upper-casing
   * again before the insert changes nothing.
   */
  lemma DeepLinkCategoryStored(subs: seq<Subscription>, chatId: string, x: string, normalize: string -> string)
    ensures var a := AddSubscriptionSpec(subs, chatId, CATEGORY, Some(Upper(x)), normalize);
      a.outcome.created ==> a.outcome.existing == Subscription(chatId, CATEGORY, Some(Upper(x)), true)
  {
    UpperIdempotent(x);
  }

  /** The bot's update handlers; the pending-keyword map lives in memory, the rest in the store. */
  class TelegramUpdate {
    const db: Database
    const ingestJob: EqanunIngestJob
    /** `String(process.env.TG_ADMIN_CHAT_ID)`. */
    const adminChatId: string
    /** `normalizeForMatch`, which is not part of this model. */
    const normalizeForMatch: string -> string
    /** `decodeURIComponent`. */
    const decodeUriComponent: string -> string
    /** `pendingKeyword`: chat id to "waiting for a keyword". */
    var pendingKeyword: map<string, bool>

    constructor (db: Database, ingestJob: EqanunIngestJob, adminChatId: string,
                 normalizeForMatch: string -> string, decodeUriComponent: string -> string)
      ensures this.db == db && this.ingestJob == ingestJob && this.adminChatId == adminChatId
      ensures this.normalizeForMatch == normalizeForMatch && this.decodeUriComponent == decodeUriComponent
      ensures pendingKeyword == map[]
    {
      this.db := db;
      this.ingestJob := ingestJob;
      this.adminChatId := adminChatId;
      this.normalizeForMatch := normalizeForMatch;
      this.decodeUriComponent := decodeUriComponent;
      pendingKeyword := map[];
    }

    /** `upsertUser(chatId)` (lines 37-44). */
    method UpsertUser(chatId: string) returns (u: User)
      requires db.Valid()
      modifies db
      ensures db.Valid()
      ensures db.users == UpsertUserSpec(old(db.users), chatId) && u == db.users[chatId]
      ensures db.acts == old(db.acts) && db.events == old(db.events) && db.outbox == old(db.outbox)
      ensures db.systemState == old(db.systemState) && db.subscriptions == old(db.subscriptions)
    {
      if chatId in db.users {
        u := db.users[chatId];
      } else {
        u := User(chatId, DefaultLocale);
        db.users := db.users[chatId := u];
      }
    }

    /** `addSubscription(user, type, query)` (lines 276-313). */
    method AddSubscription(user: User, t: SubFilterType, query: Option<string>) returns (r: AddOutcome)
      requires db.Valid() && !t.OtherFilter?
      modifies db
      ensures db.Valid()
      ensures var a := AddSubscriptionSpec(old(db.subscriptions), user.telegramChatId, t, query, normalizeForMatch);
        r == a.outcome && db.subscriptions == a.subs
      ensures db.acts == old(db.acts) && db.events == old(db.events) && db.outbox == old(db.outbox)
      ensures db.systemState == old(db.systemState) && db.users == old(db.users)
    {
      AddKeepsUnique(db.subscriptions, user.telegramChatId, t, query, normalizeForMatch);
      var chatId := user.telegramChatId;
      var normQuery := query;
      if t == CATEGORY && Truthy(normQuery) {
        normQuery := Some(Upper(normQuery.value));
      }
      if t == ALL {
        normQuery := None;
      }
      if t == KEYWORD && Truthy(normQuery) {
        var newNorm := normalizeForMatch(normQuery.value);
        var clash := First(db.subscriptions, s => KeywordClashes(s, chatId, normalizeForMatch, normQuery.value));
        if clash.Some? {
          return AddOutcome(false, clash.value);
        }
      }
      var existing := First(db.subscriptions, s => SameRequest(s, chatId, t, normQuery));
      if existing.Some? {
        return AddOutcome(false, existing.value);
      }
      var row := Subscription(chatId, t, normQuery, true);
      db.subscriptions := db.subscriptions + [row];
      r := AddOutcome(true, row);
    }

    /** `onStart` (lines 68-93): registers the chat, then follows the deep link or greets. */
    method OnStart(chatId: string, payload: Option<string>) returns (replies: seq<string>)
      requires db.Valid()
      modifies db
      ensures db.Valid()
      ensures db.users == UpsertUserSpec(old(db.users), chatId)
      ensures var locale := Some(db.users[chatId].locale);
        match StartRoute(payload, decodeUriComponent)
        case SubscribeCategory(cat) =>
          var a := AddSubscriptionSpec(old(db.subscriptions), chatId, CATEGORY, Some(cat), normalizeForMatch);
          db.subscriptions == a.subs
          && replies == [TranslateAsWritten(locale, if a.outcome.created then "sub_added_cat" else "sub_exists_cat", [Var("cat", cat)])]
        case SubscribeKeyword(term) =>
          var a := AddSubscriptionSpec(old(db.subscriptions), chatId, KEYWORD, Some(term), normalizeForMatch);
          db.subscriptions == a.subs
          && replies == [TranslateAsWritten(locale, if a.outcome.created then "sub_added_keyword" else "sub_exists_keyword", [Var("term", term)])]
        case Greet =>
          db.subscriptions == old(db.subscriptions)
          && replies == [TranslateAsWritten(locale, "welcome", []), TranslateAsWritten(locale, "choose_sub_type", [])]
      ensures db.acts == old(db.acts) && db.events == old(db.events) && db.outbox == old(db.outbox)
      ensures db.systemState == old(db.systemState)
    {
      var user := UpsertUser(chatId);
      var locale := Some(user.locale);
      if Truthy(payload) {
        var p := payload.value;
        if StartsWith(p, "cat_") {
          var cat := Upper(ReplaceFirst(p, "cat_", ""));
          var r := AddSubscription(user, CATEGORY, Some(cat));
          var reply := T(locale, if r.created then "sub_added_cat" else "sub_exists_cat", [Var("cat", cat)]);
          return [reply];
        }
        if StartsWith(p, "kw_") {
          var term := decodeUriComponent(ReplaceFirst(p, "kw_", ""));
          var r := AddSubscription(user, KEYWORD, Some(term));
          var reply := T(locale, if r.created then "sub_added_keyword" else "sub_exists_keyword", [Var("term", term)]);
          return [reply];
        }
      }
      var welcome := T(locale, "welcome", []);
      var choose := T(locale, "choose_sub_type", []);
      replies := [welcome, choose];
    }

    /** `subAll` (lines 112-119): registers the chat and asks for every act. */
    method SubAll(chatId: string) returns (reply: string)
      requires db.Valid()
      modifies db
      ensures db.Valid()
      ensures db.users == UpsertUserSpec(old(db.users), chatId)
      ensures var a := AddSubscriptionSpec(old(db.subscriptions), chatId, ALL, None, normalizeForMatch);
        && db.subscriptions == a.subs
        && reply == TranslateAsWritten(Some(db.users[chatId].locale), if a.outcome.created then "sub_added_all" else "sub_exists_all", [])
      ensures db.acts == old(db.acts) && db.events == old(db.events) && db.outbox == old(db.outbox)
      ensures db.systemState == old(db.systemState)
    {
      var user := UpsertUser(chatId);
      var r := AddSubscription(user, ALL, None);
      reply := T(Some(user.locale), if r.created then "sub_added_all" else "sub_exists_all", []);
    }

    /** `subCategory` (lines 121-128): registers the chat and asks for one category, upper-cased. */
    method SubCategory(chatId: string, category: string) returns (reply: string)
      requires db.Valid()
      modifies db
      ensures db.Valid()
      ensures db.users == UpsertUserSpec(old(db.users), chatId)
      ensures var cat := Upper(category);
        var a := AddSubscriptionSpec(old(db.subscriptions), chatId, CATEGORY, Some(cat), normalizeForMatch);
        && db.subscriptions == a.subs
        && (a.outcome.created ==> a.outcome.existing.query == Some(cat))
        && reply == TranslateAsWritten(Some(db.users[chatId].locale), if a.outcome.created then "sub_added_cat" else "sub_exists_cat", [Var("cat", cat)])
      ensures db.acts == old(db.acts) && db.events == old(db.events) && db.outbox == old(db.outbox)
      ensures db.systemState == old(db.systemState)
    {
      var cat := Upper(category);
      var user := UpsertUser(chatId);
      DeepLinkCategoryStored(db.subscriptions, chatId, category, normalizeForMatch);
      var r := AddSubscription(user, CATEGORY, Some(cat));
      reply := T(Some(user.locale), if r.created then "sub_added_cat" else "sub_exists_cat", [Var("cat", cat)]);
    }

    /** `askKeyword` (lines 130-137): the chat now waits for a keyword. */
    method AskKeyword(chatId: string) returns (reply: string)
      modifies this
      ensures pendingKeyword == old(pendingKeyword)[chatId := true]
      ensures reply == TranslateAsWritten(Some(LocaleOf(db.users, chatId)), "prompt_keyword", [])
    {
      pendingKeyword := pendingKeyword[chatId := true];
      reply := T(Some(LocaleOf(db.users, chatId)), "prompt_keyword", []);
    }

    /**
     * `onAnyText` (lines 254-274): for a known chat, a text that is not a
     * command and arrives while the chat waits clears the flag and becomes a
     * keyword subscription; a command is left to its handler, with the flag
     * kept; any other text does nothing.
     */
    method OnAnyText(chatId: string, message: Option<string>) returns (replies: seq<string>)
      requires db.Valid()
      modifies this, db
      ensures db.Valid()
      ensures db.acts == old(db.acts) && db.events == old(db.events) && db.outbox == old(db.outbox)
      ensures db.systemState == old(db.systemState) && db.users == old(db.users)
      ensures var text := if message.Some? then Trim(message.value) else "";
        var waiting := chatId in old(pendingKeyword) && old(pendingKeyword)[chatId];
        if chatId !in db.users then
          replies == [StartFirstReply] && pendingKeyword == old(pendingKeyword) && db.subscriptions == old(db.subscriptions)
        else if StartsWith(text, "/") || !waiting then
          replies == [] && pendingKeyword == old(pendingKeyword) && db.subscriptions == old(db.subscriptions)
        else
          var a := AddSubscriptionSpec(old(db.subscriptions), chatId, KEYWORD, Some(text), normalizeForMatch);
          && pendingKeyword == old(pendingKeyword) - {chatId}
          && db.subscriptions == a.subs
          && replies == [TranslateAsWritten(Some(db.users[chatId].locale),
                                   if a.outcome.created then "sub_added_keyword" else "sub_exists_keyword",
                                   [Var("term", text)])]
    {
      var text := if message.Some? then Trim(message.value) else "";
      if chatId !in db.users {
        return [StartFirstReply];
      }
      var user := db.users[chatId];
      if StartsWith(text, "/") {
        return [];
      }
      var locale := Some(user.locale);
      if chatId in pendingKeyword && pendingKeyword[chatId] {
        pendingKeyword := pendingKeyword - {chatId};
        assert user.telegramChatId == chatId;
        var r := AddSubscription(user, KEYWORD, Some(text));
        var reply := T(locale, if r.created then "sub_added_keyword" else "sub_exists_keyword", [Var("term", text)]);
        return [reply];
      }
      replies := [];
    }

    /**
     * `/sync` (lines 240-251): only the admin chat starts an ingestion run;
     * any other chat is told so and nothing changes.
     */
    method Sync(chatId: string, fetch: int -> Fetched) returns (replies: seq<string>)
      requires db.Valid() && ingestJob.acts.db == db
      modifies db
      ensures db.Valid()
      ensures db.users == old(db.users) && db.subscriptions == old(db.subscriptions)
      ensures var locale := Some(LocaleOf(old(db.users), chatId));
        if chatId != adminChatId then
          && replies == [TranslateAsWritten(locale, "sync_admin_only", [])]
          && db.acts == old(db.acts) && db.events == old(db.events) && db.outbox == old(db.outbox)
          && db.systemState == old(db.systemState)
        else
          var r := IngestRun(fetch, old(db.acts), old(db.events), old(db.outbox), old(db.systemState));
          && db.acts == r.tables.acts && db.events == r.tables.events && db.outbox == r.tables.outbox
          && db.systemState == r.state
          && replies == [TranslateAsWritten(locale, "sync_starting", []),
                         TranslateAsWritten(locale, "sync_done", [Var("created", ShowInt(r.result.created)),
                                                          Var("updated", ShowInt(r.result.updated)),
                                                          Var("maxId", ShowInt(r.result.maxId))])]
    {
      var locale := Some(LocaleOf(db.users, chatId));
      if chatId != adminChatId {
        var denied := T(locale, "sync_admin_only", []);
        return [denied];
      }
      var starting := T(locale, "sync_starting", []);
      var res := ingestJob.Manual(fetch);
      var done := T(locale, "sync_done", [Var("created", ShowInt(res.created)),
                                          Var("updated", ShowInt(res.updated)),
                                          Var("maxId", ShowInt(res.maxId))]);
      replies := [starting, done];
    }
  }
}
