/**
 * The message catalogue of the bot (`i18n.t`): a dictionary per locale,
 * looked up by key, with `{name}` placeholders filled in from a list of
 * variables, one variable after the other.
 */
module I18n {
  import opened Js

  datatype Locale = Az | En

  /** `locale === 'en' ? 'en' : 'az'`: English only for exactly `en`; anything else, or none, is Azerbaijani. */
  function SelectLocale(locale: Option<string>): (l: Locale)
    ensures l == En <==> locale == Some("en")
  {
    if locale == Some("en") then En else Az
  }

  const AzDict: map<string, string> := map[
      "cmd_start" := "Başla",
      "cmd_subscribe" := "Abunə ol (sürətli seçim)",
      "cmd_list" := "Abunələri göstər",
      "cmd_manage" := "Abunələri idarə et",
      "cmd_topics" := "Rəsmi bölmələrdən seç",
      "cmd_lang" := "Dili dəyiş",
      "cmd_help" := "Kömək",
      "chat_not_found" := "Chat tapılmadı.",
      "welcome" := "Salam! Yeni hüquqi aktlar barədə bildirişlər üçün hazıram.",
      "choose_sub_type" := "Abunə növünü seçin:",
      "start_first" := "Başlamaq üçün /start yazın.",
      "subs_none" := "Abunə yoxdur.",
      "subs_title" := "Abunələriniz:",
      "topics_choose" := "Rəsmi bölmələrdən seçin:",
      "topics_none" := "Bölmələr tapılmadı.",
      "prompt_keyword" := "Açar sözü yazın (məs.: \"vergi\")",
      "sub_added_all" := "✅ Hamısı üçün abunə aktivdir.",
      "sub_exists_all" := "ℹ️ Artıq \"Hamısı\" üçün abunəsiniz.",
      "sub_added_cat" := "✅ {cat} üçün abunə aktivdir.",
      "sub_exists_cat" := "ℹ️ {cat} üçün artıq abunəsiniz.",
      "sub_added_keyword" := "✅ Açar sözü üçün abunə aktivdir: “{term}”",
      "sub_exists_keyword" := "ℹ️ Bu açar söz üçün artıq abunəsiniz: “{term}”",
      "sub_added_typeName" := "✅ {name} üzrə abunə aktivdir.",
      "sub_exists_typeName" := "ℹ️ {name} üzrə artıq abunəsiniz.",
      "unsub_deleted_cb" := "Silindi",
      "unsub_deleted_text" := "✅ Silindi. /manage yazıb yeniləyə bilərsiniz.",
      "lang_choose" := "Dil seçin:",
      "lang_set_az" := "✅ Dil: AZ",
      "lang_set_en" := "✅ Dil: EN",
      "sync_admin_only" := "⛔️ Yalnız admin /sync işlədə bilər.",
      "sync_starting" := "⏳ Sync başladı…",
      "sync_done" := "✅ Sync bitdi: {created} yeni, {updated} yeniləndi. MaxID={maxId}",
      "help_lines" := "Əmrlər:\n/subscribe – sürətli seçim menyusu\n/list – abunələri göstər\n/manage – abunələri idarə et (sil)\n/topics – rəsmi bölmələrdən seç\n/lang – dili dəyiş\n/digest – (əgər aktiv etsəniz) gündəlik xülasə"
    ]

  const EnDict: map<string, string> := map[
      "cmd_start" := "Start",
      "cmd_subscribe" := "Subscribe (quick menu)",
      "cmd_list" := "List subscriptions",
      "cmd_manage" := "Manage subscriptions",
      "cmd_topics" := "Choose from official sections",
      "cmd_lang" := "Change language",
      "cmd_help" := "Help",
      "chat_not_found" := "Chat not found.",
      "welcome" := "Hello! I am ready to notify you about new legal acts.",
      "choose_sub_type" := "Select a subscription type:",
      "start_first" := "Send /start to begin.",
      "subs_none" := "No subscriptions.",
      "subs_title" := "Your subscriptions:",
      "topics_choose" := "Choose from official sections:",
      "topics_none" := "No sections found.",
      "prompt_keyword" := "Enter a keyword (e.g. \"tax\")",
      "sub_added_all" := "✅ Subscribed to ALL.",
      "sub_exists_all" := "ℹ️ Already subscribed to ALL.",
      "sub_added_cat" := "✅ Subscribed to {cat}.",
      "sub_exists_cat" := "ℹ️ Already subscribed to {cat}.",
      "sub_added_keyword" := "✅ Subscribed to keyword: “{term}”",
      "sub_exists_keyword" := "ℹ️ Already subscribed to keyword: “{term}”",
      "sub_added_typeName" := "✅ Subscribed for {name}.",
      "sub_exists_typeName" := "ℹ️ Already subscribed for {name}.",
      "unsub_deleted_cb" := "Deleted",
      "unsub_deleted_text" := "✅ Deleted. You can refresh with /manage.",
      "lang_choose" := "Choose language:",
      "lang_set_az" := "✅ Language: AZ",
      "lang_set_en" := "✅ Language: EN",
      "sync_admin_only" := "⛔️ Only admin can run /sync.",
      "sync_starting" := "⏳ Sync started…",
      "sync_done" := "✅ Sync finished: {created} new, {updated} updated. MaxID={maxId}",
      "help_lines" := "Commands:\n/subscribe – quick menu\n/list – list subscriptions\n/manage – manage (delete) subscriptions\n/topics – choose from official sections\n/lang – change language\n/digest – (if enabled) daily digest"
    ]

  /** Both dictionaries have the same keys, so a key falls back to itself in either locale or in neither. */
  lemma BothLocalesHaveEveryKey()
    ensures AzDict.Keys == EnDict.Keys
  {
  }

  function Dict(l: Locale): map<string, string> {
    match l
    case Az => AzDict
    case En => EnDict
  }

  /** One entry of `vars`, its value already turned into a string (`String(v)`). */
  datatype Var = Var(name: string, value: string)

  /** The text `{name}` that the variable `name` replaces. */
  function Placeholder(name: string): (p: string)
    ensures |p| == |name| + 2 && p[0] == '{'
  {
    "{" + name + "}"
  }

  /**
   * Every occurrence of `pat` in `s`, scanning from the left without
   * overlaps, replaced by `rep` taken literally.
   */
  function ReplaceAll(s: string, pat: string, rep: string): string
    requires pat != []
    decreases |s|
  {
    if |s| < |pat| then s
    else if pat <= s then rep + ReplaceAll(s[|pat|..], pat, rep)
    else [s[0]] + ReplaceAll(s[1..], pat, rep)
  }

  /** A text without `pat` is left as it is. */
  lemma {:induction false} ReplaceAllAbsent(s: string, pat: string, rep: string)
    requires pat != [] && !Includes(s, pat)
    ensures ReplaceAll(s, pat, rep) == s
    decreases |s|
  {
    if |s| >= |pat| {
      ReplaceAllAbsent(s[1..], pat, rep);
    }
  }

  /**
   * A placeholder-shaped pattern (one `{`, at its start) cannot straddle a
   * boundary of one of its own occurrences, so the text on either side of an
   * occurrence is replaced on its own.
   */
  lemma {:induction false} ReplaceAllAround(a: string, pat: string, b: string, rep: string)
    requires pat != [] && pat[0] == '{' && '{' !in pat[1..]
    ensures ReplaceAll(a + pat + b, pat, rep) == ReplaceAll(a, pat, rep) + rep + ReplaceAll(b, pat, rep)
    decreases |a|
  {
    var s := a + pat + b;
    if a == [] {
      assert s == pat + b && s[|pat|..] == b;
      ReplaceAllMatch(s, pat, rep);
    } else if pat <= a {
      ReplaceAllAround(a[|pat|..], pat, b, rep);
      AroundMatch(a, pat, b, rep);
    } else {
      if |a| < |pat| {
        NoStraddle(a, pat, b);
      } else {
        assert s[..|pat|] == a[..|pat|];
      }
      ReplaceAllAround(a[1..], pat, b, rep);
      AroundSkip(a, pat, b, rep);
    }
  }

  /** The step of `ReplaceAllAround` where `a` starts with an occurrence. */
  lemma AroundMatch(a: string, pat: string, b: string, rep: string)
    requires pat != [] && pat <= a
    requires ReplaceAll(a[|pat|..] + pat + b, pat, rep)
             == ReplaceAll(a[|pat|..], pat, rep) + rep + ReplaceAll(b, pat, rep)
    ensures ReplaceAll(a + pat + b, pat, rep) == ReplaceAll(a, pat, rep) + rep + ReplaceAll(b, pat, rep)
  {
    var s := a + pat + b;
    var ra, rb := ReplaceAll(a[|pat|..], pat, rep), ReplaceAll(b, pat, rep);
    calc {
      ReplaceAll(s, pat, rep);
      == { assert pat <= s by { assert s[..|pat|] == a[..|pat|]; } ReplaceAllMatch(s, pat, rep); }
      rep + ReplaceAll(s[|pat|..], pat, rep);
      == { assert s[|pat|..] == a[|pat|..] + pat + b; }
      rep + (ra + rep + rb);
      == { AppendAssoc3(rep, ra, rep, rb); }
      rep + ra + rep + rb;
      == { ReplaceAllMatch(a, pat, rep); }
      ReplaceAll(a, pat, rep) + rep + rb;
    }
  }

  /** The step of `ReplaceAllAround` where no occurrence starts at the first character. */
  lemma AroundSkip(a: string, pat: string, b: string, rep: string)
    requires pat != [] && a != [] && !(pat <= a + pat + b)
    requires ReplaceAll(a[1..] + pat + b, pat, rep)
             == ReplaceAll(a[1..], pat, rep) + rep + ReplaceAll(b, pat, rep)
    ensures ReplaceAll(a + pat + b, pat, rep) == ReplaceAll(a, pat, rep) + rep + ReplaceAll(b, pat, rep)
  {
    var s := a + pat + b;
    var ra, rb := ReplaceAll(a[1..], pat, rep), ReplaceAll(b, pat, rep);
    calc {
      ReplaceAll(s, pat, rep);
      == { ReplaceAllSkip(s, pat, rep); }
      [s[0]] + ReplaceAll(s[1..], pat, rep);
      == { assert s[0] == a[0] && s[1..] == a[1..] + pat + b; }
      [a[0]] + (ra + rep + rb);
      == { AppendAssoc3([a[0]], ra, rep, rb); }
      [a[0]] + ra + rep + rb;
      == { NotPrefixOfPart(pat, a, pat + b); ReplaceAllSkip(a, pat, rep); }
      ReplaceAll(a, pat, rep) + rep + rb;
    }
  }

  lemma AppendAssoc3(w: string, x: string, y: string, z: string)
    ensures w + (x + y + z) == w + x + y + z
  {
  }

  /** A pattern that does not start `a + c` does not start `a` either. */
  lemma NotPrefixOfPart(pat: string, a: string, c: string)
    requires !(pat <= a + c)
    ensures !(pat <= a)
  {
  }

  /** An occurrence at the start is replaced and the scan goes on after it. */
  lemma ReplaceAllMatch(s: string, pat: string, rep: string)
    requires pat != [] && pat <= s
    ensures ReplaceAll(s, pat, rep) == rep + ReplaceAll(s[|pat|..], pat, rep)
  {
  }

  /** Without an occurrence at the start the first character is kept. */
  lemma ReplaceAllSkip(s: string, pat: string, rep: string)
    requires pat != [] && s != [] && !(pat <= s)
    ensures ReplaceAll(s, pat, rep) == [s[0]] + ReplaceAll(s[1..], pat, rep)
  {
    if |s| < |pat| {
      assert [s[0]] + s[1..] == s;
    }
  }

  /** An occurrence of a placeholder-shaped pattern cannot start inside the text just before another one. */
  lemma NoStraddle(a: string, pat: string, b: string)
    requires pat != [] && pat[0] == '{' && '{' !in pat[1..]
    requires 0 < |a| < |pat|
    ensures !(pat <= a + pat + b)
  {
    var s := a + pat + b;
    assert s[|a|] == '{';
    assert pat[|a|] != '{' by {
      assert pat[|a|] == pat[1..][|a| - 1];
    }
  }

  /** A placeholder whose name holds no `{` has its only `{` at its start. */
  lemma PlaceholderShape(name: string)
    requires '{' !in name
    ensures var p := Placeholder(name); p[0] == '{' && '{' !in p[1..]
  {
    var p := Placeholder(name);
    assert p[1..] == name + "}";
  }

  /**
   * The placeholders filled one variable after the other, in the order of
   * `vars`; each replacement works on the text the previous ones left.
   */
  function Substitute(s: string, vars: seq<Var>): string
    decreases |vars|
  {
    if vars == [] then s
    else
      var v := vars[|vars| - 1];
      ReplaceAll(Substitute(s, vars[..|vars| - 1]), Placeholder(v.name), v.value)
  }

  /** `t(locale, key, vars)`: the entry of the locale's dictionary, or the key itself, with the variables filled in. */
  function Translate(locale: Option<string>, key: string, vars: seq<Var>): string {
    var d := Dict(SelectLocale(locale));
    Substitute(if key in d then d[key] else key, vars)
  }

  /** Without variables, the dictionary entry comes back as it is, and a missing key comes back itself. */
  lemma TranslateWithoutVars(locale: Option<string>, key: string)
    ensures var d := Dict(SelectLocale(locale));
      && (key in d ==> Translate(locale, key, []) == d[key])
      && (key !in d ==> Translate(locale, key, []) == key)
  {
  }

  /** Placeholders of names no variable has are left as they are: a text holding no variable's placeholder is unchanged. */
  lemma {:induction false} UnknownPlaceholdersKept(s: string, vars: seq<Var>)
    requires forall k :: 0 <= k < |vars| ==> !Includes(s, Placeholder(vars[k].name))
    ensures Substitute(s, vars) == s
    decreases |vars|
  {
    if vars != [] {
      var v := vars[|vars| - 1];
      UnknownPlaceholdersKept(s, vars[..|vars| - 1]);
      ReplaceAllAbsent(s, Placeholder(v.name), v.value);
    }
  }

  /**
   * A template with one occurrence of `{name}` gets the variable's value in
   * its place, verbatim, and nothing else changes.
   */
  lemma PlaceholderFilled(before: string, name: string, after: string, value: string)
    requires '{' !in name
    requires !Includes(before, Placeholder(name)) && !Includes(after, Placeholder(name))
    ensures Substitute(before + Placeholder(name) + after, [Var(name, value)]) == before + value + after
  {
    PlaceholderShape(name);
    assert [Var(name, value)][..0] == [];
    ReplaceAllAround(before, Placeholder(name), after, value);
    ReplaceAllAbsent(before, Placeholder(name), value);
    ReplaceAllAbsent(after, Placeholder(name), value);
  }

  /**
   * Variables act in order: a value that is itself a later variable's
   * placeholder is filled in by that later variable.
   */
  lemma LaterVariablesSeeEarlierValues(x: string, y: string, value: string)
    requires '{' !in x && '{' !in y
    ensures Substitute(Placeholder(x), [Var(x, Placeholder(y)), Var(y, value)]) == value
  {
    var vars := [Var(x, Placeholder(y)), Var(y, value)];
    var e: string := [];
    PlaceholderShape(x);
    PlaceholderShape(y);
    ReplaceAllAround(e, Placeholder(x), e, Placeholder(y));
    assert e + Placeholder(x) + e == Placeholder(x);
    ReplaceAllAround(e, Placeholder(y), e, value);
    assert e + Placeholder(y) + e == Placeholder(y);
    assert Substitute(Placeholder(x), vars[..1]) == Placeholder(y) by {
      assert vars[..1][..0] == [];
    }
  }

  // ---------------------------------------------------------------------------
  // String.prototype.replace with a string replacement, as the source calls it
  // ---------------------------------------------------------------------------

  /**
   * The replacement text for a match of length `len` at `pos` in `str`, as
   * ECMAScript's GetSubstitution builds it for a pattern without capture
   * groups: `$$` is `$`, `$&` the match, `` $` `` the text before it, `$'`
   * the text after it; any other `$` stays as written.
   */
  function Expand(rep: string, str: string, pos: nat, len: nat): string
    requires pos + len <= |str|
    decreases |rep|
  {
    if rep == [] then []
    else if rep[0] == '$' && |rep| >= 2 && rep[1] == '$' then "$" + Expand(rep[2..], str, pos, len)
    else if rep[0] == '$' && |rep| >= 2 && rep[1] == '&' then str[pos..pos + len] + Expand(rep[2..], str, pos, len)
    else if rep[0] == '$' && |rep| >= 2 && rep[1] == '`' then str[..pos] + Expand(rep[2..], str, pos, len)
    else if rep[0] == '$' && |rep| >= 2 && rep[1] == '\'' then str[pos + len..] + Expand(rep[2..], str, pos, len)
    else [rep[0]] + Expand(rep[1..], str, pos, len)
  }

  /** `str.replace(/pat/g, rep)` from index `i` of `str` on, as written: each match's replacement is expanded. */
  function ReplaceAllFrom(str: string, pat: string, rep: string, i: nat): string
    requires pat != [] && i <= |str|
    decreases |str| - i
  {
    if |str| - i < |pat| then str[i..]
    else if pat <= str[i..] then Expand(rep, str, i, |pat|) + ReplaceAllFrom(str, pat, rep, i + |pat|)
    else [str[i]] + ReplaceAllFrom(str, pat, rep, i + 1)
  }

  /** `str.replace(/pat/g, rep)` as the source calls it. */
  function ReplaceAllAsWritten(str: string, pat: string, rep: string): string
    requires pat != []
  {
    ReplaceAllFrom(str, pat, rep, 0)
  }

  /** A replacement without `$` is inserted verbatim. */
  lemma {:induction false} ExpandPlain(rep: string, str: string, pos: nat, len: nat)
    requires pos + len <= |str| && '$' !in rep
    ensures Expand(rep, str, pos, len) == rep
    decreases |rep|
  {
    if rep != [] {
      assert '$' !in rep[1..] by {
        forall c | c in rep[1..] ensures c in rep { }
      }
      ExpandPlain(rep[1..], str, pos, len);
    }
  }

  /** For values without `$` the source's replacement and the literal one agree. */
  lemma {:induction false} AsWrittenAgreesWithoutDollar(str: string, pat: string, rep: string, i: nat)
    requires pat != [] && i <= |str| && '$' !in rep
    ensures ReplaceAllFrom(str, pat, rep, i) == ReplaceAll(str[i..], pat, rep)
    decreases |str| - i
  {
    var s := str[i..];
    if |s| >= |pat| {
      if pat <= s {
        ExpandPlain(rep, str, i, |pat|);
        AsWrittenAgreesWithoutDollar(str, pat, rep, i + |pat|);
        assert s[|pat|..] == str[i + |pat|..];
      } else {
        AsWrittenAgreesWithoutDollar(str, pat, rep, i + 1);
        assert s[1..] == str[i + 1..];
      }
    }
  }

  /**
   * The value `$&` is not inserted: the source's replacement puts the
   * matched placeholder back, so `{term}` is shown instead of the keyword.
   */
  lemma DollarPatternExpanded()
    ensures ReplaceAllAsWritten("{term}", Placeholder("term"), "$&") == "{term}"
    ensures ReplaceAll("{term}", Placeholder("term"), "$&") == "$&"
  {
    var s := "{term}";
    assert Placeholder("term") == s;
    assert s[0..6] == s;
    assert Expand("$&", s, 0, 6) == s + Expand("", s, 0, 6);
    assert s[6..] == [];
  }

  /** The placeholders filled one variable after the other with the source's `replace`, `$` patterns expanded. */
  function SubstituteAsWritten(s: string, vars: seq<Var>): string
    decreases |vars|
  {
    if vars == [] then s
    else
      var v := vars[|vars| - 1];
      ReplaceAllAsWritten(SubstituteAsWritten(s, vars[..|vars| - 1]), Placeholder(v.name), v.value)
  }

  /** `t(locale, key, vars)` as the source computes it. */
  function TranslateAsWritten(locale: Option<string>, key: string, vars: seq<Var>): string {
    var d := Dict(SelectLocale(locale));
    SubstituteAsWritten(if key in d then d[key] else key, vars)
  }

  /** Values without `$` are filled in the same way by the source's `replace` and by the literal substitution. */
  lemma {:induction false} SubstituteAgreesWithoutDollar(s: string, vars: seq<Var>)
    requires forall k :: 0 <= k < |vars| ==> '$' !in vars[k].value
    ensures SubstituteAsWritten(s, vars) == Substitute(s, vars)
    decreases |vars|
  {
    if vars != [] {
      var v := vars[|vars| - 1];
      var init := vars[..|vars| - 1];
      SubstituteAgreesWithoutDollar(s, init);
      var t := Substitute(s, init);
      AsWrittenAgreesWithoutDollar(t, Placeholder(v.name), v.value, 0);
      assert t[0..] == t;
    }
  }

  /** `t` gives the corrected text whenever no variable's value holds a `$`. */
  lemma TranslateAgreesWithoutDollar(locale: Option<string>, key: string, vars: seq<Var>)
    requires forall k :: 0 <= k < |vars| ==> '$' !in vars[k].value
    ensures TranslateAsWritten(locale, key, vars) == Translate(locale, key, vars)
  {
    var d := Dict(SelectLocale(locale));
    SubstituteAgreesWithoutDollar(if key in d then d[key] else key, vars);
  }

  /** A text without `{` holds no placeholder. */
  lemma NoBraceNoPlaceholder(s: string, name: string)
    requires '{' !in s
    ensures !Includes(s, Placeholder(name))
  {
  }

  /**
   * With the source's `replace`, a one-placeholder template gets a value
   * without `$` in its place, verbatim; the value `$&` would put the
   * placeholder back instead (`DollarPatternExpanded`).
   */
  lemma PlaceholderFilledAsWritten(before: string, name: string, after: string, value: string)
    requires '{' !in before && '{' !in name && '{' !in after && '$' !in value
    ensures SubstituteAsWritten(before + Placeholder(name) + after, [Var(name, value)]) == before + value + after
  {
    NoBraceNoPlaceholder(before, name);
    NoBraceNoPlaceholder(after, name);
    PlaceholderFilled(before, name, after, value);
    SubstituteAgreesWithoutDollar(before + Placeholder(name) + after, [Var(name, value)]);
  }

  /** The English template of the reply to a new keyword subscription. */
  lemma EnKeywordTemplate()
    ensures EnDict["sub_added_keyword"] == "✅ Subscribed to keyword: “" + Placeholder("term") + "”"
  {
  }

  /** The reply to a new keyword subscription in English shows a keyword without `$` verbatim. */
  lemma KeywordReplyShowsTerm(term: string)
    requires '$' !in term
    ensures TranslateAsWritten(Some("en"), "sub_added_keyword", [Var("term", term)])
            == "✅ Subscribed to keyword: “" + term + "”"
  {
    EnKeywordTemplate();
    PlaceholderFilledAsWritten("✅ Subscribed to keyword: “", "term", "”", term);
  }

  /** `t(locale, key, vars)` (lines 110-119): the lookup, then one replacement per variable. */
  method T(locale: Option<string>, key: string, vars: seq<Var>) returns (value: string)
    ensures value == TranslateAsWritten(locale, key, vars)
  {
    var lang := if locale == Some("en") then En else Az;
    var d := Dict(lang);
    value := if key in d then d[key] else key;
    ghost var base := value;
    var i := 0;
    while i < |vars|
      invariant 0 <= i <= |vars|
      invariant value == SubstituteAsWritten(base, vars[..i])
    {
      assert vars[..i + 1][..i] == vars[..i];
      value := ReplaceAllAsWritten(value, Placeholder(vars[i].name), vars[i].value);
      i := i + 1;
    }
    assert vars[..i] == vars;
  }
}
