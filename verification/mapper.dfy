/**
 * Mapping of one item of the e-qanun search API to the raw act the ingestion
 * works on: category classification, framework URL and date normalisation.
 */
module Mapper {
  import opened Js

  /** One item of a search page; the string fields the API may leave null are optional. */
  datatype ApiItem = ApiItem(
    id: int,
    title: string,
    typeName: Option<string>,
    statusName: string,
    acceptDate: Option<string>,   // "14.08.2025"
    classCode: Option<string>)    // "2025-08-14"

  /** The raw act handed to the upsert. */
  datatype RawAct = RawAct(
    eqanunId: int,
    title: string,
    category: string,
    url: string,
    publishedDate: Option<string>,
    contentHash: Option<string>)

  const Categories: set<string> := {"LAW", "DECREE", "DECISION", "OTHER"}

  const FrameworkUrlPrefix: string := "https://e-qanun.az/framework/"

  /**
   * `normalizeCategory(typeName)`: classifies the lower-cased type name, with
   * "qanunu" tested first, then the two spellings of "fərman", then those of
   * "sərəncam".
   */
  function NormalizeCategory(typeName: string): (r: string)
    ensures r in Categories
    ensures var t := Lower(typeName);
      && (r == "LAW" <==> Includes(t, "qanunu"))
      && (r == "DECREE" <==> !Includes(t, "qanunu") && (Includes(t, "fərman") || Includes(t, "ferman")))
      && (r == "DECISION" <==> !Includes(t, "qanunu") && !Includes(t, "fərman") && !Includes(t, "ferman")
                               && (Includes(t, "sərəncam") || Includes(t, "serencam")))
  {
    var t := Lower(typeName);
    if Includes(t, "qanunu") then "LAW"
    else if Includes(t, "fərman") || Includes(t, "ferman") then "DECREE"
    else if Includes(t, "sərəncam") || Includes(t, "serencam") then "DECISION"
    else "OTHER"
  }

  /**
   * Only the lower-cased name matters, so upper- or lower-casing the input
   * changes nothing: upper-casing turns `ı` into `I`, and no keyword holds an
   * `i` or an `ı`.
   */
  lemma NormalizeCategoryIgnoresCase(typeName: string)
    ensures NormalizeCategory(Lower(typeName)) == NormalizeCategory(typeName)
    ensures NormalizeCategory(Upper(typeName)) == NormalizeCategory(typeName)
  {
    LowerIdempotent(typeName);
    LowerOfUpper(typeName);
    UndotKeepsCategory(Lower(typeName));
  }

  /** Dotting the dotless `ı` of a lower-cased name finds the same keywords in it. */
  lemma UndotKeepsCategory(t: string)
    ensures Includes(Undot(t), "qanunu") == Includes(t, "qanunu")
    ensures Includes(Undot(t), "fərman") == Includes(t, "fərman")
    ensures Includes(Undot(t), "ferman") == Includes(t, "ferman")
    ensures Includes(Undot(t), "sərəncam") == Includes(t, "sərəncam")
    ensures Includes(Undot(t), "serencam") == Includes(t, "serencam")
  {
    IncludesUndot(t, "qanunu");
    IncludesUndot(t, "fərman");
    IncludesUndot(t, "ferman");
    IncludesUndot(t, "sərəncam");
    IncludesUndot(t, "serencam");
  }

  /** An empty type name is OTHER. */
  lemma EmptyTypeNameIsOther()
    ensures NormalizeCategory("") == "OTHER"
  {
    var t := Lower("");
    assert t == "";
    assert !Includes(t, "qanunu") && !Includes(t, "fərman") && !Includes(t, "ferman");
    assert !Includes(t, "sərəncam") && !Includes(t, "serencam");
  }

  /** `acceptDate.split('.').reverse().join('-')`. */
  function ReverseDottedDate(acceptDate: string): string {
    Join(Reverse(Split(acceptDate, '.')), '-')
  }

  /** A `dd.mm.yyyy` date becomes `yyyy-mm-dd`. */
  lemma DottedDateBecomesIso(d: string, m: string, y: string)
    requires '.' !in d && '.' !in m && '.' !in y
    ensures ReverseDottedDate(d + "." + m + "." + y) == y + "-" + m + "-" + d
  {
    var parts := [d, m, y];
    assert Join(parts, '.') == d + "." + m + "." + y by {
      assert Join(parts[1..], '.') == m + "." + y;
    }
    SplitJoin(parts, '.');
    var rev := Reverse(parts);
    assert rev == [y, m, d];
    assert Join(rev[1..], '.') == m + "." + d;
    assert Join(rev, '-') == y + "-" + m + "-" + d by {
      assert Join(rev[1..], '-') == m + "-" + d by {
        assert rev[1..][1..] == [d];
      }
    }
  }

  /**
   * `apiItemToRawAct(item)`: keeps id and title, classifies the type name,
   * builds the framework URL and prefers a non-empty `classCode` over the
   * reversed `acceptDate` as publication date.
   */
  function ApiItemToRawAct(item: ApiItem): RawAct {
    var publishedDate :=
      if Truthy(item.classCode) then item.classCode
      else if Truthy(item.acceptDate) then Some(ReverseDottedDate(item.acceptDate.value))
      else None;
    RawAct(item.id, item.title, NormalizeCategory(OrEmpty(item.typeName)),
           FrameworkUrlPrefix + ShowInt(item.id), publishedDate, None)
  }

  /**
   * The raw act keeps the item's id and title, links to the act's framework
   * page, has a known category and no content hash, and takes its date from
   * a non-empty class code, else from the accept date, else has none.
   */
  lemma ApiItemToRawActFields(item: ApiItem)
    ensures var r := ApiItemToRawAct(item);
      && r.eqanunId == item.id && r.title == item.title
      && r.url == FrameworkUrlPrefix + ShowInt(item.id)
      && r.category in Categories
      && r.contentHash == None
      && (Truthy(item.classCode) ==> r.publishedDate == item.classCode)
      && (!Truthy(item.classCode) && !Truthy(item.acceptDate) ==> r.publishedDate == None)
  {
  }

  /** Without a class code, an accept date `dd.mm.yyyy` is published as `yyyy-mm-dd`. */
  lemma AcceptDateBecomesPublishedDate(item: ApiItem, d: string, m: string, y: string)
    requires !Truthy(item.classCode)
    requires item.acceptDate == Some(d + "." + m + "." + y)
    requires '.' !in d && '.' !in m && '.' !in y
    ensures ApiItemToRawAct(item).publishedDate == Some(y + "-" + m + "-" + d)
  {
    DottedDateBecomesIso(d, m, y);
  }

  /** The category is the classification of the type name, a missing one counting as empty. */
  lemma ApiItemCategory(item: ApiItem)
    ensures ApiItemToRawAct(item).category == NormalizeCategory(OrEmpty(item.typeName))
    ensures item.typeName.None? ==> ApiItemToRawAct(item).category == "OTHER"
  {
    EmptyTypeNameIsOther();
  }
}
