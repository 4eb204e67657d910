/**
 * The workbook parser: recognises the four report sheets by name, finds
 * each sheet's columns from its header row, turns every data row into a
 * record with a classified status, and rolls the sheets up into one
 * analysis with sorted month, market and content-owner lists.
 *
 * Decoding the XLSX container is not modelled: a workbook is its sheet
 * names in order, each with the rows `sheet_to_json(…, { header: 1 })`
 * yields.
 */
module ExcelParser {
  import opened Wrappers
  import opened Strings
  import opened Sequences
  import opened Sorting
  import opened Schema
  import opened StatusKeywords
  import opened Headers
  import opened Cells
  import opened MonthNormalization
  import opened RecordValues

  // ---------------------------------------------------------------------
  // Status classification

  /** normalizeStatus with an optional report type: USR matches exact words, the rest keywords. */
  function NormalizeStatus(status: string, abbreviation: Option<ReportType>): (c: StatusClass)
    ensures status == [] ==> c == Unknown
    ensures abbreviation == Some(USR) && status != [] ==>
      (c == Active <==> Trim(Lower(status)) in ["approved", "up"]) &&
      (c == Removed <==> Trim(Lower(status)) == "pending")
    ensures abbreviation != Some(USR) && status != [] ==> c == KeywordRule(Trim(Lower(status)))
  {
    if status == [] then Unknown
    else
      var lower := Trim(Lower(status));
      if abbreviation == Some(USR) then UsrWordClass(lower)
      else KeywordRule(lower)
  }

  /** The USR branch of normalizeStatus on the trimmed, lower-cased status: whole words only. */
  function UsrWordClass(lower: string): (c: StatusClass)
    ensures c == Active <==> lower in ["approved", "up"]
    ensures c == Removed <==> lower == "pending"
  {
    if lower == "approved" || lower == "up" then Active
    else if lower == "pending" then Removed
    else Unknown
  }

  /** The exact spellings of an approving search-engine verdict on a USR row. */
  predicate IsApprovedOrUp(s: string) {
    s == "Approved" || s == "approved" || s == "Up" || s == "up"
  }

  predicate IsPendingWord(s: string) {
    s == "Pending" || s == "pending"
  }

  /**
   * The USR rule over the Google, Bing and Yandex verdicts: active with the label
   * "Approved/Up" when any engine approves, removed with the label "Pending" when all
   * three are pending, otherwise unknown under the first verdict given (or `statusRaw`).
   */
  function UsrStatus(statusRaw: string, google: string, bing: string, yandex: string): (r: (string, StatusClass))
    ensures r.1 == Active <==> IsApprovedOrUp(google) || IsApprovedOrUp(bing) || IsApprovedOrUp(yandex)
    ensures r.1 == Active ==> r.0 == "Approved/Up"
    ensures r.1 == Removed <==> !(r.1 == Active) && IsPendingWord(google) && IsPendingWord(bing) && IsPendingWord(yandex)
    ensures r.1 == Removed ==> r.0 == "Pending"
    ensures r.1 == Unknown ==> r.0 in [google, bing, yandex, statusRaw]
    ensures r.1 == Unknown && google != [] ==> r.0 == google
    ensures r.1 == Unknown && google == [] && bing != [] ==> r.0 == bing
    ensures r.1 == Unknown && google == [] && bing == [] && yandex != [] ==> r.0 == yandex
    ensures r.1 == Unknown && google + bing + yandex == [] ==> r.0 == statusRaw
  {
    if IsApprovedOrUp(google) || IsApprovedOrUp(bing) || IsApprovedOrUp(yandex) then ("Approved/Up", Active)
    else if IsPendingWord(google) && IsPendingWord(bing) && IsPendingWord(yandex) then ("Pending", Removed)
    else if google != [] then (google, Unknown)
    else if bing != [] then (bing, Unknown)
    else if yandex != [] then (yandex, Unknown)
    else (statusRaw, Unknown)
  }

  // ---------------------------------------------------------------------
  // Columns

  datatype Columns = Columns(
    status: int, market: int, month: int, contentOwner: int, url: int,
    with: int, googleStatus: int, bingStatus: int, yandexStatus: int)

  const UsrUrlKeywords: seq<string> := ["linking url", "url", "link"]
  const AtsmUrlKeywords: seq<string> := ["video/posts urls", "video/posts url", "video/post urls", "video/post url", "url", "link"]
  const PssmUrlKeywords: seq<string> := ["listing/posts urls", "listing/posts url", "listing/post urls", "listing/post url", "url", "link"]
  const PsmpUrlKeywords: seq<string> := ["listing url", "listing/posts urls", "listing/posts url", "listing/post urls", "listing/post url", "url", "link"]
  const MonthKeywords: seq<string> := ["month", "date", "period", "time"]
  const WithKeywords: seq<string> := ["with", "associated", "linked"]

  /** The keywords that select a report type's status column. */
  function StatusKeywordsFor(t: ReportType): seq<string> {
    match t
    case USR => []
    case ATSM => ["up", "status", "url status"]
    case PSSM => ["url status"]
    case PSMP => ["url status (up/down)", "url status"]
  }

  function MarketKeywordsFor(t: ReportType): seq<string> {
    ["market scanned", "market"]
  }

  function OwnerKeywordsFor(t: ReportType): seq<string> {
    if t == USR then ["copyright owner", "content owner", "owner"] else ["content owner", "owner"]
  }

  function UrlKeywordsFor(t: ReportType): seq<string> {
    match t
    case USR => UsrUrlKeywords
    case ATSM => AtsmUrlKeywords
    case PSSM => PssmUrlKeywords
    case PSMP => PsmpUrlKeywords
  }

  /**
   * detectColumns for one of the four report types: each column is the first
   * header matching its keyword list; a USR sheet has no status column.
   */
  function DetectColumns(headers: seq<string>, t: ReportType): (c: Columns)
    ensures t == USR ==> c.status == -1
    ensures t != USR ==> IsFirstMatch(headers, StatusKeywordsFor(t), c.status)
    ensures IsFirstMatch(headers, MarketKeywordsFor(t), c.market)
    ensures IsFirstMatch(headers, MonthKeywords, c.month)
    ensures IsFirstMatch(headers, OwnerKeywordsFor(t), c.contentOwner)
    ensures IsFirstMatch(headers, UrlKeywordsFor(t), c.url)
    ensures IsFirstMatch(headers, WithKeywords, c.with)
    ensures IsFirstMatch(headers, ["url status google"], c.googleStatus)
    ensures IsFirstMatch(headers, ["url status bing"], c.bingStatus)
    ensures IsFirstMatch(headers, ["url status yandex"], c.yandexStatus)
  {
    Columns(
      if t == USR then -1 else FirstMatch(headers, StatusKeywordsFor(t)),
      FirstMatch(headers, MarketKeywordsFor(t)),
      FirstMatch(headers, MonthKeywords),
      FirstMatch(headers, OwnerKeywordsFor(t)),
      FirstMatch(headers, UrlKeywordsFor(t)),
      FirstMatch(headers, WithKeywords),
      FirstMatch(headers, ["url status google"]),
      FirstMatch(headers, ["url status bing"]),
      FirstMatch(headers, ["url status yandex"]))
  }

  /** The fallback detectColumns for a sheet of no known type (unreachable from processSheet). */
  function DetectFallbackColumns(headers: seq<string>): (c: Columns)
    ensures IsFirstMatch(headers, ["status", "state", "result"], c.status)
    ensures IsFirstMatch(headers, ["market", "country", "region", "location", "geo"], c.market)
    ensures IsFirstMatch(headers, MonthKeywords, c.month)
    ensures IsFirstMatch(headers, ["content owner", "owner", "content_owner", "contentowner", "rights holder", "rightsholder"], c.contentOwner)
    ensures IsFirstMatch(headers, ["url", "link", "address", "uri"], c.url)
    ensures IsFirstMatch(headers, WithKeywords, c.with)
    ensures IsFirstMatch(headers, ["url status google"], c.googleStatus)
    ensures IsFirstMatch(headers, ["url status bing"], c.bingStatus)
    ensures IsFirstMatch(headers, ["url status yandex"], c.yandexStatus)
  {
    Columns(
      FirstMatch(headers, ["status", "state", "result"]),
      FirstMatch(headers, ["market", "country", "region", "location", "geo"]),
      FirstMatch(headers, MonthKeywords),
      FirstMatch(headers, ["content owner", "owner", "content_owner", "contentowner", "rights holder", "rightsholder"]),
      FirstMatch(headers, ["url", "link", "address", "uri"]),
      FirstMatch(headers, WithKeywords),
      FirstMatch(headers, ["url status google"]),
      FirstMatch(headers, ["url status bing"]),
      FirstMatch(headers, ["url status yandex"]))
  }

  /** A USR sheet's URL column is the first header holding "url" or "link", whatever else it says. */
  lemma UsrUrlColumnIsAnyUrlHeader(headers: seq<string>)
    ensures DetectColumns(headers, USR).url == FirstMatch(headers, ["url", "link"])
  {
    forall h ensures HeaderMatches(h, UsrUrlKeywords) == HeaderMatches(h, ["url", "link"]) {
      LinkingUrlRedundant(Trim(Lower(h)));
    }
    var a := FirstMatch(headers, UsrUrlKeywords);
    var b := FirstMatch(headers, ["url", "link"]);
    FirstMatchUnique(headers, ["url", "link"], a, b);
  }

  lemma LinkingUrlRedundant(s: string)
    ensures IncludesAny(s, UsrUrlKeywords) == IncludesAny(s, ["url", "link"])
  {
    if Includes(s, "linking url") {
      IncludesInner(s, "linking url", 8, 11);
      assert "linking url"[8..11] == "url";
    }
  }

  // ---------------------------------------------------------------------
  // Sheet names

  /** getSheetAbbreviation: the report type a sheet name announces, if any; earlier tests win. */
  function GetSheetAbbreviation(sheetName: string): (r: Option<ReportType>)
    ensures r == Some(USR) <==> UsrName(Lower(Trim(sheetName)))
  {
    LoweredNameType(Lower(Trim(sheetName)))
  }

  /** The tests of getSheetAbbreviation, in order, on the trimmed and lower-cased name. */
  function LoweredNameType(lowerName: string): (r: Option<ReportType>)
    ensures r == Some(USR) <==> UsrName(lowerName)
  {
    if UsrName(lowerName) then Some(USR)
    else if AtsmName(lowerName) then Some(ATSM)
    else if PssmName(lowerName) then Some(PSSM)
    else if PsmpName(lowerName) then Some(PSMP)
    else if Includes(lowerName, "password") && Includes(lowerName, "social") then Some(PSSM)
    else if Includes(lowerName, "password") && Includes(lowerName, "market") then Some(PSMP)
    else None
  }

  /** The first test, which takes precedence over every other. */
  predicate UsrName(lowerName: string) {
    Includes(lowerName, "unauthorized search") || lowerName == "usr" || Includes(lowerName, "a.")
  }

  /** The ATSM markers: the full name's words, the abbreviation, or the code "b1". */
  predicate AtsmName(lowerName: string) {
    Includes(lowerName, "ads tutorial") || lowerName == "atsm" || Includes(lowerName, "b1")
  }

  /** The PSSM markers, with or without spaces around the dash, the abbreviation, or the code "c1". */
  predicate PssmName(lowerName: string) {
    Includes(lowerName, "password sharing-social") || Includes(lowerName, "password sharing - social")
    || lowerName == "pssm" || Includes(lowerName, "c1")
  }

  /** The PSMP markers, with or without spaces around the dash, the abbreviation, or the code "c2". */
  predicate PsmpName(lowerName: string) {
    Includes(lowerName, "password sharing-marketplace") || Includes(lowerName, "password sharing - marketplace")
    || lowerName == "psmp" || Includes(lowerName, "c2")
  }

  /**
   * The cascade of getSheetAbbreviation on any name: the marker tests in the order
   * USR, ATSM, PSSM, PSMP, each winning over the later ones; then, on a name with no
   * marker, "password" with "social" gives PSSM, "password" with "market" gives PSMP,
   * and anything else gives none.
   */
  lemma SheetNameCascade(name: string)
    ensures var l := Lower(Trim(name));
      && (UsrName(l) ==> GetSheetAbbreviation(name) == Some(USR))
      && (!UsrName(l) && AtsmName(l) ==> GetSheetAbbreviation(name) == Some(ATSM))
      && (!UsrName(l) && !AtsmName(l) && PssmName(l) ==> GetSheetAbbreviation(name) == Some(PSSM))
      && (!UsrName(l) && !AtsmName(l) && !PssmName(l) && PsmpName(l) ==> GetSheetAbbreviation(name) == Some(PSMP))
  {
  }

  /** The fallback tests, on a name that carries none of the markers. */
  lemma PasswordFallback(name: string)
    requires var l := Lower(Trim(name)); !UsrName(l) && !AtsmName(l) && !PssmName(l) && !PsmpName(l)
    ensures var l := Lower(Trim(name));
      && (Includes(l, "password") && Includes(l, "social") ==> GetSheetAbbreviation(name) == Some(PSSM))
      && (Includes(l, "password") && !Includes(l, "social") && Includes(l, "market") ==> GetSheetAbbreviation(name) == Some(PSMP))
      && (!(Includes(l, "password") && (Includes(l, "social") || Includes(l, "market"))) ==> GetSheetAbbreviation(name) == None)
  {
  }

  /** The report type depends on the trimmed, lower-cased name alone. */
  lemma AbbreviationOfNormalisedName(a: string, b: string)
    requires Lower(Trim(a)) == Lower(Trim(b))
    ensures GetSheetAbbreviation(a) == GetSheetAbbreviation(b)
  {
  }

  /** A name without "password" that passes none of the four marker tests announces no report type. */
  lemma UnmarkedNameIgnored(name: string)
    requires !UsrName(Lower(Trim(name))) && !Includes(Lower(Trim(name)), "password")
    requires !Includes(Lower(Trim(name)), "ads tutorial") && !Includes(Lower(Trim(name)), "b1")
    requires !Includes(Lower(Trim(name)), "c1") && !Includes(Lower(Trim(name)), "c2")
    requires Lower(Trim(name)) !in ["atsm", "pssm", "psmp"]
    ensures GetSheetAbbreviation(name) == None
  {
    UnmarkedLoweredName(Lower(Trim(name)));
  }

  lemma UnmarkedLoweredName(l: string)
    requires !UsrName(l) && !Includes(l, "password") && !Includes(l, "ads tutorial") && !Includes(l, "b1")
    requires !Includes(l, "c1") && !Includes(l, "c2") && l !in ["atsm", "pssm", "psmp"]
    ensures LoweredNameType(l) == None
  {
    PasswordPrefix(l, "password sharing-social");
    PasswordPrefix(l, "password sharing - social");
    PasswordPrefix(l, "password sharing-marketplace");
    PasswordPrefix(l, "password sharing - marketplace");
  }

  lemma PasswordPrefix(l: string, k: string)
    requires !Includes(l, "password") && |k| >= 8 && k[..8] == "password"
    ensures !Includes(l, k)
  {
    MissingSlice(l, k, 0, 8);
  }

  /** A sheet named by its abbreviation alone, in any letter case, is recognised as that report type. */
  lemma AbbreviationRecognised(name: string, t: ReportType)
    requires Lower(Trim(name)) == AbbreviationText(t)
    ensures GetSheetAbbreviation(name) == Some(t)
  {
    var s := Lower(Trim(name));
    if t != USR {
      ShortNameNotUsr(s);
    }
    if t == PSSM || t == PSMP {
      ShortNameNotAtsm(s);
    }
    if t == PSMP {
      ShortNameNotPssm(s);
    }
  }

  lemma ShortNameNotUsr(s: string)
    requires s in ["atsm", "pssm", "psmp"]
    ensures !UsrName(s)
  {
    MissingCharacter(s, "a.", 1);
    MissingCharacter(s, "unauthorized search", 1);
  }

  lemma ShortNameNotAtsm(s: string)
    requires s in ["pssm", "psmp"]
    ensures !(Includes(s, "ads tutorial") || s == "atsm" || Includes(s, "b1"))
  {
    MissingCharacter(s, "ads tutorial", 0);
    MissingCharacter(s, "b1", 0);
  }

  lemma ShortNameNotPssm(s: string)
    requires s == "psmp"
    ensures !(Includes(s, "password sharing-social") || Includes(s, "password sharing - social") || s == "pssm" || Includes(s, "c1"))
  {
    MissingCharacter(s, "password sharing-social", 1);
    MissingCharacter(s, "password sharing - social", 1);
    MissingCharacter(s, "c1", 0);
  }

  /** The abbreviation of a report type, lower-cased. */
  function AbbreviationText(t: ReportType): string {
    match t
    case USR => "usr"
    case ATSM => "atsm"
    case PSSM => "pssm"
    case PSMP => "psmp"
  }

  /** A sheet named with its full display name, in any letter case, is recognised as that report type. */
  lemma FullNameRecognised(name: string, t: ReportType)
    requires Lower(Trim(name)) == Lower(FullName(t))
    ensures GetSheetAbbreviation(name) == Some(t)
  {
    match t
    case USR => UsrFullNameRecognised(name);
    case ATSM => AtsmFullNameRecognised(name);
    case PSSM => PssmFullNameRecognised(name);
    case PSMP => PsmpFullNameRecognised(name);
  }

  lemma UsrFullNameRecognised(name: string)
    requires Lower(Trim(name)) == Lower(FullName(USR))
    ensures GetSheetAbbreviation(name) == Some(USR)
  {
    var s := Lower(Trim(name));
    UsrFullNameLowered(s);
    UsrFullNameTests(s);
  }

  lemma AtsmFullNameRecognised(name: string)
    requires Lower(Trim(name)) == Lower(FullName(ATSM))
    ensures GetSheetAbbreviation(name) == Some(ATSM)
  {
    var s := Lower(Trim(name));
    AtsmFullNameLowered(s);
    PlainFullNameNotUsr(s);
    AtsmFullNameTests(s);
  }

  lemma PssmFullNameRecognised(name: string)
    requires Lower(Trim(name)) == Lower(FullName(PSSM))
    ensures GetSheetAbbreviation(name) == Some(PSSM)
  {
    var s := Lower(Trim(name));
    PssmFullNameLowered(s);
    PssmFullNameNotUsr(s);
    PasswordFullNameNotAtsm(s);
    PssmFullNameTests(s);
  }

  lemma PsmpFullNameRecognised(name: string)
    requires Lower(Trim(name)) == Lower(FullName(PSMP))
    ensures GetSheetAbbreviation(name) == Some(PSMP)
  {
    var s := Lower(Trim(name));
    PsmpFullNameLowered(s);
    PlainFullNameNotUsr(s);
    PasswordFullNameNotAtsm(s);
    PsmpFullNameNotPssm(s);
    OccursIncludes(s, s, 0);
  }

  // The steps of FullNameRecognised, one fact about one name each.

  lemma UsrFullNameLowered(s: string)
    requires s == Lower(FullName(USR))
    ensures s == "unauthorized search result"
  {
    LowerPointwise(FullName(USR), "unauthorized search result");
  }

  lemma AtsmFullNameLowered(s: string)
    requires s == Lower(FullName(ATSM))
    ensures s == "ads tutorials- social media"
  {
    LowerPointwise(FullName(ATSM), "ads tutorials- social media");
  }

  lemma PssmFullNameLowered(s: string)
    requires s == Lower(FullName(PSSM))
    ensures s == "password sharing-social med."
  {
    LowerPointwise(FullName(PSSM), "password sharing-social med.");
  }

  lemma PsmpFullNameLowered(s: string)
    requires s == Lower(FullName(PSMP))
    ensures s == "password sharing-marketplace"
  {
    LowerPointwise(FullName(PSMP), "password sharing-marketplace");
  }

  lemma UsrFullNameTests(s: string)
    requires s == "unauthorized search result"
    ensures UsrName(s)
  {
    assert s[..19] == "unauthorized search";
    OccursIncludes(s, "unauthorized search", 0);
  }

  lemma AtsmFullNameTests(s: string)
    requires s == "ads tutorials- social media"
    ensures Includes(s, "ads tutorial")
  {
    assert s[..12] == "ads tutorial";
    OccursIncludes(s, "ads tutorial", 0);
  }

  /** The only '.' of the social-media name ends it, after a 'd'. */
  lemma PssmFullNameNotUsr(s: string)
    requires s == "password sharing-social med."
    ensures !UsrName(s)
  {
    assert 'z' !in s;
    assert s[..27] == "password sharing-social med";
    assert '.' !in s[..27];
    EndingDotNotUsr(s);
  }

  lemma PssmFullNameTests(s: string)
    requires s == "password sharing-social med."
    ensures Includes(s, "password sharing-social")
  {
    assert s[..23] == "password sharing-social";
    OccursIncludes(s, "password sharing-social", 0);
  }

  /** The ATSM and marketplace full names hold no 'z' and no '.', so they fail the USR test. */
  lemma PlainFullNameNotUsr(s: string)
    requires s == "ads tutorials- social media" || s == "password sharing-marketplace"
    ensures !UsrName(s)
  {
    assert 'z' !in s;
    assert '.' !in s;
    NoUsrMarker(s);
  }

  /** The two password-sharing full names hold no 'u' and no 'b', so they fail the ATSM test. */
  lemma PasswordFullNameNotAtsm(s: string)
    requires s == "password sharing-social med." || s == "password sharing-marketplace"
    ensures !AtsmName(s)
  {
    assert 'u' !in s;
    assert 'b' !in s;
    NoAtsmMarker(s);
  }

  /** A name without a 'z' or a '.' fails the USR test unless it is "usr" itself. */
  lemma NoUsrMarker(s: string)
    requires 'z' !in s && '.' !in s && s != "usr"
    ensures !UsrName(s)
  {
    MissingCharacter(s, "unauthorized search", 9);
    MissingCharacter(s, "a.", 1);
  }

  /** A name without a 'z' whose only '.' ends it, after a letter other than 'a', fails the USR test. */
  lemma EndingDotNotUsr(s: string)
    requires |s| >= 2 && 'z' !in s && '.' !in s[..|s| - 1] && s[|s| - 2] != 'a' && s != "usr"
    ensures !UsrName(s)
  {
    MissingCharacter(s, "unauthorized search", 9);
    PairAbsentAt(s, "a.", |s| - 1);
  }

  /** A name without a 'u' or a 'b' fails the ATSM test unless it is "atsm" itself. */
  lemma NoAtsmMarker(s: string)
    requires 'u' !in s && 'b' !in s && s != "atsm"
    ensures !AtsmName(s)
  {
    MissingCharacter(s, "ads tutorial", 5);
    MissingCharacter(s, "b1", 0);
  }

  /** The marketplace name's only dash is followed by 'm', so neither social spelling occurs in it. */
  lemma PsmpFullNameNotPssm(s: string)
    requires s == "password sharing-marketplace"
    ensures !PssmName(s)
  {
    MissingCharacter(s, "c1", 1);
    PsmpDash(s);
    assert "password sharing-social"[16..18] == "-s";
    MissingSlice(s, "password sharing-social", 16, 18);
    assert "password sharing - social"[17..19] == "- ";
    MissingSlice(s, "password sharing - social", 17, 19);
  }

  lemma PsmpDash(s: string)
    requires s == "password sharing-marketplace"
    ensures !Includes(s, "-s") && !Includes(s, "- ")
  {
    assert '-' !in s[..16] && '-' !in s[17..] && s[17] == 'm';
    PairAbsentFrom(s, "-s", 16);
    PairAbsentFrom(s, "- ", 16);
  }

  // ---------------------------------------------------------------------
  // Rows

  /** `String(h || "")` over the header row; a hole reads as "". */
  function HeaderTexts(row: Row): (r: seq<string>)
    ensures |r| == |row| && forall i :: 0 <= i < |row| ==> r[i] == CellText(row[i])
  {
    seq(|row|, i requires 0 <= i < |row| => CellText(row[i]))
  }

  /** The month cell handed to normalizeMonth: "" when the sheet has no month column. */
  function MonthCell(row: Row, idx: int): Cell {
    if idx >= 0 then CellAt(row, idx) else Str("")
  }

  /** A kept row: its record and the class its status was given when it was counted. */
  datatype Extracted = Extracted(record: Record, status: StatusClass)

  /**
   * One data row of a sheet of type `t`: None when it has neither a status nor a URL,
   * otherwise its record, labelled by the USR rule or classified by normalizeStatus.
   */
  function ExtractRow(row: Row, cols: Columns, t: ReportType, parseDate: string -> Option<int>): Option<Extracted> {
    var statusRaw := FieldText(row, cols.status);
    var url := FieldText(row, cols.url);
    var market := FieldText(row, cols.market);
    var month := NormalizeMonth(MonthCell(row, cols.month), parseDate);
    var owner := FieldText(row, cols.contentOwner);
    if statusRaw == [] && url == [] then None
    else
      var verdict :=
        if t == USR then
          UsrStatus(statusRaw, FieldText(row, cols.googleStatus), FieldText(row, cols.bingStatus), FieldText(row, cols.yandexStatus))
        else
          (statusRaw, NormalizeStatus(if statusRaw != [] then statusRaw else if url != [] then "" else "Unknown", Some(t)));
      Some(Extracted(Record(url, OrUnknown(verdict.0), OrUnknown(market), month, OrUnknown(owner)), verdict.1))
  }

  /** The rows after the header, blank ones and those without status or URL dropped, in order. */
  ghost function Extract(rows: seq<Row>, cols: Columns, t: ReportType, parseDate: string -> Option<int>): seq<Extracted> {
    if rows == [] then []
    else
      var kept := Extract(rows[..|rows| - 1], cols, t, parseDate);
      var row := rows[|rows| - 1];
      if !HasData(row) then kept
      else match ExtractRow(row, cols, t, parseDate)
        case None => kept
        case Some(e) => kept + [e]
  }

  function RecordsOf(es: seq<Extracted>): (r: seq<Record>)
    ensures |r| == |es| && forall i :: 0 <= i < |es| ==> r[i] == es[i].record
  {
    seq(|es|, i requires 0 <= i < |es| => es[i].record)
  }

  lemma RecordsStep(es: seq<Extracted>, e: Extracted)
    ensures RecordsOf(es + [e]) == RecordsOf(es) + [e.record]
  {
  }

  /** How many kept rows were given class `c`. */
  function CountOf(es: seq<Extracted>, c: StatusClass): nat {
    if es == [] then 0
    else CountOf(es[..|es| - 1], c) + (if es[|es| - 1].status == c then 1 else 0)
  }

  /** What processSheet returns: the sheet and its distinct months, markets and content owners. */
  datatype SheetResult = SheetResult(sheet: Sheet, months: seq<string>, markets: seq<string>, contentOwners: seq<string>)

  /** The result processSheet computes, as a function of the sheet's rows. */
  ghost function SheetOf(rows: seq<Row>, t: ReportType, parseDate: string -> Option<int>): SheetResult {
    if |rows| < 2 then SheetResult(EmptySheet(t), [], [], [])
    else SheetFrom(t, Extract(rows[1..], DetectColumns(HeaderTexts(rows[0]), t), t, parseDate))
  }

  /** The sheet, tallies and distinct values made from the kept rows. */
  function SheetFrom(t: ReportType, es: seq<Extracted>): SheetResult {
    var records := RecordsOf(es);
    SheetResult(
      Sheet(t, FullName(t), records, |records|, CountOf(es, Active), CountOf(es, Removed)),
      Collect(records, Month, ""),
      Collect(records, Market, "Unknown"),
      Collect(records, ContentOwner, "Unknown"))
  }

  /** Extending the rows by one extends what is kept by that row's record, if it is kept. */
  lemma ExtractStep(rows: seq<Row>, row: Row, cols: Columns, t: ReportType, parseDate: string -> Option<int>)
    ensures Extract(rows + [row], cols, t, parseDate) ==
      (if HasData(row) && ExtractRow(row, cols, t, parseDate).Some?
       then Extract(rows, cols, t, parseDate) + [ExtractRow(row, cols, t, parseDate).value]
       else Extract(rows, cols, t, parseDate))
  {
    assert (rows + [row])[..|rows|] == rows;
  }

  lemma CountStep(es: seq<Extracted>, e: Extracted, c: StatusClass)
    ensures CountOf(es + [e], c) == CountOf(es, c) + (if e.status == c then 1 else 0)
  {
    assert (es + [e])[..|es|] == es;
  }

  /**
   * The body of processSheet's loop for one row: whether the row is kept, and
   * if so its record and the class its status adds to the tallies.
   */
  method ReadRow(row: Row, columns: Columns, t: ReportType, parseDate: string -> Option<int>)
    returns (kept: bool, rec: Record, normalizedStatus: StatusClass)
    ensures kept <==> HasData(row) && ExtractRow(row, columns, t, parseDate).Some?
    ensures kept ==> ExtractRow(row, columns, t, parseDate) == Some(Extracted(rec, normalizedStatus))
  {
    rec := Record("", "", "", "", "");
    normalizedStatus := Unknown;
    if |row| == 0 {
      return false, rec, normalizedStatus;
    }
    var hasData := RowHasData(row);
    if !hasData {
      return false, rec, normalizedStatus;
    }
    var statusRaw := FieldText(row, columns.status);
    var urlRaw := FieldText(row, columns.url);
    var marketRaw := FieldText(row, columns.market);
    var month := NormalizeMonth(MonthCell(row, columns.month), parseDate);
    var contentOwnerRaw := FieldText(row, columns.contentOwner);
    if statusRaw == [] && urlRaw == [] {
      return false, rec, normalizedStatus;
    }
    if t == USR {
      var googleStatus := FieldText(row, columns.googleStatus);
      var bingStatus := FieldText(row, columns.bingStatus);
      var yandexStatus := FieldText(row, columns.yandexStatus);
      if IsApprovedOrUp(googleStatus) || IsApprovedOrUp(bingStatus) || IsApprovedOrUp(yandexStatus) {
        normalizedStatus := Active;
        statusRaw := "Approved/Up";
      } else if IsPendingWord(googleStatus) && IsPendingWord(bingStatus) && IsPendingWord(yandexStatus) {
        normalizedStatus := Removed;
        statusRaw := "Pending";
      } else if googleStatus != [] || bingStatus != [] || yandexStatus != [] {
        statusRaw := if googleStatus != [] then googleStatus else if bingStatus != [] then bingStatus else yandexStatus;
      }
    } else {
      normalizedStatus := NormalizeStatus(if statusRaw != [] then statusRaw else if urlRaw != [] then "" else "Unknown", Some(t));
    }
    rec := Record(urlRaw, OrUnknown(statusRaw), OrUnknown(marketRaw), month, OrUnknown(contentOwnerRaw));
    kept := true;
  }

  /** The three `Set.add` calls for a kept record: "" is no month, "Unknown" no market or owner. */
  method AddToSets(records: seq<Record>, rec: Record, months: seq<string>, markets: seq<string>, contentOwners: seq<string>)
    returns (months': seq<string>, markets': seq<string>, contentOwners': seq<string>)
    requires months == Collect(records, Month, "")
    requires markets == Collect(records, Market, "Unknown")
    requires contentOwners == Collect(records, ContentOwner, "Unknown")
    ensures months' == Collect(records + [rec], Month, "")
    ensures markets' == Collect(records + [rec], Market, "Unknown")
    ensures contentOwners' == Collect(records + [rec], ContentOwner, "Unknown")
  {
    CollectStep(records, rec, Month, "", months);
    CollectStep(records, rec, Market, "Unknown", markets);
    CollectStep(records, rec, ContentOwner, "Unknown", contentOwners);
    months', markets', contentOwners' := months, markets, contentOwners;
    if rec.month != [] {
      months' := AddDistinct(months', rec.month);
    }
    if rec.market != "Unknown" {
      markets' := AddDistinct(markets', rec.market);
    }
    if rec.contentOwner != "Unknown" {
      contentOwners' := AddDistinct(contentOwners', rec.contentOwner);
    }
  }

  /**
   * processSheet: one pass over the data rows, keeping running tallies and
   * insertion-ordered sets of the months, markets and owners seen.
   */
  method ProcessSheet(rows: seq<Row>, t: ReportType, parseDate: string -> Option<int>) returns (result: SheetResult)
    ensures result == SheetOf(rows, t, parseDate)
  {
    if |rows| < 2 {
      return SheetResult(EmptySheet(t), [], [], []);
    }
    var columns := DetectColumns(HeaderTexts(rows[0]), t);
    result := ProcessRows(rows, columns, t, parseDate);
  }

  /** One more row read: what is kept grows by the row's record exactly when ReadRow keeps it. */
  lemma ExtractNext(rows: seq<Row>, i: nat, cols: Columns, t: ReportType, parseDate: string -> Option<int>,
                    kept: seq<Extracted>, keep: bool, e: Extracted)
    requires 1 <= i < |rows|
    requires kept == Extract(rows[1..i], cols, t, parseDate)
    requires keep <==> HasData(rows[i]) && ExtractRow(rows[i], cols, t, parseDate).Some?
    requires keep ==> ExtractRow(rows[i], cols, t, parseDate) == Some(e)
    ensures Extract(rows[1..i + 1], cols, t, parseDate) == if keep then kept + [e] else kept
  {
    SliceStep(rows, 1, i);
    ExtractStep(rows[1..i], rows[i], cols, t, parseDate);
  }

  /** The body of processSheet's loop for a kept row: push the record, bump its count, add its labels. */
  method KeepRecord(ghost kept: seq<Extracted>, rec: Record, normalizedStatus: StatusClass,
                    records: seq<Record>, months: seq<string>, markets: seq<string>, contentOwners: seq<string>,
                    activeCount: nat, removedCount: nat)
    returns (records': seq<Record>, months': seq<string>, markets': seq<string>, contentOwners': seq<string>,
             activeCount': nat, removedCount': nat)
    requires records == RecordsOf(kept)
    requires activeCount == CountOf(kept, Active) && removedCount == CountOf(kept, Removed)
    requires months == Collect(records, Month, "")
    requires markets == Collect(records, Market, "Unknown")
    requires contentOwners == Collect(records, ContentOwner, "Unknown")
    ensures records' == RecordsOf(kept + [Extracted(rec, normalizedStatus)])
    ensures activeCount' == CountOf(kept + [Extracted(rec, normalizedStatus)], Active)
    ensures removedCount' == CountOf(kept + [Extracted(rec, normalizedStatus)], Removed)
    ensures months' == Collect(records', Month, "")
    ensures markets' == Collect(records', Market, "Unknown")
    ensures contentOwners' == Collect(records', ContentOwner, "Unknown")
  {
    activeCount', removedCount' := activeCount, removedCount;
    if normalizedStatus == Active {
      activeCount' := activeCount + 1;
    } else if normalizedStatus == Removed {
      removedCount' := removedCount + 1;
    }
    months', markets', contentOwners' := AddToSets(records, rec, months, markets, contentOwners);
    CountStep(kept, Extracted(rec, normalizedStatus), Active);
    CountStep(kept, Extracted(rec, normalizedStatus), Removed);
    RecordsStep(kept, Extracted(rec, normalizedStatus));
    records' := records + [rec];
  }

  /** The loop of processSheet over the data rows, once the columns are known. */
  method ProcessRows(rows: seq<Row>, columns: Columns, t: ReportType, parseDate: string -> Option<int>) returns (result: SheetResult)
    requires |rows| >= 1
    ensures result == SheetFrom(t, Extract(rows[1..], columns, t, parseDate))
  {
    var records: seq<Record> := [];
    var months: seq<string> := [];
    var markets: seq<string> := [];
    var contentOwners: seq<string> := [];
    var activeCount: nat := 0;
    var removedCount: nat := 0;
    ghost var kept: seq<Extracted> := [];
    var i := 1;
    while i < |rows|
      invariant 1 <= i <= |rows|
      invariant kept == Extract(rows[1..i], columns, t, parseDate)
      invariant records == RecordsOf(kept)
      invariant activeCount == CountOf(kept, Active) && removedCount == CountOf(kept, Removed)
      invariant months == Collect(records, Month, "")
      invariant markets == Collect(records, Market, "Unknown")
      invariant contentOwners == Collect(records, ContentOwner, "Unknown")
    {
      var keep, rec, normalizedStatus := ReadRow(rows[i], columns, t, parseDate);
      ExtractNext(rows, i, columns, t, parseDate, kept, keep, Extracted(rec, normalizedStatus));
      i := i + 1;
      if !keep {
        continue;
      }
      records, months, markets, contentOwners, activeCount, removedCount :=
        KeepRecord(kept, rec, normalizedStatus, records, months, markets, contentOwners, activeCount, removedCount);
      kept := kept + [Extracted(rec, normalizedStatus)];
    }
    assert rows[1..i] == rows[1..];
    result := SheetResult(
      Sheet(t, FullName(t), records, |records|, activeCount, removedCount),
      months, markets, contentOwners);
    assert result == SheetFrom(t, kept);
  }

  // ---------------------------------------------------------------------
  // What processSheet guarantees

  /**
   * What every kept row satisfies on a sheet of type `t`: a status, market and owner
   * label; on USR a URL, and the labels the three-engine rule gives; elsewhere a class
   * that the keyword rule would give the record's own status label.
   */
  ghost predicate KeptRow(e: Extracted, t: ReportType) {
    && e.record.status != [] && e.record.market != [] && e.record.contentOwner != []
    && (t == USR ==>
          && e.record.url != []
          && (e.status == Active ==> e.record.status == "Approved/Up")
          && (e.status == Removed ==> e.record.status == "Pending"))
    && (t != USR ==> e.status == KeywordRule(Trim(Lower(e.record.status))))
  }

  /** "Unknown", the label of a row without a status, is unknown under the keyword rule. */
  lemma UnknownPlaceholderIsUnknown(s: string)
    requires s == "Unknown"
    ensures KeywordRule(Trim(Lower(s))) == Unknown
  {
    LowerPointwise(s, "unknown");
    var u := "unknown";
    NoEdgeWhitespace(u);
    UnknownLabelIsUnknown();
  }

  lemma ExtractRowKept(row: Row, cols: Columns, t: ReportType, parseDate: string -> Option<int>)
    requires t == USR ==> cols.status == -1
    requires ExtractRow(row, cols, t, parseDate).Some?
    ensures KeptRow(ExtractRow(row, cols, t, parseDate).value, t)
  {
    var statusRaw := FieldText(row, cols.status);
    if t != USR && statusRaw == [] {
      UnknownPlaceholderIsUnknown("Unknown");
    }
  }

  lemma {:induction false} ExtractKept(rows: seq<Row>, cols: Columns, t: ReportType, parseDate: string -> Option<int>)
    requires t == USR ==> cols.status == -1
    ensures forall i :: 0 <= i < |Extract(rows, cols, t, parseDate)| ==> KeptRow(Extract(rows, cols, t, parseDate)[i], t)
  {
    if rows != [] {
      var init, row := rows[..|rows| - 1], rows[|rows| - 1];
      ExtractKept(init, cols, t, parseDate);
      assert rows == init + [row];
      ExtractStep(init, row, cols, t, parseDate);
      var e := ExtractRow(row, cols, t, parseDate);
      if HasData(row) && e.Some? {
        ExtractRowKept(row, cols, t, parseDate);
        KeptAppend(Extract(init, cols, t, parseDate), e.value, t);
      }
    }
  }

  lemma KeptAppend(es: seq<Extracted>, e: Extracted, t: ReportType)
    requires forall i :: 0 <= i < |es| ==> KeptRow(es[i], t)
    requires KeptRow(e, t)
    ensures forall i :: 0 <= i < |es + [e]| ==> KeptRow((es + [e])[i], t)
  {
  }

  lemma {:induction false} CountsBounded(es: seq<Extracted>)
    ensures CountOf(es, Active) + CountOf(es, Removed) <= |es|
  {
    if es != [] {
      CountsBounded(es[..|es| - 1]);
    }
  }

  /**
   * processSheet's result: an all-zero sheet when there is no data row; otherwise
   * as many URLs as records, at most that many counted active or removed, every
   * record labelled, and duplicate-free value sets without "" or "Unknown".
   */
  lemma SheetInvariants(rows: seq<Row>, t: ReportType, parseDate: string -> Option<int>)
    ensures var r := SheetOf(rows, t, parseDate);
      && (|rows| < 2 ==> r == SheetResult(EmptySheet(t), [], [], []))
      && r.sheet.abbreviation == t && r.sheet.fullName == FullName(t)
      && r.sheet.totalUrls == |r.sheet.records|
      && r.sheet.activeCount + r.sheet.removedCount <= r.sheet.totalUrls
      && (forall i :: 0 <= i < |r.sheet.records| ==>
            r.sheet.records[i].status != [] && r.sheet.records[i].market != [] && r.sheet.records[i].contentOwner != [])
      && Distinct(r.months) && Distinct(r.markets) && Distinct(r.contentOwners)
      && "" !in r.months && "Unknown" !in r.markets && "Unknown" !in r.contentOwners
      && (forall x :: x in r.months <==> x != "" && HasValue(r.sheet.records, Month, x))
      && (forall x :: x in r.markets <==> x != "Unknown" && HasValue(r.sheet.records, Market, x))
      && (forall x :: x in r.contentOwners <==> x != "Unknown" && HasValue(r.sheet.records, ContentOwner, x))
  {
    if |rows| >= 2 {
      var cols := DetectColumns(HeaderTexts(rows[0]), t);
      var es := Extract(rows[1..], cols, t, parseDate);
      ExtractKept(rows[1..], cols, t, parseDate);
      SheetFromInvariants(t, es);
    }
  }

  /** The sheet made from kept rows: its tallies, its labelled records and its value sets. */
  lemma SheetFromInvariants(t: ReportType, es: seq<Extracted>)
    requires forall i :: 0 <= i < |es| ==> KeptRow(es[i], t)
    ensures var r := SheetFrom(t, es);
      && r.sheet.abbreviation == t && r.sheet.fullName == FullName(t)
      && r.sheet.totalUrls == |r.sheet.records|
      && r.sheet.activeCount + r.sheet.removedCount <= r.sheet.totalUrls
      && (forall i :: 0 <= i < |r.sheet.records| ==>
            r.sheet.records[i].status != [] && r.sheet.records[i].market != [] && r.sheet.records[i].contentOwner != [])
  {
    CountsBounded(es);
    var records := RecordsOf(es);
    forall i | 0 <= i < |records| ensures records[i].status != [] && records[i].market != [] && records[i].contentOwner != [] {
      assert KeptRow(es[i], t);
    }
  }

  /**
   * On a USR sheet every record has a URL (a row without one is skipped, as the
   * sheet has no status column), an active row is labelled "Approved/Up" and a
   * removed one "Pending".
   */
  lemma UsrRecords(rows: seq<Row>, parseDate: string -> Option<int>)
    ensures var es := if |rows| < 2 then [] else Extract(rows[1..], DetectColumns(HeaderTexts(rows[0]), USR), USR, parseDate);
      && SheetOf(rows, USR, parseDate).sheet.records == RecordsOf(es)
      && forall i :: 0 <= i < |es| ==>
           && es[i].record.url != []
           && (es[i].status == Active ==> es[i].record.status == "Approved/Up")
           && (es[i].status == Removed ==> es[i].record.status == "Pending")
  {
    if |rows| >= 2 {
      ExtractKept(rows[1..], DetectColumns(HeaderTexts(rows[0]), USR), USR, parseDate);
    }
  }

  /**
   * On any other sheet the class each kept row was counted under is the one the
   * keyword rule gives its recorded status label (a missing status is labelled
   * "Unknown", which the rule leaves unknown).
   */
  lemma NonUsrClassFollowsLabel(rows: seq<Row>, t: ReportType, parseDate: string -> Option<int>)
    requires t != USR
    ensures var es := if |rows| < 2 then [] else Extract(rows[1..], DetectColumns(HeaderTexts(rows[0]), t), t, parseDate);
      && SheetOf(rows, t, parseDate).sheet.records == RecordsOf(es)
      && SheetOf(rows, t, parseDate).sheet.activeCount == CountOf(es, Active)
      && SheetOf(rows, t, parseDate).sheet.removedCount == CountOf(es, Removed)
      && forall i :: 0 <= i < |es| ==> es[i].status == KeywordRule(Trim(Lower(es[i].record.status)))
  {
    if |rows| >= 2 {
      ExtractKept(rows[1..], DetectColumns(HeaderTexts(rows[0]), t), t, parseDate);
    }
  }

  /**
   * The report type reaches normalizeStatus only for sheets other than USR, where
   * it changes nothing: the USR branch of normalizeStatus never runs.
   */
  lemma UsrBranchUnused(status: string, t: ReportType)
    requires t != USR
    ensures NormalizeStatus(status, Some(t)) == NormalizeStatus(status, None)
  {
  }

  // ---------------------------------------------------------------------
  // The workbook

  /** A workbook after decoding: its sheets' names in workbook order, each with its rows. */
  type Workbook = seq<(string, seq<Row>)>

  predicate Announces(workbook: Workbook, j: int, t: ReportType) {
    0 <= j < |workbook| && GetSheetAbbreviation(workbook[j].0) == Some(t)
  }

  /** The position of the first element from `start` on that satisfies `p`. */
  function FirstWhere<T>(s: seq<T>, p: T -> bool, start: nat): (r: Option<nat>)
    requires start <= |s|
    ensures r.Some? ==> start <= r.value < |s| && p(s[r.value])
    ensures r.Some? ==> forall j :: start <= j < r.value ==> !p(s[j])
    ensures r.None? ==> forall j :: start <= j < |s| ==> !p(s[j])
    decreases |s| - start
  {
    if start == |s| then None
    else if p(s[start]) then Some(start)
    else FirstWhere(s, p, start + 1)
  }

  /** The sheet parseExcelFile reads for `t`: the first that announces it; later ones are ignored. */
  function FirstSheetOf(workbook: Workbook, t: ReportType): (r: Option<nat>)
    ensures r.Some? ==> Announces(workbook, r.value, t) && forall j :: 0 <= j < r.value ==> !Announces(workbook, j, t)
    ensures r.None? ==> forall j :: 0 <= j < |workbook| ==> !Announces(workbook, j, t)
  {
    FirstWhere(workbook, (sheet: (string, seq<Row>)) => GetSheetAbbreviation(sheet.0) == Some(t), 0)
  }

  /** processSheet's result for the sheet of type `t`, or a zero placeholder when there is none. */
  ghost function SheetFor(workbook: Workbook, t: ReportType, parseDate: string -> Option<int>): SheetResult {
    match FirstSheetOf(workbook, t)
    case None => SheetResult(EmptySheet(t), [], [], [])
    case Some(k) => SheetOf(workbook[k].1, t, parseDate)
  }

  /** `values.forEach(v => set.add(v))` on an insertion-ordered set. */
  method AddAll(acc: seq<string>, values: seq<string>) returns (r: seq<string>)
    requires Distinct(acc)
    ensures Distinct(r)
    ensures forall x :: x in r <==> x in acc || x in values
  {
    r := acc;
    for i := 0 to |values|
      invariant Distinct(r)
      invariant forall x :: x in r <==> x in acc || x in values[..i]
    {
      assert values[..i + 1] == values[..i] + [values[i]];
      r := AddDistinct(r, values[i]);
    }
    assert values[..|values|] == values;
  }

  /** `sheets.find(s => s.abbreviation === t)?.totalUrls || 0`. */
  function TotalUrlsOfType(sheets: seq<Sheet>, t: ReportType): nat {
    if sheets == [] then 0
    else if sheets[0].abbreviation == t then sheets[0].totalUrls
    else TotalUrlsOfType(sheets[1..], t)
  }

  /** A sum over the sheets (`sheets.reduce((sum, s) => sum + f(s), 0)`). */
  function SumOver(sheets: seq<Sheet>, f: Sheet -> nat): nat {
    if sheets == [] then 0 else f(sheets[0]) + SumOver(sheets[1..], f)
  }

  /**
   * What the loop over the workbook's sheets has gathered once it has looked at the
   * first `k` sheets, where `outcome(t)` is what processSheet makes of the sheet for `t`.
   */
  ghost predicate SelectedAfter(workbook: Workbook, outcome: ReportType -> SheetResult, k: int,
    targetSheets: map<ReportType, Sheet>, allMonths: seq<string>, allMarkets: seq<string>, allContentOwners: seq<string>)
  {
    && (forall t :: t in targetSheets <==> SeenBefore(workbook, t, k))
    && SheetsExpected(outcome, targetSheets)
    && ValuesGathered(outcome, targetSheets, allMonths, allMarkets, allContentOwners)
  }

  /** Each recorded sheet is the one processSheet makes for its type. */
  ghost predicate SheetsExpected(outcome: ReportType -> SheetResult, targetSheets: map<ReportType, Sheet>) {
    forall t :: t in targetSheets ==> targetSheets[t] == outcome(t).sheet
  }

  /** The distinct months, markets and owners of the sheets processed so far. */
  ghost predicate ValuesGathered<V>(outcome: ReportType -> SheetResult, targetSheets: map<ReportType, V>,
    allMonths: seq<string>, allMarkets: seq<string>, allContentOwners: seq<string>)
  {
    && Distinct(allMonths) && Distinct(allMarkets) && Distinct(allContentOwners)
    && Gathered(allMonths, targetSheets, t => outcome(t).months)
    && Gathered(allMarkets, targetSheets, t => outcome(t).markets)
    && Gathered(allContentOwners, targetSheets, t => outcome(t).contentOwners)
  }

  /** One pass of the loop: sheet `k` is processed when its name announces a type not yet seen. */
  method SelectSheet(workbook: Workbook, parseDate: string -> Option<int>, ghost outcome: ReportType -> SheetResult, k: int,
    targetSheets: map<ReportType, Sheet>, allMonths: seq<string>, allMarkets: seq<string>, allContentOwners: seq<string>)
    returns (targetSheets': map<ReportType, Sheet>, allMonths': seq<string>, allMarkets': seq<string>, allContentOwners': seq<string>)
    requires 0 <= k < |workbook|
    requires forall t :: outcome(t) == SheetFor(workbook, t, parseDate)
    requires SelectedAfter(workbook, outcome, k, targetSheets, allMonths, allMarkets, allContentOwners)
    ensures SelectedAfter(workbook, outcome, k + 1, targetSheets', allMonths', allMarkets', allContentOwners')
  {
    targetSheets', allMonths', allMarkets', allContentOwners' := targetSheets, allMonths, allMarkets, allContentOwners;
    var abbreviation := GetSheetAbbreviation(workbook[k].0);
    if abbreviation.None? || abbreviation.value in targetSheets {
      SkippedSheet(workbook, outcome, k, targetSheets, allMonths, allMarkets, allContentOwners);
      return;
    }
    var t := abbreviation.value;
    var result := ProcessSheet(workbook[k].1, t, parseDate);
    FirstAnnouncement(workbook, k, t, targetSheets);
    FirstSheetResult(workbook, parseDate, k, t, result);
    targetSheets' := targetSheets[t := result.sheet];
    allMonths' := AddAll(allMonths, result.months);
    allMarkets' := AddAll(allMarkets, result.markets);
    allContentOwners' := AddAll(allContentOwners, result.contentOwners);
    SelectedSheet(workbook, outcome, k, t, targetSheets, allMonths, allMarkets, allContentOwners,
      result, allMonths', allMarkets', allContentOwners');
  }

  /** A sheet whose name announces no type, or one already seen, changes nothing. */
  lemma SkippedSheet(workbook: Workbook, outcome: ReportType -> SheetResult, k: int,
    targetSheets: map<ReportType, Sheet>, allMonths: seq<string>, allMarkets: seq<string>, allContentOwners: seq<string>)
    requires 0 <= k < |workbook|
    requires SelectedAfter(workbook, outcome, k, targetSheets, allMonths, allMarkets, allContentOwners)
    requires GetSheetAbbreviation(workbook[k].0).None? || GetSheetAbbreviation(workbook[k].0).value in targetSheets
    ensures SelectedAfter(workbook, outcome, k + 1, targetSheets, allMonths, allMarkets, allContentOwners)
  {
    SeenStep(workbook, k);
  }

  /** The first sheet announcing `t` adds its processed sheet and its months, markets and owners. */
  lemma SelectedSheet(workbook: Workbook, outcome: ReportType -> SheetResult, k: int, t: ReportType,
    targetSheets: map<ReportType, Sheet>, allMonths: seq<string>, allMarkets: seq<string>, allContentOwners: seq<string>,
    result: SheetResult, allMonths': seq<string>, allMarkets': seq<string>, allContentOwners': seq<string>)
    requires 0 <= k < |workbook|
    requires SelectedAfter(workbook, outcome, k, targetSheets, allMonths, allMarkets, allContentOwners)
    requires GetSheetAbbreviation(workbook[k].0) == Some(t) && result == outcome(t)
    requires Distinct(allMonths') && forall x :: x in allMonths' <==> x in allMonths || x in result.months
    requires Distinct(allMarkets') && forall x :: x in allMarkets' <==> x in allMarkets || x in result.markets
    requires Distinct(allContentOwners') && forall x :: x in allContentOwners' <==> x in allContentOwners || x in result.contentOwners
    ensures SelectedAfter(workbook, outcome, k + 1, targetSheets[t := result.sheet], allMonths', allMarkets', allContentOwners')
  {
    SeenAdded(workbook, k, t, targetSheets, result.sheet, k + 1);
    SheetAdded(outcome, t, targetSheets, result);
    ValuesAdded(outcome, t, targetSheets, allMonths, allMarkets, allContentOwners,
      result, allMonths', allMarkets', allContentOwners');
  }

  lemma FirstSheetResult(workbook: Workbook, parseDate: string -> Option<int>, k: int, t: ReportType, result: SheetResult)
    requires 0 <= k < |workbook| && FirstSheetOf(workbook, t) == Some(k)
    requires result == SheetOf(workbook[k].1, t, parseDate)
    ensures result == SheetFor(workbook, t, parseDate)
  {
  }

  lemma SheetAdded(outcome: ReportType -> SheetResult, t: ReportType, targetSheets: map<ReportType, Sheet>, result: SheetResult)
    requires SheetsExpected(outcome, targetSheets) && result == outcome(t)
    ensures SheetsExpected(outcome, targetSheets[t := result.sheet])
  {
    var targetSheets' := targetSheets[t := result.sheet];
    forall u | u in targetSheets' ensures targetSheets'[u] == outcome(u).sheet {
      if u != t {
        assert targetSheets'[u] == targetSheets[u];
      }
    }
  }

  lemma ValuesAdded(outcome: ReportType -> SheetResult, t: ReportType,
    targetSheets: map<ReportType, Sheet>, allMonths: seq<string>, allMarkets: seq<string>, allContentOwners: seq<string>,
    result: SheetResult, allMonths': seq<string>, allMarkets': seq<string>, allContentOwners': seq<string>)
    requires ValuesGathered(outcome, targetSheets, allMonths, allMarkets, allContentOwners)
    requires result == outcome(t)
    requires Distinct(allMonths') && forall x :: x in allMonths' <==> x in allMonths || x in result.months
    requires Distinct(allMarkets') && forall x :: x in allMarkets' <==> x in allMarkets || x in result.markets
    requires Distinct(allContentOwners') && forall x :: x in allContentOwners' <==> x in allContentOwners || x in result.contentOwners
    ensures ValuesGathered(outcome, targetSheets[t := result.sheet], allMonths', allMarkets', allContentOwners')
  {
    GatheredStep(targetSheets, t, result.sheet, allMonths, allMonths', u => outcome(u).months);
    GatheredStep(targetSheets, t, result.sheet, allMarkets, allMarkets', u => outcome(u).markets);
    GatheredStep(targetSheets, t, result.sheet, allContentOwners, allContentOwners', u => outcome(u).contentOwners);
  }

  /** A type not seen before that sheet `k` announces is first announced there. */
  lemma FirstAnnouncement<V>(workbook: Workbook, k: int, t: ReportType, targetSheets: map<ReportType, V>)
    requires 0 <= k < |workbook|
    requires forall u :: u in targetSheets <==> SeenBefore(workbook, u, k)
    requires GetSheetAbbreviation(workbook[k].0) == Some(t) && t !in targetSheets
    ensures FirstSheetOf(workbook, t) == Some(k)
  {
    SeenStep(workbook, k);
  }

  /** Recording the type sheet `k` announces keeps the recorded types those seen so far. */
  lemma SeenAdded<V>(workbook: Workbook, k: int, t: ReportType, targetSheets: map<ReportType, V>, v: V, next: int)
    requires 0 <= k < |workbook| && next == k + 1
    requires forall u :: u in targetSheets <==> SeenBefore(workbook, u, k)
    requires GetSheetAbbreviation(workbook[k].0) == Some(t)
    ensures forall u :: u in targetSheets[t := v] <==> SeenBefore(workbook, u, next)
  {
    SeenStep(workbook, k);
  }

  /** `all` holds exactly the values of the types in `targetSheets`. */
  ghost predicate Gathered<V>(all: seq<string>, targetSheets: map<ReportType, V>, values: ReportType -> seq<string>) {
    forall x :: x in all <==> exists u :: u in targetSheets && x in values(u)
  }

  /** Adding the values of one more type to a gathered set keeps it the union over the types seen. */
  lemma GatheredStep<V>(targetSheets: map<ReportType, V>, t: ReportType, v: V, all: seq<string>, all': seq<string>,
    values: ReportType -> seq<string>)
    requires Gathered(all, targetSheets, values)
    requires forall x :: x in all' <==> x in all || x in values(t)
    ensures Gathered(all', targetSheets[t := v], values)
  {
    forall x ensures x in all' <==> exists u :: u in targetSheets[t := v] && x in values(u) {
      if x in all {
        var u :| u in targetSheets && x in values(u);
        assert u in targetSheets[t := v];
      }
    }
  }

  /**
   * The loop over the workbook's sheets: the first sheet of each report type is
   * processed, and the distinct months, markets and owners of those sheets gathered.
   */
  method SelectSheets(workbook: Workbook, parseDate: string -> Option<int>)
    returns (targetSheets: map<ReportType, Sheet>, allMonths: seq<string>, allMarkets: seq<string>, allContentOwners: seq<string>)
    ensures forall t :: t in targetSheets <==> FirstSheetOf(workbook, t).Some?
    ensures forall t :: t in targetSheets ==> targetSheets[t] == SheetFor(workbook, t, parseDate).sheet
    ensures Distinct(allMonths) && Distinct(allMarkets) && Distinct(allContentOwners)
    ensures forall x :: x in allMonths <==> exists t :: t in targetSheets && x in SheetFor(workbook, t, parseDate).months
    ensures forall x :: x in allMarkets <==> exists t :: t in targetSheets && x in SheetFor(workbook, t, parseDate).markets
    ensures forall x :: x in allContentOwners <==> exists t :: t in targetSheets && x in SheetFor(workbook, t, parseDate).contentOwners
  {
    ghost var outcome := t => SheetFor(workbook, t, parseDate);
    targetSheets := map[];
    allMonths, allMarkets, allContentOwners := [], [], [];
    for k := 0 to |workbook|
      invariant SelectedAfter(workbook, outcome, k, targetSheets, allMonths, allMarkets, allContentOwners)
    {
      targetSheets, allMonths, allMarkets, allContentOwners :=
        SelectSheet(workbook, parseDate, outcome, k, targetSheets, allMonths, allMarkets, allContentOwners);
    }
  }

  /** The push loop: the four sheets in canonical order, a zero placeholder for each type not found. */
  method OrderSheets(targetSheets: map<ReportType, Sheet>, ghost workbook: Workbook, ghost parseDate: string -> Option<int>)
    returns (sheets: seq<Sheet>)
    requires forall t :: t in targetSheets <==> FirstSheetOf(workbook, t).Some?
    requires forall t :: t in targetSheets ==> targetSheets[t] == SheetFor(workbook, t, parseDate).sheet
    ensures |sheets| == 4
    ensures forall k :: 0 <= k < 4 ==> sheets[k] == SheetFor(workbook, SheetOrder[k], parseDate).sheet
  {
    sheets := [];
    for j := 0 to 4
      invariant |sheets| == j
      invariant forall k :: 0 <= k < j ==> sheets[k] == SheetFor(workbook, SheetOrder[k], parseDate).sheet
    {
      var abbr := SheetOrder[j];
      SheetInOrder(targetSheets, workbook, parseDate, abbr);
      if abbr in targetSheets {
        sheets := sheets + [targetSheets[abbr]];
      } else {
        sheets := sheets + [EmptySheet(abbr)];
      }
    }
  }

  /** The sheet pushed for a type is its processed sheet, or the zero placeholder when none announces it. */
  lemma SheetInOrder(targetSheets: map<ReportType, Sheet>, workbook: Workbook, parseDate: string -> Option<int>, t: ReportType)
    requires forall u :: u in targetSheets <==> FirstSheetOf(workbook, u).Some?
    requires forall u :: u in targetSheets ==> targetSheets[u] == SheetFor(workbook, u, parseDate).sheet
    ensures t in targetSheets ==> targetSheets[t] == SheetFor(workbook, t, parseDate).sheet
    ensures t !in targetSheets ==> EmptySheet(t) == SheetFor(workbook, t, parseDate).sheet
  {
  }

  /**
   * parseExcelFile after decoding: the first sheet of each report type is processed,
   * the four sheets are listed in canonical order with zero placeholders for missing
   * ones, the counts are summed, and the distinct months, markets and owners of the
   * processed sheets are sorted.
   */
  method ParseExcelFile(workbook: Workbook, parseDate: string -> Option<int>) returns (r: WorkbookAnalysis)
    ensures |r.sheets| == 4
    ensures forall k :: 0 <= k < 4 ==> r.sheets[k] == SheetFor(workbook, SheetOrder[k], parseDate).sheet
    ensures r.totalUrls == r.sheets[0].totalUrls + r.sheets[1].totalUrls + r.sheets[2].totalUrls + r.sheets[3].totalUrls
    ensures r.activeCount == r.sheets[0].activeCount + r.sheets[1].activeCount + r.sheets[2].activeCount + r.sheets[3].activeCount
    ensures r.removedCount == r.sheets[0].removedCount + r.sheets[1].removedCount + r.sheets[2].removedCount + r.sheets[3].removedCount
    ensures r.activeCount + r.removedCount <= r.totalUrls
    ensures r.removalRate == Percentage(r.removedCount, r.totalUrls)
    ensures r.totalUrls == 0 ==> r.removalRate == 0.0
    ensures 0.0 <= r.removalRate <= 100.0
    ensures r.usrAtsmCount == r.sheets[0].totalUrls + r.sheets[1].totalUrls
    ensures r.pssmPsmpCount == r.sheets[2].totalUrls + r.sheets[3].totalUrls
    ensures StrictlySorted(r.months) && StrictlySorted(r.markets) && StrictlySorted(r.contentOwners)
    ensures forall x :: x in r.months <==> exists t :: x in SheetFor(workbook, t, parseDate).months
    ensures forall x :: x in r.markets <==> exists t :: x in SheetFor(workbook, t, parseDate).markets
    ensures forall x :: x in r.contentOwners <==> exists t :: x in SheetFor(workbook, t, parseDate).contentOwners
  {
    var targetSheets, allMonths, allMarkets, allContentOwners := SelectSheets(workbook, parseDate);
    var sheets := OrderSheets(targetSheets, workbook, parseDate);
    var totalUrls := SumOver(sheets, (s: Sheet) => s.totalUrls);
    var activeCount := SumOver(sheets, (s: Sheet) => s.activeCount);
    var removedCount := SumOver(sheets, (s: Sheet) => s.removedCount);
    SumOverFour(sheets, (s: Sheet) => s.totalUrls);
    SumOverFour(sheets, (s: Sheet) => s.activeCount);
    SumOverFour(sheets, (s: Sheet) => s.removedCount);
    SheetForCounts(workbook, USR, parseDate);
    SheetForCounts(workbook, ATSM, parseDate);
    SheetForCounts(workbook, PSSM, parseDate);
    SheetForCounts(workbook, PSMP, parseDate);
    TotalsByType(sheets);
    var removalRate := Percentage(removedCount, totalUrls);
    var usrAtsmCount := TotalUrlsOfType(sheets, USR) + TotalUrlsOfType(sheets, ATSM);
    var pssmPsmpCount := TotalUrlsOfType(sheets, PSSM) + TotalUrlsOfType(sheets, PSMP);
    r := WorkbookAnalysis(
      sheets, totalUrls, activeCount, removedCount, removalRate, usrAtsmCount, pssmPsmpCount,
      SortStrings(allMonths), SortStrings(allMarkets), SortStrings(allContentOwners));
    SortStringsMembers(allMonths);
    SortStringsMembers(allMarkets);
    SortStringsMembers(allContentOwners);
    PlaceholderValues(workbook, parseDate);
  }

  /** A report type the workbook lacks contributes no months, markets or owners. */
  lemma PlaceholderValues(workbook: Workbook, parseDate: string -> Option<int>)
    ensures forall t :: FirstSheetOf(workbook, t).None? ==>
      SheetFor(workbook, t, parseDate).months == [] && SheetFor(workbook, t, parseDate).markets == []
      && SheetFor(workbook, t, parseDate).contentOwners == []
  {
  }

  /** The first sheet of type `t` lies before position `k`. */
  predicate SeenBefore(workbook: Workbook, t: ReportType, k: int) {
    FirstSheetOf(workbook, t).Some? && FirstSheetOf(workbook, t).value < k
  }

  /** Moving past sheet `k` adds its type to those seen, and is its first sheet when that type was unseen. */
  lemma SeenStep(workbook: Workbook, k: int)
    requires 0 <= k < |workbook|
    ensures forall t :: SeenBefore(workbook, t, k + 1) <==> SeenBefore(workbook, t, k) || Announces(workbook, k, t)
    ensures forall t :: Announces(workbook, k, t) && !SeenBefore(workbook, t, k) ==> FirstSheetOf(workbook, t) == Some(k)
  {
  }

  /** A sum over four sheets, written out. */
  lemma SumOverFour(sheets: seq<Sheet>, f: Sheet -> nat)
    requires |sheets| == 4
    ensures SumOver(sheets, f) == f(sheets[0]) + f(sheets[1]) + f(sheets[2]) + f(sheets[3])
  {
    var s1 := sheets[1..];
    var s2 := s1[1..];
    var s3 := s2[1..];
    assert s3[1..] == [];
    assert SumOver(s3, f) == f(sheets[3]);
    assert SumOver(s2, f) == f(sheets[2]) + SumOver(s3, f);
    assert SumOver(s1, f) == f(sheets[1]) + SumOver(s2, f);
  }

  /** In canonical order, the sheet found for each report type is the one at its position. */
  lemma TotalsByType(sheets: seq<Sheet>)
    requires |sheets| == 4
    requires sheets[0].abbreviation == USR && sheets[1].abbreviation == ATSM
    requires sheets[2].abbreviation == PSSM && sheets[3].abbreviation == PSMP
    ensures TotalUrlsOfType(sheets, USR) == sheets[0].totalUrls && TotalUrlsOfType(sheets, ATSM) == sheets[1].totalUrls
    ensures TotalUrlsOfType(sheets, PSSM) == sheets[2].totalUrls && TotalUrlsOfType(sheets, PSMP) == sheets[3].totalUrls
  {
    FoundAt(sheets, USR, 0);
    FoundAt(sheets, ATSM, 1);
    FoundAt(sheets, PSSM, 2);
    FoundAt(sheets, PSMP, 3);
  }

  /** `find` returns the first sheet of the type it looks for. */
  lemma {:induction false} FoundAt(sheets: seq<Sheet>, t: ReportType, i: int)
    requires 0 <= i < |sheets| && sheets[i].abbreviation == t
    requires forall j :: 0 <= j < i ==> sheets[j].abbreviation != t
    ensures TotalUrlsOfType(sheets, t) == sheets[i].totalUrls
    decreases i
  {
    if i > 0 {
      FoundAt(sheets[1..], t, i - 1);
    }
  }

  /** The sheet reported for `t`, processed or placeholder, is of type `t` and counts no more than its URLs. */
  lemma SheetForCounts(workbook: Workbook, t: ReportType, parseDate: string -> Option<int>)
    ensures var sheet := SheetFor(workbook, t, parseDate).sheet;
      sheet.abbreviation == t && sheet.activeCount + sheet.removedCount <= sheet.totalUrls
  {
    match FirstSheetOf(workbook, t)
    case None =>
    case Some(i) => SheetInvariants(workbook[i].1, t, parseDate);
  }
}
