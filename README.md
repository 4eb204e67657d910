# Link-removal report workbook: ingestion and rollups

This project models the core of a dashboard that reads a spreadsheet workbook of link-removal
reports. A workbook may hold up to four report sheets:

- USR, unauthorized search results;
- ATSM, ads tutorials on social media;
- PSSM, password sharing on social media;
- PSMP, password sharing on marketplaces.

The parser (`src/lib/excel-parser.ts`) works in five steps:

1. It recognises each sheet's report type from the sheet's name.
2. It finds the status, market, month, owner and URL columns from keywords in the header row.
3. It turns every data row into a record with a classified status. USR rows use a three-engine rule (Google, Bing, Yandex); the other types use a keyword rule.
4. It normalises the month cell to a "Mon-YY" label.
5. It rolls the first sheet of each type into one analysis: four sheets in canonical order, summed counts, a removal rate, and sorted distinct months, markets and owners.

The utilities (`src/lib/excel-utils.ts`) work on the parsed records:

- they filter them by month, market and owner;
- they re-tally active and removed counts;
- they roll the records up per market and per content owner;
- they compute the removal rate, the progress-bar colour band and the sorted distinct values of a field.

## Modelling choices

- A workbook is the decoded list of sheets: each sheet is its name and its rows of cells. A cell is `Blank`, `Num`, `Str` or `Bool`.
- Functions model code made of expressions: status and month normalisation, sheet names, column detection and filtering.
- Methods with loops model the code that loops and mutates:
  - `findColumnIndex`;
  - `processSheet`'s row loop, with its counters and three sets;
  - `parseExcelFile`'s Map and Set loop and its push loop;
  - the `forEach` loops over a `Map`;
  - `calculateSheetStats`;
  - `getUniqueValues`.
- Each method is tied by its ensures to a specification function, and the properties are then proved about those functions. `ProcessSheet` is proved equal to `SheetOf`, the sheets `SelectSheets` and `OrderSheets` gather to `SheetFor`, `CalculateMarketData` to `MarketDataOf`, `CalculateContentOwners` to `ContentOwnersOf` and `CalculateSheetStats` to `StatusCount`. `Headers.FindColumnIndex` is proved equal to `FirstMatch` and `Cells.RowHasData` to `HasData`. `ExcelUtils.GetUniqueValues` is proved to return the strictly sorted list of exactly the non-empty values, which determines it.
- A JavaScript `Set` is a duplicate-free `seq` kept in insertion order. A `Map` is a `map` together with its keys in insertion order.
- The default `Array.prototype.sort` on strings is an insertion sort under code-unit order. `.sort((a, b) => key(b) - key(a))` is a stable insertion sort, largest key first.
- Rates and percentages are `real`.
- The host's date-string parser (`new Date(string)`) is the parameter `parseDate`. It yields a time value in milliseconds, or `None` where the host yields NaN. The UTC calendar conversion behind `getUTCFullYear` and `getUTCMonth` is modelled exactly and proved against a closed-form day count.

## Behaviour worth noting

- **Serial 45292.** This is 2024-01-01, so it is labelled "Jan-24" (`MonthNormalization.Serial45292IsJan24`).
- **Keyword order.** Column keyword lists give no priority. Headers are scanned left to right and any keyword may match, so a more specific phrase listed first does not win over a generic one in an earlier column (`Headers.KeywordOrderIrrelevant`).
- **USR engine cells** are compared with the exact spellings Approved, approved, Up, up, Pending and pending, not case-insensitively. An engine cell "UP" leaves a USR row unknown under the label "UP", yet the utilities' re-tally counts that label as active (`Retally.UpVerdictUnknown`, `Retally.UpLabelRetallied`).
- **Filtering** compares record values as they are, without trimming them.
- **Months.** The month set excludes only "", so a month text "Unknown" is collected. Only markets and owners exclude "Unknown".
- **Status with only a URL.** A non-USR row with a URL but no status is classified from "" rather than from the text "Unknown". Both give unknown.
- **"unavailable".** A status containing "unavailable" contains "available", so it is active. The removed keyword "unavailable" never decides a classification (`StatusKeywords.UnavailableIsActive`).

## Model

| member | source | states |
|---|---|---|
| StatusKeywords.KeywordRule | src/lib/excel-parser.ts:19-21 | active exactly when the lower-cased, trimmed status contains an active keyword; removed exactly when it contains no active keyword and some removed keyword; unknown otherwise |
| StatusKeywords.EmptyIsUnknown | src/lib/excel-utils.ts:7-10 | the empty status is unknown |
| StatusKeywords.UnavailableIsActive | src/lib/excel-parser.ts:5-6 | any status containing "unavailable" is active, because active keywords are tried first |
| StatusKeywords.ActiveKeywordAt | src/lib/excel-parser.ts:19-20 | a status in which any active keyword occurs is active, whatever removed keywords it also holds |
| StatusKeywords.PendingLabelIsRemoved | src/lib/excel-parser.ts:276 | the USR label "Pending", lower-cased, is removed under the keyword rule |
| StatusKeywords.UnknownLabelIsUnknown | src/lib/excel-parser.ts:296 | the placeholder label "Unknown", lower-cased, is unknown under the keyword rule |
| ExcelParser.NormalizeStatus | src/lib/excel-parser.ts:8-22 | an empty status is unknown; with type USR a non-empty status is active exactly when its lower-cased, trimmed text is approved or up and removed exactly when it is pending; otherwise the keyword rule applies to the lower-cased, trimmed status |
| ExcelParser.UsrWordClass | src/lib/excel-parser.ts:13-17 | active exactly for "approved" and "up", removed exactly for "pending" |
| ExcelParser.UsrBranchUnused | src/lib/excel-parser.ts:281 | for every type other than USR, the type passed to normalizeStatus changes nothing, so its USR branch is never reached from processSheet |
| ExcelUtils.NormalizeStatus | src/lib/excel-utils.ts:6-11 | a status that is blank after trimming is unknown; active exactly when it contains an active keyword; removed exactly when it contains a removed keyword and no active one |
| Retally.StatusRulesAgree | src/lib/excel-utils.ts:6-11 | outside USR the parser's and the utilities' normalizeStatus classify every status alike |
| Retally.ApprovedUpRetallied | src/lib/excel-parser.ts:269 | the utilities classify the label "Approved/Up" as active |
| Retally.PendingRetallied | src/lib/excel-parser.ts:276 | the utilities classify the label "Pending" as removed |
| Retally.UpVerdictUnknown | src/lib/excel-parser.ts:263-279 | a USR row whose only engine verdict is "UP" is unknown and labelled "UP" |
| Retally.UpLabelRetallied | src/lib/excel-utils.ts:8 | the utilities classify that label "UP" as active: the two rules disagree |
| Retally.LabelClass | src/lib/excel-utils.ts:7-10 | a label whose lower case needs no trimming is classified by the keyword rule on that lower case |
| Retally.RetallyMatches | src/lib/excel-utils.ts:94-105 | where each kept row's class is the utilities' class of its label, re-tallying the records gives the sheet's counts |
| Retally.KeywordClassRetallied | src/lib/excel-utils.ts:6-11 | a class the keyword rule gives a label is the class the utilities give it |
| Retally.RetallyAtLeast | src/lib/excel-utils.ts:94-105 | where active rows carry "Approved/Up" and removed rows "Pending", the re-tally counts at least as many of each |
| Retally.NonUsrRetally | src/lib/excel-parser.ts:281-285 | outside USR, calculateSheetStats and the sums over calculateMarketData give back the sheet's own active and removed counts |
| Retally.UsrRetally | src/lib/excel-parser.ts:263-285 | on USR the re-tally counts at least the sheet's own active and removed rows |
| Retally.RemovalRatesAgree | src/lib/excel-parser.ts:370 | the parser's removal rate equals getRemovalRate of the same totals |
| MonthNormalization.NormalizeMonth | src/lib/excel-parser.ts:24-64 | the label is empty exactly when the cell is blank or a whitespace-only string |
| MonthNormalization.TimeClip | src/lib/excel-parser.ts:38 | a time value makes a valid Date exactly within plus or minus 8.64e15 ms, and keeps its value |
| MonthNormalization.YearSuffix | src/lib/excel-parser.ts:59 | one or two characters: the last two decimal digits of a year of two or more digits, the single digit of a year below 10 |
| MonthNormalization.SerialDayLabel | src/lib/excel-parser.ts:38-60 | a serial day counting to a valid date within the Date range, and not taken for a year, is labelled with that date's month name and two-digit year |
| MonthNormalization.ParsedDateLabel | src/lib/excel-parser.ts:42-60 | a string the date parser accepts is labelled with the month and year of the UTC day its time value falls on |
| MonthNormalization.UnparsedTextKept | src/lib/excel-parser.ts:42-52 | text the date parser rejects, or whose time value lies outside the Date range, is returned trimmed |
| MonthNormalization.BooleanCellText | src/lib/excel-parser.ts:63 | a boolean cell gives "true" or "false" |
| MonthNormalization.YearKept | src/lib/excel-parser.ts:32-34 | a number strictly between 1900 and 2100 is returned as its four decimal digits |
| MonthNormalization.OutOfRangeSerial | src/lib/excel-parser.ts:38-60 | a serial beyond the Date range makes an Invalid Date and the text "undefined-aN" |
| MonthNormalization.EpochSerialIsJan70 | src/lib/excel-parser.ts:38 | serial 25569 is labelled "Jan-70" |
| MonthNormalization.Serial45292IsJan24 | src/lib/excel-parser.ts:38 | serial 45292 is labelled "Jan-24" |
| MonthNormalization.SerialZeroIsDec99 | src/lib/excel-parser.ts:38 | serial 0 is labelled "Dec-99" |
| MonthNormalization.Year1900IsSerial | src/lib/excel-parser.ts:32-38 | 1900 is not taken for a year: it is serial day 1905-03-14, "Mar-05" |
| CivilDate.CivilFromDays | src/lib/excel-parser.ts:58-59 | the UTC civil date of a day number is a valid date whose day number is that number |
| CivilDate.CivilFromDaysOfCivil | src/lib/excel-parser.ts:58-59 | converting a valid date's day number back gives the date itself |
| CivilDate.DaysFromCivilInjective | src/lib/excel-parser.ts:58-59 | distinct valid dates have distinct day numbers |
| Headers.FirstMatch | src/lib/excel-parser.ts:66-72 | -1 when no header contains a keyword, else the least index of a header that does |
| Headers.FirstMatchUnique | src/lib/excel-parser.ts:66-72 | that index is unique |
| Headers.KeywordOrderIrrelevant | src/lib/excel-parser.ts:67-69 | keyword lists with the same keywords, in any order, select the same column |
| Headers.FindColumnIndex | src/lib/excel-parser.ts:66-72 | the loop returns -1 or the first header, left to right, whose lower-cased, trimmed text contains a keyword (src/lib/excel-utils.ts:13-19 is an identical copy and is modelled by the same method) |
| ExcelParser.DetectColumns | src/lib/excel-parser.ts:74-143 | each column of a known report type is the first header matching that type's keyword list; USR has no status column |
| ExcelParser.DetectFallbackColumns | src/lib/excel-parser.ts:145-157 | each fallback column is the first header matching the fallback keyword list |
| ExcelParser.UsrUrlColumnIsAnyUrlHeader | src/lib/excel-parser.ts:92 | the USR URL column is the first header containing "url" or "link" ("linking url" adds nothing) |
| ExcelUtils.DetectColumns | src/lib/excel-utils.ts:21-35 | each column is the first header matching its keyword list, or -1 |
| ExcelParser.GetSheetAbbreviation | src/lib/excel-parser.ts:160-176 | a name is USR exactly when its trimmed lower case contains "unauthorized search" or "a.", or is "usr" |
| ExcelParser.SheetNameCascade | src/lib/excel-parser.ts:166-169 | the marker tests decide in the order USR, ATSM, PSSM, PSMP; ATSM is any of "ads tutorial", "atsm", "b1"; PSSM any of "password sharing-social", "password sharing - social", "pssm", "c1"; PSMP the marketplace counterparts and "c2"; an earlier marker wins over a later one |
| ExcelParser.PasswordFallback | src/lib/excel-parser.ts:171-175 | on a name with no marker, "password" with "social" gives PSSM, "password" with "market" but not "social" gives PSMP, and any other name gives null |
| ExcelParser.LoweredNameType | src/lib/excel-parser.ts:165-175 | the USR test takes precedence over every later test |
| ExcelParser.AbbreviationOfNormalisedName | src/lib/excel-parser.ts:161-165 | names with the same trimmed lower case get the same report type |
| ExcelParser.AbbreviationRecognised | src/lib/excel-parser.ts:166-169 | a name that is a type's abbreviation, in any case and with any surrounding whitespace, announces that type |
| ExcelParser.FullNameRecognised | src/lib/excel-parser.ts:166-169 | a name that is a type's full display name, in any case, announces that type |
| ExcelParser.UnmarkedNameIgnored | src/lib/excel-parser.ts:166-175 | a name without "password" that passes none of the marker tests announces no type |
| Cells.CellAt | src/lib/excel-parser.ts:247 | reading past either end of a row yields a blank cell |
| Cells.CellText | src/lib/excel-parser.ts:207 | `String(c || "")` is empty exactly for a falsy cell, and is a string cell's own text |
| Cells.FieldText | src/lib/excel-parser.ts:242-250 | a missing column reads as "", any other as the trimmed text of its cell |
| Cells.RowHasData | src/lib/excel-parser.ts:231-239 | the early-exit scan finds data exactly when some cell is not null, "", "null" or "undefined" |
| ExcelParser.HeaderTexts | src/lib/excel-parser.ts:207 | each header is the text of its cell, a hole reading as "" |
| ExcelParser.UsrStatus | src/lib/excel-parser.ts:257-279 | a USR row is active, labelled "Approved/Up", exactly when some engine approves; otherwise removed, labelled "Pending", exactly when all three are pending; otherwise unknown under the first non-empty engine verdict, or the raw status when all are empty |
| ExcelParser.ReadRow | src/lib/excel-parser.ts:227-300 | a row is kept exactly when it has data and a status or URL, and then yields its record and class |
| ExcelParser.AddToSets | src/lib/excel-parser.ts:290-292 | the three sets stay the distinct non-"" months and non-"Unknown" markets and owners of the records, in order of first appearance |
| RecordValues.Collect | src/lib/excel-parser.ts:290-292 | the set is duplicate-free and holds exactly the record values other than the excluded one |
| RecordValues.CollectStep | src/lib/excel-parser.ts:290-292 | one more record extends the set by its value unless that value is excluded or already present |
| ExcelParser.ProcessSheet | src/lib/excel-parser.ts:185-319 | the result is the sheet, tallies and value sets made from the kept rows |
| ExcelParser.KeepRecord | src/lib/excel-parser.ts:284-300 | keeping one more row appends its record, raises the active or removed count exactly when its class is that one, and keeps the month, market and owner lists equal to the distinct labels of the records kept so far |
| ExcelParser.ProcessRows | src/lib/excel-parser.ts:226-318 | the row loop's counters, records and sets equal those of the kept rows after the header |
| ExcelParser.SheetInvariants | src/lib/excel-parser.ts:191-311 | fewer than 2 rows give the all-zero sheet; otherwise totalUrls is the number of records, active plus removed is at most that, every record has a status, market and owner, and the value sets are duplicate-free, exclude ""/"Unknown" and hold exactly the records' values |
| ExcelParser.SheetFromInvariants | src/lib/excel-parser.ts:284-311 | a sheet made from kept rows has the right type and name, as many URLs as records, at most that many counted, and labelled records |
| ExcelParser.ExtractKept | src/lib/excel-parser.ts:253-300 | every kept row has status, market and owner labels, and the class its rule gives |
| ExcelParser.CountsBounded | src/lib/excel-parser.ts:284-285 | the active and removed tallies add up to at most the number of kept rows |
| ExcelParser.UnknownPlaceholderIsUnknown | src/lib/excel-parser.ts:296 | the label "Unknown" is unknown under the keyword rule |
| ExcelParser.UsrRecords | src/lib/excel-parser.ts:242-279 | every USR record has a URL, an active one is labelled "Approved/Up" and a removed one "Pending" |
| ExcelParser.NonUsrClassFollowsLabel | src/lib/excel-parser.ts:281-296 | outside USR each kept row's class is the keyword rule on its recorded label, and the counts tally those classes |
| ExcelParser.FirstSheetOf | src/lib/excel-parser.ts:329-333 | the sheet read for a type is the first whose name announces it; there is none when no name does |
| ExcelParser.AddAll | src/lib/excel-parser.ts:341-343 | adding values to a duplicate-free set keeps it duplicate-free and makes it the union |
| ExcelParser.SelectSheet | src/lib/excel-parser.ts:330-344 | one pass keeps the recorded types those announced so far, each with the first sheet processed, and the gathered values their union |
| ExcelParser.SelectSheets | src/lib/excel-parser.ts:329-345 | exactly the announced types are recorded, each with its first sheet processed, and the months, markets and owners are the distinct values of those sheets |
| ExcelParser.OrderSheets | src/lib/excel-parser.ts:347-365 | four sheets in the order USR, ATSM, PSSM, PSMP, each the processed sheet or a zero placeholder |
| ExcelParser.SheetInOrder | src/lib/excel-parser.ts:350-364 | the sheet pushed for a type is its processed sheet, or the placeholder when no sheet announces it |
| Schema.Percentage | src/lib/excel-parser.ts:370 | 0 for a zero total; otherwise the result times the total is the part times 100; between 0 and 100 when the part is at most the total (src/lib/excel-utils.ts:75 computes an owner's percentage with the same expression) |
| ExcelParser.ParseExcelFile | src/lib/excel-parser.ts:321-392 | four sheets in canonical order; counts are the sums over them with active plus removed at most the total; the rate is in [0, 100] and 0 for no URLs; the pair counts are sums of two sheets; months, markets and owners are strictly sorted and hold exactly the processed sheets' values |
| ExcelParser.PlaceholderValues | src/lib/excel-parser.ts:355-363 | a type the workbook lacks contributes no months, markets or owners |
| ExcelParser.SheetForCounts | src/lib/excel-parser.ts:347-365 | every reported sheet has its own type and counts no more than its URLs |
| ExcelParser.SumOverFour | src/lib/excel-parser.ts:367-369 | a reduce over four sheets is the sum of the four |
| ExcelParser.TotalsByType | src/lib/excel-parser.ts:372-378 | in canonical order `find` returns the sheet at each type's position |
| ExcelParser.FoundAt | src/lib/excel-parser.ts:372-375 | `find` returns the first sheet of the type it looks for |
| Sequences.AddDistinct | src/lib/excel-parser.ts:290-292 | `Set.add` keeps a set duplicate-free, and appends the value only when it is new |
| Sorting.LessEqTotal | src/lib/excel-parser.ts:388-390 | any two strings are ordered one way or the other |
| Sorting.LessEqAntisymmetric | src/lib/excel-parser.ts:388-390 | strings ordered both ways are equal |
| Sorting.LessEqTransitive | src/lib/excel-parser.ts:388-390 | the string order is transitive |
| Sorting.SortStrings | src/lib/excel-parser.ts:388-390 | the default sort is sorted and a permutation, and strictly sorted for distinct input |
| Sorting.SortStringsMembers | src/lib/excel-parser.ts:388-390 | sorting keeps exactly the strings it was given |
| Sorting.SortByKeyDesc | src/lib/excel-utils.ts:58 | the descending sort is non-increasing in its key, a permutation, and keeps the order of equal keys |
| Sorting.InsertByKeyStable | src/lib/excel-utils.ts:58 | insertion keeps the elements of each key in order and puts the new one last among its equals |
| ExcelUtils.FilterRecords | src/lib/excel-utils.ts:80-92 | a record is in the result exactly when it is in the input and every non-empty selection lists its non-empty value |
| ExcelUtils.FilterNothingSelected | src/lib/excel-utils.ts:87-89 | with all three selections empty the input comes back unchanged |
| ExcelUtils.FilterSubsequence | src/lib/excel-utils.ts:86-91 | the result is an order-preserving subsequence of the input |
| ExcelUtils.FilterIdempotent | src/lib/excel-utils.ts:86-91 | filtering twice with the same selection is filtering once |
| ExcelUtils.EmptyValueAdmitted | src/lib/excel-utils.ts:87-89 | a dimension never excludes a record whose value for it is empty |
| ExcelUtils.FilterMonotone | src/lib/excel-utils.ts:86-91 | a narrower selection keeps a subsequence of what the wider one keeps |
| ExcelUtils.FilterStronger | src/lib/excel-utils.ts:86-91 | a selection that keeps fewer records keeps a subsequence of the other's result |
| ExcelUtils.CalculateSheetStats | src/lib/excel-utils.ts:94-105 | the counters are the numbers of records the keyword rule calls active and removed, adding up to at most the number of records |
| ExcelUtils.StatusCountsBounded | src/lib/excel-utils.ts:94-105 | active plus removed is at most the number of records |
| ExcelUtils.GetRemovalRate | src/lib/excel-utils.ts:107-110 | 0 for a zero total; otherwise rate times total is removed times 100; in [0, 100] when 0 <= removed <= total |
| ExcelUtils.GetProgressBarColor | src/lib/excel-utils.ts:112-118 | one of the five colours; green exactly from 80, red exactly below 20 |
| ExcelUtils.ColorBand | src/lib/excel-utils.ts:112-118 | the band is the number of the boundaries 20, 40, 60 and 80 the rate reaches |
| ExcelUtils.ColorMonotone | src/lib/excel-utils.ts:112-118 | a higher rate never gets a lower band |
| ExcelUtils.GetUniqueValues | src/lib/excel-utils.ts:120-129 | strictly sorted, holding exactly the non-empty values of the field |
| ExcelUtils.KeysOf | src/lib/excel-utils.ts:40-44 | the Map's keys are duplicate-free and are exactly the records' markets or owners, blank read as "Unknown" |
| ExcelUtils.KeysOfStep | src/lib/excel-utils.ts:41-44 | one more record appends its key when it is new |
| ExcelUtils.TallyMarket | src/lib/excel-utils.ts:40-49 | after each record the Map holds every market seen, in order, with its active and removed re-tallies |
| ExcelUtils.CountStatus | src/lib/excel-utils.ts:46-48 | the record's market entry gains one active or one removed by its status, or neither |
| ExcelUtils.MarketRows | src/lib/excel-utils.ts:51-57 | the mapped rows are the markets in Map order with their tallies and total active plus removed |
| ExcelUtils.CalculateMarketData | src/lib/excel-utils.ts:37-59 | the result is the market rows sorted stably, most URLs first |
| ExcelUtils.MarketRowsTally | src/lib/excel-utils.ts:37-59 | every row is a market of the records with its own active and removed re-tallies, and total equal to their sum |
| ExcelUtils.MarketRowsCover | src/lib/excel-utils.ts:37-59 | every market of the records has exactly one row, and the rows run from most URLs to fewest |
| ExcelUtils.MarketTotals | src/lib/excel-utils.ts:37-59 | the rows' active, removed and total columns add up to calculateSheetStats' counts |
| ExcelUtils.SumTalliesWhole | src/lib/excel-utils.ts:40-49 | summed over all keys, the per-key tallies count every record once |
| ExcelUtils.TallyOwner | src/lib/excel-utils.ts:65-69 | after each record the Map holds every owner seen, in order, with its number of records |
| ExcelUtils.OwnerRows | src/lib/excel-utils.ts:71-76 | the mapped rows are the owners in Map order with their counts and shares |
| ExcelUtils.CalculateContentOwners | src/lib/excel-utils.ts:61-78 | the result is the owner rows sorted stably, most records first |
| ExcelUtils.OwnerRowsTally | src/lib/excel-utils.ts:61-78 | every row is an owner of the records with its count and its share of all records |
| ExcelUtils.OwnerRowsCover | src/lib/excel-utils.ts:61-78 | every owner of the records has exactly one row, and the rows run from most records to fewest |
| ExcelUtils.OwnerCountsSum | src/lib/excel-utils.ts:61-78 | the owners' counts add up to the number of records |
| ExcelUtils.OwnerPercentagesSum | src/lib/excel-utils.ts:72-76 | for a non-empty input the owners' percentages add up to 100 |

## Left out

- Decoding the XLSX container (`XLSX.read`, `sheet_to_json`) is a foreign library. A workbook is the decoded list of sheet names with their rows of cells.
- Cell values of other kinds than blank, whole number, string and boolean (dates, errors, fractions) are not modelled.
- A fractional serial and its `Math.round` of an IEEE product are not modelled. Serials are integers, for which the product is exact.
- Numeric cells are taken to be safe integers (magnitude below 2^53). `String(n)` is modelled as plain decimal, whereas JavaScript writes 1e21 and above in exponent form and cannot hold larger integers exactly.
- `new Date(string)` is implementation-defined. It is the parameter `parseDate`.
- Rates and percentages are exact reals, not IEEE doubles, so rounding error is not modelled.
- `toLowerCase` is modelled for ASCII letters only. Sorting compares characters one by one and ignores locale and UTF-16 surrogates.
- The Web Worker (`excel.worker.ts`), the store (`storage.ts`), the zod validation and the React components are not part of this model. The zod schemas' shapes are the datatypes of `Schema`.
- Record fields that the zod schema marks optional are always present strings here. processSheet always sets them.
- The `removalRate: 0` field that processSheet and the placeholders add to a sheet is not modelled. It is not part of the sheet schema, and nothing reads it.
- ExcelParser.DetectFallbackColumns: the fallback branch of detectColumns is modelled but unreachable, since processSheet only runs for the four known types.
- ExcelParser.GetSheetAbbreviation: its own contract states only the USR test. The full cascade is stated by SheetNameCascade: the ATSM, PSSM and PSMP markers including the codes "b1", "c1", "c2" and the spaced dash variants, and their precedence. PasswordFallback states the two "password" fallbacks and the null result.
- MonthNormalization.NormalizeMonth: its own contract states only when the label is empty. The other cases are stated by the lemmas that follow it.
