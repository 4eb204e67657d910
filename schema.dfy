/**
 * The shapes of the data the pipeline produces: report types and their
 * display names, records, processed sheets, the workbook analysis, the
 * rollup rows and the dashboard's filter selections.
 */
module Schema {

  /** The four report types a workbook may hold; every other sheet is ignored. */
  datatype ReportType = USR | ATSM | PSSM | PSMP

  /** SHEET_FULL_NAMES. */
  function FullName(t: ReportType): string {
    match t
    case USR => "Unauthorized Search Result"
    case ATSM => "Ads Tutorials- Social Media"
    case PSSM => "Password Sharing-Social Med."
    case PSMP => "Password Sharing-Marketplace"
  }

  /** The canonical order of the sheets of an analysis. */
  const SheetOrder: seq<ReportType> := [USR, ATSM, PSSM, PSMP]

  datatype Record = Record(url: string, status: string, market: string, month: string, contentOwner: string)

  /** The keys of a record. */
  datatype Field = Url | Status | Market | Month | ContentOwner

  function FieldOf(r: Record, f: Field): string {
    match f
    case Url => r.url
    case Status => r.status
    case Market => r.market
    case Month => r.month
    case ContentOwner => r.contentOwner
  }

  datatype Sheet = Sheet(
    abbreviation: ReportType,
    fullName: string,
    records: seq<Record>,
    totalUrls: nat,
    activeCount: nat,
    removedCount: nat)

  /** The all-zero sheet used for a short sheet and for a report type the workbook lacks. */
  function EmptySheet(t: ReportType): Sheet {
    Sheet(t, FullName(t), [], 0, 0, 0)
  }

  datatype WorkbookAnalysis = WorkbookAnalysis(
    sheets: seq<Sheet>,
    totalUrls: nat,
    activeCount: nat,
    removedCount: nat,
    removalRate: real,
    usrAtsmCount: nat,
    pssmPsmpCount: nat,
    months: seq<string>,
    markets: seq<string>,
    contentOwners: seq<string>)

  datatype MarketData = MarketData(market: string, activeCount: nat, removedCount: nat, totalUrls: nat)

  datatype ContentOwnerData = ContentOwnerData(name: string, count: nat, percentage: real)

  /** `total > 0 ? (part / total) * 100 : 0`: the share of `part` in `total`, in percent. */
  function Percentage(part: nat, total: nat): (r: real)
    ensures total == 0 ==> r == 0.0
    ensures 0 < total ==> r * total as real == part as real * 100.0
    ensures part <= total ==> 0.0 <= r <= 100.0
  {
    if total > 0 then (part as real / total as real) * 100.0 else 0.0
  }
}
