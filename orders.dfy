/** The values the two providers pass around: provider kinds, invoice dates, discovered orders. */
module Orders {
  import opened Wrappers

  /** The two portal scrapers; they share most logic but differ in the places `Kind` is consulted. */
  datatype Kind = FreeMobile | Freebox

  /** `PROVIDER_ID`: the registry key and file-name prefix of a provider. */
  function ProviderId(k: Kind): string {
    match k
    case FreeMobile => "free_mobile"
    case Freebox => "freebox"
  }

  /** A calendar date (`datetime.date`); invoice dates always have day 1. */
  datatype Date = Date(year: nat, month: nat, day: nat)

  /** What `datetime.date` admits (the day bound is not refined per month). */
  predicate ValidDate(d: Date) {
    1 <= d.year <= 9999 && 1 <= d.month <= 12 && 1 <= d.day <= 31
  }

  /** Chronological `<=` on dates. */
  predicate DateLe(a: Date, b: Date) {
    a.year < b.year || (a.year == b.year && (a.month < b.month || (a.month == b.month && a.day <= b.day)))
  }

  /** `OrderInfo`: the page element back-reference is not modelled. */
  datatype Order = Order(id: string, url: string, date: Option<Date>)
}
