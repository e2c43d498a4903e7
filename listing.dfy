/** The property record the chat code reads: its display fields and its highlights. */
module Listing {

  datatype Status = Available | Pending | Sold

  /** The string value of the status union as it is stored on the record. */
  function StatusText(s: Status): string
  {
    match s
    case Available => "available"
    case Pending => "pending"
    case Sold => "sold"
  }

  /**
   * The display snapshot of a property. `beds`, `baths` and `area` are whole
   * numbers here; coordinates are not read by the chat code and are not kept.
   */
  datatype Property = Property(
    id: string,
    title: string,
    address: string,
    status: Status,
    price: string,
    beds: nat,
    baths: nat,
    area: nat,
    highlights: seq<string>)
}
