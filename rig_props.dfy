/** The record type shared by the web part and its list (IRigProps.ts). */
module RigProps {
  import opened Optional

  /** The `{ Url: string }` wrapper of the list's hyperlink column. */
  datatype UrlValue = UrlValue(url: string)

  /** One row of the customer list. `id` is absent for a draft that was never
      saved; the three counts are whatever the number inputs produced. */
  datatype Customer = Customer(
    id: Option<int>,
    customerName: string,
    address: string,
    numberOfRigs: int,
    numberOfJackUps: int,
    numberOfModus: int,
    siteUrls: UrlValue)
}
