/** The draft as the JavaScript object it is at run time, to follow what
    `handleInputChange` (Rig.tsx) stores for the Site URL input.

    The input calls `handleInputChange('SiteURLs', { Url: text })`; the handler
    stores `value.Url`, a bare string, under `SiteURLs`. The payload then reads
    `formData.SiteURLs.Url`, which is `undefined` on a string, so the URL is
    always sent as `null`. The corrected handler stores the `{ Url }` object,
    which is what the typed model `Rig.WithEdit` does. */
module SiteUrlFinding {
  import opened Optional
  import opened RigProps
  import opened JsBuiltins
  import Rig

  /** What the inputs pass to `handleInputChange`: `string | number | { Url: string }`. */
  datatype InputValue = TextValue(s: string) | NumberValue(n: int) | UrlValueArg(url: string)

  /** The keys of `Customer`. */
  datatype Key = IdKey | NameKey | AddressKey | RigsKey | JackUpsKey | ModusKey | SiteUrlsKey

  type DraftObject = map<Key, JsValue>

  /** A typed draft as a JavaScript object (an absent Id is a missing key). */
  function Encode(c: Customer): (o: DraftObject)
    ensures SiteUrlsKey in o && o[SiteUrlsKey] == UrlObject(c.siteUrls.url)
  {
    var fields := map[NameKey := Str(c.customerName), AddressKey := Str(c.address),
                      RigsKey := Num(c.numberOfRigs), JackUpsKey := Num(c.numberOfJackUps),
                      ModusKey := Num(c.numberOfModus), SiteUrlsKey := UrlObject(c.siteUrls.url)];
    if c.id.Some? then fields[IdKey := Num(c.id.value)] else fields
  }

  /** `handleInputChange` as written: a string or a number is stored as it is,
      an object is replaced by its `Url` string. */
  function InputChangeAsWritten(prev: DraftObject, field: Key, value: InputValue): (r: DraftObject)
    ensures field in r && r.Keys == prev.Keys + {field}
    ensures value.UrlValueArg? ==> r[field] == Str(value.url)
    ensures forall k :: k in prev && k != field ==> k in r && r[k] == prev[k]
  {
    var newValue := match value
      case TextValue(s) => Str(s)
      case NumberValue(n) => Num(n)
      case UrlValueArg(u) => Str(u);
    prev[field := newValue]
  }

  /** The handler as intended: the `{ Url }` object is stored whole. */
  function InputChangeCorrected(prev: DraftObject, field: Key, value: InputValue): (r: DraftObject)
    ensures field in r && r.Keys == prev.Keys + {field}
    ensures value.UrlValueArg? ==> r[field] == UrlObject(value.url)
    ensures forall k :: k in prev && k != field ==> k in r && r[k] == prev[k]
  {
    var newValue := match value
      case TextValue(s) => Str(s)
      case NumberValue(n) => Num(n)
      case UrlValueArg(u) => UrlObject(u);
    prev[field := newValue]
  }

  /** `v.Url` for a value that is not `undefined`: only an object has it. */
  function UrlMember(v: JsValue): JsValue {
    match v
    case UrlObject(u) => Str(u)
    case _ => Undefined
  }

  /** `formData.SiteURLs.Url ? { Url: formData.SiteURLs.Url } : null`, the
      hyperlink part of the `add` and `update` payloads: a link exactly when
      `SiteURLs` is an object with a non-empty `Url`, and then that URL. */
  function PayloadSiteUrl(draft: DraftObject): (r: Option<UrlValue>)
    requires SiteUrlsKey in draft
    ensures r.Some? <==> draft[SiteUrlsKey].UrlObject? && draft[SiteUrlsKey].url != ""
    ensures r.Some? ==> r.value == UrlValue(draft[SiteUrlsKey].url)
  {
    var member := UrlMember(draft[SiteUrlsKey]);
    if Truthy(member) then Some(UrlValue(member.s)) else None
  }

  /** As written, any URL typed into the Site URL input is sent as `null`. */
  lemma TypedUrlIsDroppedAsWritten(c: Customer, url: string)
    ensures PayloadSiteUrl(InputChangeAsWritten(Encode(c), SiteUrlsKey, UrlValueArg(url))) == None
  {
  }

  /** The concrete case: a customer with a stored URL whose Site URL input is
      retyped with the same URL has its URL cleared by the next update. */
  lemma RetypedUrlClearedAsWritten()
    ensures var c := Customer(Some(7), "Acme", "1 Dock Rd", 2, 0, 1, UrlValue("https://acme.example"));
      && PayloadSiteUrl(Encode(c)) == Some(UrlValue("https://acme.example"))
      && PayloadSiteUrl(InputChangeAsWritten(Encode(c), SiteUrlsKey, UrlValueArg("https://acme.example"))) == None
  {
  }

  /** Corrected, the payload carries the typed URL, and `null` only for the
      empty one. */
  lemma TypedUrlIsSentCorrected(c: Customer, url: string)
    ensures PayloadSiteUrl(InputChangeCorrected(Encode(c), SiteUrlsKey, UrlValueArg(url)))
            == if url == "" then None else Some(UrlValue(url))
  {
  }

  /** The typed edit of the controller is the corrected handler: encoding after
      `Rig.WithEdit` is the corrected change of the encoded draft, and the
      payload it builds agrees with the object-level one. */
  lemma TypedEditIsCorrected(c: Customer, url: string)
    ensures Encode(Rig.WithEdit(c, Rig.SetSiteUrl(url)))
            == InputChangeCorrected(Encode(c), SiteUrlsKey, UrlValueArg(url))
    ensures Rig.MakePayload(Rig.WithEdit(c, Rig.SetSiteUrl(url))).siteUrls
            == PayloadSiteUrl(InputChangeCorrected(Encode(c), SiteUrlsKey, UrlValueArg(url)))
  {
  }
}
