/**
 * The media types the body tab works with, the four labels of the raw
 * sub-type combo box, and the mappings between labels, media types and
 * syntax-highlighting modes.
 */
module MediaTypes {
  import opened Wrappers

  // The javax.ws.rs.core.MediaType constants used by the body tab.
  const TextPlain: string := "text/plain"
  const ApplicationJson: string := "application/json"
  const ApplicationXml: string := "application/xml"
  const TextHtml: string := "text/html"
  const MultipartFormData: string := "multipart/form-data"
  const ApplicationOctetStream: string := "application/octet-stream"
  const ApplicationFormUrlencoded: string := "application/x-www-form-urlencoded"

  // The items of the raw sub-type combo box, in the order they are added.
  const PlainTextLabel: string := "PLAIN TEXT"
  const JsonLabel: string := "JSON"
  const XmlLabel: string := "XML"
  const HtmlLabel: string := "HTML"
  const RawLabels: seq<string> := [PlainTextLabel, JsonLabel, XmlLabel, HtmlLabel]

  /** The media types a raw body can be sent as. */
  predicate IsRawMediaType(ct: string) {
    ct == TextPlain || ct == ApplicationJson || ct == ApplicationXml || ct == TextHtml
  }

  /** The seven media types the body tab can produce and restore. */
  predicate IsKnownMediaType(ct: string) {
    || IsRawMediaType(ct)
    || ct == MultipartFormData
    || ct == ApplicationOctetStream
    || ct == ApplicationFormUrlencoded
  }

  /** Syntax-highlighting modes of the raw body editor. */
  datatype HighlightMode = Plain | Json | Xml | Html

  /**
   * The content type of a raw body with the given combo item; an item
   * outside the four falls back to text/plain.
   */
  function ContentTypeOfLabel(item: string): (ct: string)
    ensures IsRawMediaType(ct)
    ensures item !in RawLabels ==> ct == TextPlain
    ensures item in RawLabels ==> RawLabelOf(ct) == Some(item)
  {
    if item == PlainTextLabel then TextPlain
    else if item == JsonLabel then ApplicationJson
    else if item == XmlLabel then ApplicationXml
    else if item == HtmlLabel then TextHtml
    else TextPlain
  }

  /**
   * The combo item a restored raw content type selects, or None for a
   * content type that is not a raw one.
   */
  function RawLabelOf(ct: string): (item: Option<string>)
    ensures item.Some? <==> IsRawMediaType(ct)
    ensures item.Some? ==> item.value in RawLabels
  {
    if ct == TextPlain then Some(PlainTextLabel)
    else if ct == ApplicationJson then Some(JsonLabel)
    else if ct == ApplicationXml then Some(XmlLabel)
    else if ct == TextHtml then Some(HtmlLabel)
    else None
  }

  /** Restoring a raw content type and composing again gives back that content type. */
  lemma RawLabelOfRoundTrip(ct: string)
    requires IsRawMediaType(ct)
    ensures ContentTypeOfLabel(RawLabelOf(ct).value) == ct
  {
  }

  /** An item outside the four is composed as text/plain and so restores as "PLAIN TEXT". */
  lemma UnknownLabelRestoresAsPlainText(item: string)
    requires item !in RawLabels
    ensures RawLabelOf(ContentTypeOfLabel(item)) == Some(PlainTextLabel)
  {
  }

  /** The mode the combo box listener gives the editor for a selected item. */
  function LabelMode(item: string): (mode: HighlightMode)
    ensures mode == ModeOfMediaType(ContentTypeOfLabel(item))
    ensures mode == Plain <==> item != JsonLabel && item != XmlLabel && item != HtmlLabel
  {
    if item == JsonLabel then Json
    else if item == XmlLabel then Xml
    else if item == HtmlLabel then Html
    else Plain
  }

  /** The mode for a media type: the switch at the head of setRawTab. */
  function ModeOfMediaType(ct: string): (mode: HighlightMode)
    ensures mode != Plain ==> IsRawMediaType(ct) && ct != TextPlain
  {
    if ct == ApplicationJson then Json
    else if ct == ApplicationXml then Xml
    else if ct == TextHtml then Html
    else Plain
  }

  /** The four labels get four different modes: the mode identifies the item. */
  lemma LabelModeInjective(a: string, b: string)
    requires a in RawLabels && b in RawLabels
    requires LabelMode(a) == LabelMode(b)
    ensures a == b
  {
  }

  /**
   * setRawTab as written applies the media-type switch to a combo item;
   * no item is a media type, so every item yields Plain.
   */
  lemma ModeOfLabelAsWrittenIsPlain(item: string)
    requires item in RawLabels
    ensures ModeOfMediaType(item) == Plain
    ensures item != PlainTextLabel ==> ModeOfMediaType(item) != LabelMode(item)
  {
  }
}
