/**
 * The crash-recovery breadcrumb's text: the original default-output device
 * id written in decimal (Swift string interpolation of an `AudioDeviceID`),
 * and read back with `AudioDeviceID(String)`, the failable integer parser.
 */
module Breadcrumb {
  import opened CoreAudio
  import opened Decimal

  /** The breadcrumb file's content for an original default-output device. */
  function BreadcrumbText(id: DeviceId): (text: string)
    ensures |text| > 0 && AllDigits(text)
  {
    FormatDecimal(id)
  }

  /**
   * `AudioDeviceID(text)`: an optional `+` or `-` sign, then one or more
   * decimal digits, nothing else; the value must fit in 32 bits, and after a
   * `-` it must be zero (any other negative value overflows an unsigned type).
   */
  function ParseDeviceId(text: string): (r: Option<DeviceId>)
    ensures r.Some? ==> |text| > 0
    ensures r.Some? && AllDigits(text) ==> r.value == DigitsValue(text)
    ensures r.Some? ==> AllDigits(text) || (|text| > 1 && (text[0] == '+' || text[0] == '-') && AllDigits(text[1..]))
    ensures |text| > 0 && AllDigits(text) && DigitsValue(text) < 0x1_0000_0000 ==> r == Some(DigitsValue(text))
    ensures |text| > 0 && AllDigits(text) && DigitsValue(text) >= 0x1_0000_0000 ==> r.None?
    ensures |text| > 1 && text[0] == '+' && AllDigits(text[1..]) ==>
      (r.Some? <==> DigitsValue(text[1..]) < 0x1_0000_0000) && (r.Some? ==> r.value == DigitsValue(text[1..]))
    ensures |text| > 1 && text[0] == '-' && AllDigits(text[1..]) ==> (r.Some? <==> DigitsValue(text[1..]) == 0)
    ensures |text| > 1 && text[0] == '-' && r.Some? ==> r.value == 0
  {
    if text == [] then None
    else if text[0] == '+' || text[0] == '-' then
      var digits := text[1..];
      if digits == [] || !AllDigits(digits) then None
      else if text[0] == '-' then (if DigitsValue(digits) == 0 then Some(0) else None)
      else if DigitsValue(digits) < 0x1_0000_0000 then Some(DigitsValue(digits))
      else None
    else if !AllDigits(text) then None
    else if DigitsValue(text) < 0x1_0000_0000 then Some(DigitsValue(text))
    else None
  }

  /** The breadcrumb written for an id parses back to that id. */
  lemma BreadcrumbRoundTrip(id: DeviceId)
    ensures ParseDeviceId(BreadcrumbText(id)) == Some(id)
  {
    ValueOfFormat(id);
  }

  /** A breadcrumb that is plain canonical decimal and parses is exactly the text written for its id. */
  lemma ParsedCanonicalIsBreadcrumb(text: string)
    requires Canonical(text) && ParseDeviceId(text).Some?
    ensures BreadcrumbText(ParseDeviceId(text).value) == text
  {
    FormatOfValue(text);
  }
}
