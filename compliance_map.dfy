/**
 * Classification of a company's compliance status and year-over-year change
 * for the compliance map: the marker icon, the status badge, and the sign
 * and colour of the change figure.
 */
module ComplianceMap {
  import opened Statuses

  const GreenHex := "#10B981"
  const YellowHex := "#F59E0B"
  const RedHex := "#EF4444"

  const IconUrlPrefix := "https://raw.githubusercontent.com/pointhi/leaflet-color-markers/master/img/marker-icon-"
  const IconUrlSuffix := ".png"
  const ShadowUrl := "https://cdnjs.cloudflare.com/ajax/libs/leaflet/0.7.7/images/marker-shadow.png"

  const GreenBadge := "bg-green-100 text-green-800"
  const YellowBadge := "bg-yellow-100 text-yellow-800"
  const RedBadge := "bg-red-100 text-red-800"

  const FallingClass := "text-green-600"
  const RisingClass := "text-red-600"

  /**
   * The hex colour `createMarkerIcon` computes in its local variable: green
   * unless the status is exactly one of the two non-compliant ones.
   */
  function MarkerColor(status: string): (hex: string)
    ensures hex == YellowHex <==> status == UnderReview
    ensures hex == RedHex <==> status == NonCompliant
    ensures hex == GreenHex <==> status != UnderReview && status != NonCompliant
  {
    var color := GreenHex;
    if status == UnderReview then YellowHex
    else if status == NonCompliant then RedHex
    else color
  }

  /** The colour name in the marker image's file name: only "Compliant" is green. */
  function IconColor(status: string): (name: string)
    ensures name == "green" <==> status == Compliant
    ensures name == "gold" <==> status == UnderReview
    ensures name == "red" <==> status != Compliant && status != UnderReview
  {
    if status == Compliant then "green" else if status == UnderReview then "gold" else "red"
  }

  /** The Leaflet icon options `createMarkerIcon` returns. */
  datatype MarkerIcon = MarkerIcon(
    iconUrl: string,
    shadowUrl: string,
    iconSize: (int, int),
    iconAnchor: (int, int),
    popupAnchor: (int, int),
    shadowSize: (int, int))

  /** The icon depends on the status only through the colour segment of its URL. */
  function CreateMarkerIcon(status: string): (icon: MarkerIcon)
    ensures icon.iconUrl == IconUrlPrefix + IconColor(status) + IconUrlSuffix
    ensures icon.shadowUrl == ShadowUrl
    ensures icon.iconSize == (25, 41) && icon.iconAnchor == (12, 41)
    ensures icon.popupAnchor == (1, -34) && icon.shadowSize == (41, 41)
  {
    MarkerIcon(IconUrlPrefix + IconColor(status) + IconUrlSuffix, ShadowUrl, (25, 41), (12, 41), (1, -34), (41, 41))
  }

  /** The badge classes in the popup and in the details panel. */
  function BadgeClasses(status: string): (classes: string)
    ensures classes == GreenBadge <==> status == Compliant
    ensures classes == YellowBadge <==> status == UnderReview
    ensures classes == RedBadge <==> status != Compliant && status != UnderReview
  {
    if status == Compliant then GreenBadge else if status == UnderReview then YellowBadge else RedBadge
  }

  /** The prefix shown before the change figure: "+" exactly for an increase. */
  function YoySign(yoyChange: real): (sign: string)
    ensures sign == "+" <==> yoyChange > 0.0
    ensures sign == "" <==> yoyChange <= 0.0
  {
    if yoyChange > 0.0 then "+" else ""
  }

  /** The colour of the change figure: green exactly for a decrease, so zero is red. */
  function YoyColorClass(yoyChange: real): (cls: string)
    ensures cls == FallingClass <==> yoyChange < 0.0
    ensures cls == RisingClass <==> yoyChange >= 0.0
  {
    if yoyChange < 0.0 then FallingClass else RisingClass
  }

  /**
   * The change figure as displayed; `num` is JavaScript's default
   * number-to-string conversion, which supplies the minus sign itself.
   */
  function YoyText(yoyChange: real, num: real -> string): (text: string)
    ensures |text| >= 1 && text[|text| - 1] == '%'
    ensures yoyChange > 0.0 ==> text == "+" + num(yoyChange) + "%"
    ensures yoyChange <= 0.0 ==> text == num(yoyChange) + "%"
  {
    YoySign(yoyChange) + num(yoyChange) + "%"
  }

  /** For the three statuses the app uses, the computed hex colour and the icon colour agree. */
  lemma MarkerColorMatchesIcon(status: string)
    requires status == Compliant || status == UnderReview || status == NonCompliant
    ensures MarkerColor(status) == GreenHex <==> IconColor(status) == "green"
    ensures MarkerColor(status) == YellowHex <==> IconColor(status) == "gold"
    ensures MarkerColor(status) == RedHex <==> IconColor(status) == "red"
  {
  }

  /**
   * Any other status keeps the green default in the local variable while the
   * icon shown is red; the variable is never read, so only red is visible.
   */
  lemma UnknownStatusColors(status: string)
    requires status != Compliant && status != UnderReview && status != NonCompliant
    ensures MarkerColor(status) == GreenHex
    ensures IconColor(status) == "red"
    ensures BadgeClasses(status) == RedBadge
  {
  }

  /** The badge and the marker always tell the same three-way story. */
  lemma BadgeMatchesIcon(status: string)
    ensures BadgeClasses(status) == GreenBadge <==> IconColor(status) == "green"
    ensures BadgeClasses(status) == YellowBadge <==> IconColor(status) == "gold"
    ensures BadgeClasses(status) == RedBadge <==> IconColor(status) == "red"
  {
  }

  /** Sign and colour split the reals three ways: rise, no change, fall. */
  lemma YoyClassification(yoyChange: real)
    ensures YoySign(yoyChange) == "+" ==> YoyColorClass(yoyChange) == RisingClass
    ensures YoyColorClass(yoyChange) == FallingClass ==> YoySign(yoyChange) == ""
    ensures yoyChange == 0.0 <==> YoySign(yoyChange) == "" && YoyColorClass(yoyChange) == RisingClass
  {
  }
}
