/**
 The text drawn on the postcard: the caption cut to its character budget, the
 name/date/location line under it, and the location label built from the
 reverse-geocoded placemark. A string is a sequence of characters, each
 standing for one Swift `Character` (an extended grapheme cluster).
 */
module Text {

  /** Swift's optional: a placemark field or a placemark may be missing. */
  datatype Option<+T> = None | Some(value: T) {

    /** The nil-coalescing operator `??`. */
    function GetOr(default: T): T
    {
      match this
      case Some(v) => v
      case None => default
    }
  }

  /** The parts of a CLPlacemark the label uses. */
  datatype Placemark = Placemark(administrativeArea: Option<string>, country: Option<string>)

  /** Most characters of the caption that are drawn. */
  const UserMessageMaxLength: nat := 100

  /** Separator between the author name and the date. */
  const NameSeparator: string := " - "

  /** Separator before the location, and inside the location label. */
  const ListSeparator: string := ", "

  function Min(a: nat, b: nat): nat { if a <= b then a else b }

  // ---------------------------------------------------------------------
  // Caption truncation
  // ---------------------------------------------------------------------

  /** The caption as drawn: a hard cut, with no ellipsis, to the first
      UserMessageMaxLength characters, taken only when the message is
      strictly longer than that. */
  function TruncateMessage(message: string): (r: string)
    ensures |r| == Min(|message|, UserMessageMaxLength)
    ensures r == message[..|r|]
  {
    if |message| > UserMessageMaxLength then message[..UserMessageMaxLength] else message
  }

  /** A message within the budget is drawn unchanged, and one over it loses
      characters. */
  lemma TruncateKeepsShortMessages(message: string)
    ensures TruncateMessage(message) == message <==> |message| <= UserMessageMaxLength
  {
  }

  /** The boundary is strict: 100 characters are kept whole, 101 are cut to
      the first 100. */
  lemma TruncateBoundary(message: string)
    ensures |message| == 100 ==> TruncateMessage(message) == message
    ensures |message| == 101 ==> TruncateMessage(message) == message[..100] != message
  {
  }

  /** Cutting a caption that has already been cut changes nothing. */
  lemma TruncateIdempotent(message: string)
    ensures TruncateMessage(TruncateMessage(message)) == TruncateMessage(message)
  {
  }

  // ---------------------------------------------------------------------
  // Name, date and location line
  // ---------------------------------------------------------------------

  /** The line under the caption. With an author name it reads
      "name - date, location"; without one it starts at the date, with no
      leading separator. The contract fixes every character: the name part,
      the date after it, and ", " + location at the end. */
  function NameLine(name: string, longDate: string, location: string): (r: string)
    ensures |r| == (if name == "" then 0 else |name| + 3) + |longDate| + 2 + |location|
    ensures name != "" ==> r[..|name| + 3] == name + NameSeparator
    ensures name == "" ==> r[..|longDate|] == longDate
    ensures var p := if name == "" then 0 else |name| + 3;
      r[p..p + |longDate|] == longDate
    ensures r[|r| - |location| - 2..] == ListSeparator + location
  {
    if name != "" then
      name + NameSeparator + longDate + ListSeparator + location
    else
      longDate + ListSeparator + location
  }

  /** Reads the author name back from a name line, given the date and the
      location it was built with; "" when the line has no name part. */
  function AuthorOf(line: string, longDate: string, location: string): string
  {
    var tail := |longDate| + 2 + |location|;
    if |line| < tail + 3 then "" else line[..|line| - tail - 3]
  }

  /** The author name is recovered from every name line: the empty name
      leaves no trace, a non-empty one a " - " after it. */
  lemma AuthorOfNameLine(name: string, longDate: string, location: string)
    ensures AuthorOf(NameLine(name, longDate, location), longDate, location) == name
  {
    var line := NameLine(name, longDate, location);
    if name != "" {
      assert line[..|name| + 3][..|name|] == name;
    }
  }

  /** Two authors give the same name line, on the same day at the same
      place, only when they are the same author. */
  lemma NameLineInjective(a: string, b: string, longDate: string, location: string)
    requires NameLine(a, longDate, location) == NameLine(b, longDate, location)
    ensures a == b
  {
    AuthorOfNameLine(a, longDate, location);
    AuthorOfNameLine(b, longDate, location);
  }

  // ---------------------------------------------------------------------
  // Location label
  // ---------------------------------------------------------------------

  /** `placemarks?[0]`: no placemark when the list is missing. Swift traps on
      an empty list, so a present list must hold at least one placemark. */
  function FirstPlacemark(placemarks: Option<seq<Placemark>>): Option<Placemark>
    requires placemarks.Some? ==> |placemarks.value| > 0
  {
    match placemarks
    case None => None
    case Some(list) => Some(list[0])
  }

  /** Optional chaining `placemark?.administrativeArea`. */
  function AreaField(placemark: Option<Placemark>): Option<string> {
    match placemark
    case None => None
    case Some(p) => p.administrativeArea
  }

  /** Optional chaining `placemark?.country`. */
  function CountryField(placemark: Option<Placemark>): Option<string> {
    match placemark
    case None => None
    case Some(p) => p.country
  }

  /** The administrative area of an optional placemark, or "". */
  function AreaName(placemark: Option<Placemark>): string {
    if placemark.Some? then placemark.value.administrativeArea.GetOr("") else ""
  }

  /** The country of an optional placemark, or "". */
  function CountryName(placemark: Option<Placemark>): string {
    if placemark.Some? then placemark.value.country.GetOr("") else ""
  }

  /** The location label: administrative area and country around ", ",
      each field contributing "" when it or the placemark is missing. */
  function LocationLabel(placemark: Option<Placemark>): (r: string)
    ensures |r| == |AreaName(placemark)| + 2 + |CountryName(placemark)|
    ensures r[..|AreaName(placemark)|] == AreaName(placemark)
    ensures r[|AreaName(placemark)|..|AreaName(placemark)| + 2] == ListSeparator
    ensures r[|AreaName(placemark)| + 2..] == CountryName(placemark)
  {
    AreaField(placemark).GetOr("") + ListSeparator + CountryField(placemark).GetOr("")
  }

  /** The label always holds the separator; with no placemark, or with both
      fields missing, it is the bare separator. */
  lemma LocationLabelMissingFields(area: Option<string>, country: Option<string>)
    ensures LocationLabel(None) == ListSeparator
    ensures LocationLabel(Some(Placemark(None, None))) == ListSeparator
    ensures LocationLabel(Some(Placemark(None, country))) == ListSeparator + country.GetOr("")
    ensures LocationLabel(Some(Placemark(area, None))) == area.GetOr("") + ListSeparator
  {
  }

  /** The optional-chaining form used to build the label and the plain
      field-or-empty accessors agree on every placemark. */
  lemma FieldAccessorsAgree(placemark: Option<Placemark>)
    ensures AreaField(placemark).GetOr("") == AreaName(placemark)
    ensures CountryField(placemark).GetOr("") == CountryName(placemark)
  {
  }

  /** `locationString` as the geocoder's completion handler sets it: the
      label of the first placemark. No placemark list gives the bare ", ";
      otherwise the first placemark's area text, ", ", and its country text. */
  function LocationString(placemarks: Option<seq<Placemark>>): (r: string)
    requires placemarks.Some? ==> |placemarks.value| > 0
    ensures placemarks.None? ==> r == ListSeparator
    ensures placemarks.Some? ==>
      var first := placemarks.value[0];
      var area := first.administrativeArea.GetOr("");
      && |r| == |area| + 2 + |first.country.GetOr("")|
      && r[..|area|] == area
      && r[|area|..|area| + 2] == ListSeparator
      && r[|area| + 2..] == first.country.GetOr("")
  {
    LocationLabel(FirstPlacemark(placemarks))
  }

  /** Knowing the country, the area is read back from the label: the text
      before the last ", " plus the country. */
  lemma AreaFromLabel(placemark: Option<Placemark>)
    ensures var shown := LocationLabel(placemark);
      shown[..|shown| - |CountryName(placemark)| - 2] == AreaName(placemark)
  {
  }
}
