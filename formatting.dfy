/** data/celestrak-formatting.go, integer part: the right-justified element-set number
    (TLE line 1, columns 65-68) and revolution number (TLE line 2, columns 64-68). */
module Formatting {
  import opened Wrappers
  import opened GoFmt

  /** Element-set number: one space below 1000, two below 100, three below 10, then `%d`. */
  function FormatWithLeadingSpaces(element: int): (r: string)
    ensures var d := IntToString(element);
      |r| >= |d| && r[|r| - |d|..] == d && AllSpaces(r[..|r| - |d|])
    ensures 0 <= element <= 9999 ==> |r| == 4
    ensures element >= 1000 ==> r == IntToString(element)
    ensures element >= 10000 ==> |r| > 4
  {
    var leadingSpaces :=
      if element < 1000 then
        if element < 100 then
          if element < 10 then "   " else "  "
        else " "
      else "";
    IntToStringWidth(element);
    leadingSpaces + IntToString(element)
  }

  /** Revolution number: one space below 10000, two below 1000, three below 100, four
      below 10, then `%d`. */
  function FormatRevNumber(revNumber: int): (r: string)
    ensures var d := IntToString(revNumber);
      |r| >= |d| && r[|r| - |d|..] == d && AllSpaces(r[..|r| - |d|])
    ensures 0 <= revNumber <= 99999 ==> |r| == 5
    ensures revNumber >= 10000 ==> r == IntToString(revNumber)
    ensures revNumber >= 100000 ==> |r| > 5
  {
    var leadingSpaces :=
      if revNumber < 10000 then
        if revNumber < 1000 then
          if revNumber < 100 then
            if revNumber < 10 then "    " else "   "
          else "  "
        else " "
      else "";
    IntToStringWidth(revNumber);
    leadingSpaces + IntToString(revNumber)
  }

  /** Stripping the padding of an element-set number and parsing it gives the number back,
      and the digits carry no leading zero. */
  lemma FormatWithLeadingSpacesRoundTrip(element: int)
    ensures var digits := TrimLeadingSpaces(FormatWithLeadingSpaces(element));
      Atoi(digits) == Some(element) && (element > 0 ==> digits[0] != '0')
  {
    var r := FormatWithLeadingSpaces(element);
    var d := IntToString(element);
    assert r == r[..|r| - |d|] + d;
    TrimSpacesBeforeText(r[..|r| - |d|], d);
    IntToStringRoundTrip(element);
  }

  /** The same round trip for the revolution number. */
  lemma FormatRevNumberRoundTrip(revNumber: int)
    ensures var digits := TrimLeadingSpaces(FormatRevNumber(revNumber));
      Atoi(digits) == Some(revNumber) && (revNumber > 0 ==> digits[0] != '0')
  {
    var r := FormatRevNumber(revNumber);
    var d := IntToString(revNumber);
    assert r == r[..|r| - |d|] + d;
    TrimSpacesBeforeText(r[..|r| - |d|], d);
    IntToStringRoundTrip(revNumber);
  }
}
