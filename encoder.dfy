/** data/celestrak.go, encoder part: the TLE checksum, the two regular-expression field
    splitters (written as explicit scans with Go's leftmost-first semantics), and
    `convertToTLE`, which assembles the two lines of a two-line element set. */
module TleEncoder {
  import opened Wrappers
  import opened GoFmt
  import opened Utils
  import opened Satellites
  import opened Formatting

  /** One record of CelesTrak's JSON GP feed. The floating-point fields are carried but
      never inspected: the model formats them only through `FieldFormatters`. */
  datatype CelestrakData = CelestrakData(
    objectName: string,
    objectId: string,
    epoch: string,
    meanMotion: real,
    eccentricity: real,
    inclination: real,
    raOfAscNode: real,
    argOfPericenter: real,
    meanAnomaly: real,
    ephemerisType: int,
    classificationType: string,
    noradCatId: int,
    elementSetNo: int,
    revAtEpoch: int,
    bStar: real,
    meanMotionDot: real,
    meanMotionDdot: real)

  /** The floating-point field formatters and the day-of-year parser, which the model
      takes as given functions: `formatMeanMotionDOT`, `formatWithoutDecimalPoint`,
      `formatAngles`, `formatEccentricity`, `formatMeanMotion` and `getDayOfYear`. */
  datatype FieldFormatters = FieldFormatters(
    meanMotionDot: real -> string,
    withoutDecimalPoint: real -> string,
    angles: real -> string,
    eccentricity: real -> string,
    meanMotion: real -> string,
    dayOfYear: string -> Option<string>)

  datatype EncodeError =
    | BadObjectId(objectId: string)
    | BadEpochYear(epoch: string)
    | BadEpochDay(epoch: string)
    | BadLineLength(line: string)

  // ---------------------------------------------------------------------------
  // Checksum

  /** The characters a TLE line is made of. */
  predicate TleChar(c: char)
  {
    IsDigit(c) || IsALetter(c) || c == ' ' || c == '.' || c == '+' || c == '-'
  }

  predicate TleText(s: string) { forall i :: 0 <= i < |s| ==> TleChar(s[i]) }

  /** What `checksumAsString` adds for one byte: 1 for '-', nothing for a space, '.', '+'
      or a letter, and the byte's code minus 48 for anything else. */
  function CharWeight(c: char): int
  {
    if c == '-' then 1
    else if c == ' ' || c == '.' || c == '+' || IsALetter(c) then 0
    else c as int - 48
  }

  /** The running total of `checksumAsString`'s loop over a prefix of the line. */
  function WeightedSum(s: string): int
  {
    if s == [] then 0 else WeightedSum(s[..|s| - 1]) + CharWeight(s[|s| - 1])
  }

  /** The published TLE checksum rule, stated independently: each digit counts its value,
      each minus sign counts one, everything else counts nothing. */
  function StandardWeight(c: char): nat
  {
    if IsDigit(c) then DigitValue(c) else if c == '-' then 1 else 0
  }

  function StandardSum(s: string): nat
  {
    if s == [] then 0 else StandardWeight(s[0]) + StandardSum(s[1..])
  }

  lemma {:induction false} StandardSumAppend(s: string, c: char)
    ensures StandardSum(s + [c]) == StandardSum(s) + StandardWeight(c)
    decreases |s|
  {
    if s == [] {
      assert [c][1..] == [];
    } else {
      assert (s + [c])[1..] == s[1..] + [c];
      StandardSumAppend(s[1..], c);
    }
  }

  /** On TLE text the source's weighting and the published rule agree. */
  lemma {:induction false} WeightedSumIsStandard(s: string)
    requires TleText(s)
    ensures WeightedSum(s) == StandardSum(s)
    decreases |s|
  {
    if s != [] {
      var init := s[..|s| - 1];
      var c := s[|s| - 1];
      assert TleText(init) by {
        forall i | 0 <= i < |init| ensures TleChar(init[i]) { assert init[i] == s[i]; }
      }
      WeightedSumIsStandard(init);
      assert s == init + [c];
      StandardSumAppend(init, c);
      assert TleChar(c);
    }
  }

  /** A finished TLE line by the published rule: 68 characters of TLE text followed by the
      digit that is their standard sum modulo 10. */
  predicate ValidTleLine(line: string)
  {
    |line| == 69 && TleText(line[..68]) && line[68] == DigitChar(StandardSum(line[..68]) % 10)
  }

  /** `checksumAsString`: an error unless the line has 68 characters; otherwise `%d` of the
      weighted sum's Go remainder modulo 10. */
  function Checksum(line: string): (r: Result<string, EncodeError>)
    ensures r.Failure? <==> |line| != 68
    ensures r.Failure? ==> r.error == BadLineLength(line)
    ensures r.Success? && TleText(line) ==> r.value == [DigitChar(StandardSum(line) % 10)]
  {
    if |line| != 68 then Failure(BadLineLength(line))
    else
      assert TleText(line) ==> WeightedSum(line) == StandardSum(line) by {
        if TleText(line) { WeightedSumIsStandard(line); }
      }
      Success(IntToString(GoRem10(WeightedSum(line))))
  }

  /** The loop of `checksumAsString`, accumulating over the 68 positions. */
  method ChecksumAsString(line: string) returns (r: Result<string, EncodeError>)
    ensures r == Checksum(line)
  {
    var checksum := 0;
    if |line| != 68 {
      return Failure(BadLineLength(line));
    }
    for i := 0 to 68
      invariant checksum == WeightedSum(line[..i])
    {
      assert line[..i + 1][..i] == line[..i];
      if line[i] == '-' {
        checksum := checksum + 1;
      } else if line[i] != ' ' && line[i] != '.' && line[i] != '+' && !IsALetter(line[i]) {
        checksum := checksum + line[i] as int - 48;
      }
    }
    assert line[..68] == line;
    return Success(IntToString(GoRem10(checksum)));
  }

  /** A line that ends with the checksum of its first 68 characters. */
  predicate Checksummed(line: string)
  {
    |line| > 68 && Checksum(line[..68]) == Success(line[68..])
  }

  /** A checksummed line made of TLE text is a valid TLE line. */
  lemma ChecksummedTextIsValid(line: string)
    requires Checksummed(line) && TleText(line[..68])
    ensures ValidTleLine(line)
  {
    assert line[68..] == [line[68]];
  }

  /** Conversely, `Checksum` reproduces the check digit of every valid TLE line. */
  lemma ValidLineIsChecksummed(line: string)
    requires ValidTleLine(line)
    ensures Checksummed(line)
  {
    assert line[68..] == [line[68]];
  }

  // ---------------------------------------------------------------------------
  // Regular-expression scans. Go's `.` matches any character but '\n', so a match
  // never crosses a line break.

  /** The first '\n' at or after `p`, or the end of `s`. */
  function LineEnd(s: string, p: nat): (e: nat)
    requires p <= |s|
    ensures p <= e <= |s|
    ensures e < |s| ==> s[e] == '\n'
    ensures forall i :: p <= i < e ==> s[i] != '\n'
    decreases |s| - p
  {
    if p == |s| || s[p] == '\n' then p else LineEnd(s, p + 1)
  }

  predicate NoNewline(s: string) { forall i :: 0 <= i < |s| ==> s[i] != '\n' }

  /** The last '-' in `s[lo..hi]`. */
  function LastDash(s: string, lo: nat, hi: nat): (k: Option<nat>)
    requires hi <= |s|
    ensures k.Some? ==> lo <= k.value < hi && s[k.value] == '-'
    ensures k.Some? ==> forall j :: k.value < j < hi ==> s[j] != '-'
    ensures k.None? ==> forall j :: lo <= j < hi ==> s[j] != '-'
    decreases hi
  {
    if hi <= lo then None
    else if s[hi - 1] == '-' then Some(hi - 1)
    else LastDash(s, lo, hi - 1)
  }

  /** A match of `[0-9]{2}(.+)-(.+)`: two digits at `start`, the group-separating '-' at
      `dash`, and the match ending at `end`. */
  datatype CosparMatch = CosparMatch(start: nat, dash: nat, end: nat)

  /** The match that starts at `p`, if any. Both groups are greedy: the second runs to the
      end of the line, and the first stops at the last '-' that leaves the second one
      character at least. */
  function CosparMatchAt(s: string, p: nat): (m: Option<CosparMatch>)
    ensures m.Some? ==> m.value.start == p && p + 3 <= m.value.dash && m.value.dash + 2 <= m.value.end <= |s|
    ensures m.Some? ==> IsDigit(s[p]) && IsDigit(s[p + 1]) && s[m.value.dash] == '-'
  {
    if p + 1 < |s| && IsDigit(s[p]) && IsDigit(s[p + 1]) then
      var e := LineEnd(s, p);
      match LastDash(s, p + 3, e - 1)
      case None => None
      case Some(k) => Some(CosparMatch(p, k, e))
    else None
  }

  /** The leftmost match starting at or after `from`. */
  function FirstCosparMatch(s: string, from: nat): (m: Option<CosparMatch>)
    ensures m.Some? ==> from <= m.value.start && CosparMatchAt(s, m.value.start) == m
    ensures m.Some? ==> forall p :: from <= p < m.value.start ==> CosparMatchAt(s, p).None?
    ensures m.None? ==> forall p :: from <= p ==> CosparMatchAt(s, p).None?
    decreases |s| - from
  {
    if from >= |s| then None
    else
      match CosparMatchAt(s, from)
      case Some(m) => Some(m)
      case None => FirstCosparMatch(s, from + 1)
  }

  /** `objectIDToCOSPARID`: exactly one match is required; the result is the first group
      (the year's last two digits), the second group (launch number and piece), and
      `6 - len(second group)` spaces, none when that is negative. */
  function CosparId(objectId: string): (r: Result<string, EncodeError>)
    ensures r.Failure? ==> r.error == BadObjectId(objectId)
    ensures r.Success? ==> |r.value| >= 7
  {
    match FirstCosparMatch(objectId, 0)
    case None => Failure(BadObjectId(objectId))
    case Some(m) =>
      if FirstCosparMatch(objectId, m.end).Some? then Failure(BadObjectId(objectId))
      else
        var launch := objectId[m.dash + 1..m.end];
        Success(objectId[m.start + 2..m.dash] + launch + Spaces(6 - |launch|))
  }

  /** The Go function, with its loop that grows the trailing spaces one at a time. */
  method ObjectIdToCosparId(objectId: string) returns (r: Result<string, EncodeError>)
    ensures r == CosparId(objectId)
  {
    var m := FirstCosparMatch(objectId, 0);
    if m.None? || FirstCosparMatch(objectId, m.value.end).Some? {
      return Failure(BadObjectId(objectId));
    }
    var launch := objectId[m.value.dash + 1..m.value.end];
    var trailingSpaceNumber := 6 - |launch|;
    var trailingSpaces := "";
    var i := 0;
    while i < trailingSpaceNumber
      invariant 0 <= i <= if trailingSpaceNumber < 0 then 0 else trailingSpaceNumber
      invariant trailingSpaces == Spaces(i)
    {
      trailingSpaces := trailingSpaces + " ";
      i := i + 1;
      assert Spaces(i) == Spaces(i - 1) + " " by { SpacesGrow(i - 1); }
    }
    assert trailingSpaces == Spaces(trailingSpaceNumber);
    return Success(objectId[m.value.start + 2..m.value.dash] + launch + trailingSpaces);
  }

  lemma SpacesGrow(k: nat)
    ensures Spaces(k + 1) == Spaces(k) + " "
  {
    assert |Spaces(k + 1)| == |Spaces(k) + " "|;
  }

  /** The shape the COSPAR pattern looks for, stated without any scanning: two digits at
      `p`, at least one character, a '-' at `k`, at least one character after it. */
  predicate CosparShapeAt(s: string, p: nat, k: nat)
  {
    p + 3 <= k && k + 2 <= |s| && IsDigit(s[p]) && IsDigit(s[p + 1]) && s[k] == '-'
  }

  lemma CosparMatchAtOneLine(s: string, p: nat)
    requires NoNewline(s)
    ensures CosparMatchAt(s, p).Some? <==> exists k: nat :: CosparShapeAt(s, p, k)
    ensures CosparMatchAt(s, p).Some? ==> CosparMatchAt(s, p).value.end == |s|
    ensures CosparMatchAt(s, p).Some? ==>
      forall k: nat :: CosparShapeAt(s, p, k) ==> k <= CosparMatchAt(s, p).value.dash
  {
    if p + 1 < |s| && IsDigit(s[p]) && IsDigit(s[p + 1]) {
      var e := LineEnd(s, p);
      assert e == |s|;
      if CosparMatchAt(s, p).Some? {
        assert CosparShapeAt(s, p, CosparMatchAt(s, p).value.dash);
      }
    }
  }

  /** On a one-line object id, the conversion fails exactly when the shape occurs nowhere. */
  lemma CosparIdFailsWithoutShape(s: string)
    requires NoNewline(s)
    ensures CosparId(s).Failure? <==> !exists p: nat, k: nat :: CosparShapeAt(s, p, k)
  {
    var m := FirstCosparMatch(s, 0);
    if m.Some? {
      CosparMatchAtOneLine(s, m.value.start);
      assert CosparShapeAt(s, m.value.start, m.value.dash);
      assert FirstCosparMatch(s, m.value.end).None?;
    } else {
      forall p: nat, k: nat ensures !CosparShapeAt(s, p, k) {
        CosparMatchAtOneLine(s, p);
      }
    }
  }

  /** On a one-line object id the leftmost shape wins, and within it the last '-':
      the result is the two digits after the first two, the text after the '-', and the
      padding. */
  lemma CosparIdLeftmostGreedy(s: string, p: nat, k: nat)
    requires NoNewline(s) && CosparShapeAt(s, p, k)
    requires forall q: nat, j: nat :: q < p ==> !CosparShapeAt(s, q, j)
    requires forall j :: k < j < |s| - 1 ==> s[j] != '-'
    ensures CosparId(s) == Success(s[p + 2..k] + s[k + 1..] + Spaces(6 - (|s| - k - 1)))
  {
    CosparMatchAtOneLine(s, p);
    var m := FirstCosparMatch(s, 0);
    assert m.Some?;
    forall q | 0 <= q < p ensures CosparMatchAt(s, q).None? {
      CosparMatchAtOneLine(s, q);
    }
    assert m.value.start == p;
    assert m.value.dash == k;
    assert m.value.end == |s|;
    assert FirstCosparMatch(s, |s|).None?;
    assert s[k + 1..m.value.end] == s[k + 1..];
  }

  /** An international designator `YYYY-NNN` followed by one to three piece letters. */
  predicate InternationalDesignator(id: string)
  {
    9 <= |id| <= 11 && AllDigits(id[..4]) && id[4] == '-' && AllDigits(id[5..8]) &&
    forall i :: 8 <= i < |id| ==> 'A' <= id[i] <= 'Z'
  }

  /** A well-formed designator becomes the eight columns of TLE line 1, fields 4-6. */
  lemma DesignatorToCospar(id: string)
    requires InternationalDesignator(id)
    ensures CosparId(id) == Success(id[2..4] + id[5..] + Spaces(11 - |id|))
    ensures |CosparId(id).value| == 8
  {
    assert IsDigit(id[..4][0]) && IsDigit(id[..4][1]);
    assert CosparShapeAt(id, 0, 4);
    forall j | 4 < j < |id| - 1 ensures id[j] != '-' {
      if j < 8 { assert id[5..8][j - 5] == id[j]; }
    }
    assert NoNewline(id) by {
      forall i | 0 <= i < |id| ensures id[i] != '\n' {
        if i < 4 { assert id[..4][i] == id[i]; }
        else if 5 <= i < 8 { assert id[5..8][i - 5] == id[i]; }
      }
    }
    CosparIdLeftmostGreedy(id, 0, 4);
  }

  lemma IsDesignatorExample(id: string)
    requires id == "1964-063C"
    ensures InternationalDesignator(id)
  {
    assert id[..4] == "1964" && id[5..8] == "063";
    assert AllDigits(id[..4]) && AllDigits(id[5..8]);
  }

  /** The object id of CALSPHERE 1 gives the COSPAR columns "64063C  ". */
  lemma CosparIdExample(id: string)
    requires id == "1964-063C"
    ensures CosparId(id) == Success("64063C  ")
  {
    IsDesignatorExample(id);
    DesignatorToCospar(id);
    CosparColumnsExample(id);
  }

  lemma CosparColumnsExample(id: string)
    requires id == "1964-063C"
    ensures id[2..4] + id[5..] + Spaces(11 - |id|) == "64063C  "
  {
    assert id[2..4] == "64" && id[5..] == "063C";
    assert Spaces(11 - |id|) == "  ";
  }

  /** A match of `[0-9]{2}([0-9]{2}).+` at `p`: four digits and one more character on the
      same line. */
  predicate YearMatchAt(s: string, p: nat)
  {
    p + 4 < |s| && IsDigit(s[p]) && IsDigit(s[p + 1]) && IsDigit(s[p + 2]) && IsDigit(s[p + 3]) &&
    s[p + 4] != '\n'
  }

  function FirstYearMatch(s: string, from: nat): (p: Option<nat>)
    ensures p.Some? ==> from <= p.value && YearMatchAt(s, p.value)
    ensures p.Some? ==> forall q :: from <= q < p.value ==> !YearMatchAt(s, q)
    ensures p.None? ==> forall q :: from <= q ==> !YearMatchAt(s, q)
    decreases |s| - from
  {
    if from >= |s| then None
    else if YearMatchAt(s, from) then Some(from)
    else FirstYearMatch(s, from + 1)
  }

  /** `getLast2DigitsOfYear`: exactly one match is required (the trailing `.+` runs to the
      end of the line); the result is its group, the third and fourth digits. */
  function Last2DigitsOfYear(epoch: string): (r: Result<string, EncodeError>)
    ensures r.Failure? ==> r.error == BadEpochYear(epoch)
    ensures r.Success? ==> |r.value| == 2 && AllDigits(r.value)
  {
    match FirstYearMatch(epoch, 0)
    case None => Failure(BadEpochYear(epoch))
    case Some(p) =>
      if FirstYearMatch(epoch, LineEnd(epoch, p + 4)).Some? then Failure(BadEpochYear(epoch))
      else Success(epoch[p + 2..p + 4])
  }

  /** On a one-line epoch: the year is read from the leftmost run of four digits that has
      a character after it, and the call fails exactly when there is no such run. */
  lemma Last2DigitsFailsWithoutRun(s: string)
    requires NoNewline(s)
    ensures Last2DigitsOfYear(s).Failure? <==> !exists p: nat :: YearMatchAt(s, p)
  {
    var m := FirstYearMatch(s, 0);
    if m.Some? {
      var e := LineEnd(s, m.value + 4);
      assert e == |s|;
    }
  }

  lemma Last2DigitsLeftmost(s: string, p: nat)
    requires NoNewline(s) && YearMatchAt(s, p)
    requires forall q: nat :: q < p ==> !YearMatchAt(s, q)
    ensures Last2DigitsOfYear(s) == Success(s[p + 2..p + 4])
  {
    var m := FirstYearMatch(s, 0);
    assert m == Some(p);
    var e := LineEnd(s, p + 4);
    assert e == |s|;
  }

  lemma Last2DigitsExample(s: string)
    requires s == "2022-02-09T12:04:21.971712"
    ensures Last2DigitsOfYear(s) == Success("22")
  {
    EpochExampleShape(s);
    Last2DigitsLeftmost(s, 0);
  }

  lemma EpochExampleShape(s: string)
    requires s == "2022-02-09T12:04:21.971712"
    ensures NoNewline(s) && YearMatchAt(s, 0) && s[2..4] == "22"
  {
  }

  // ---------------------------------------------------------------------------
  // Line assembly

  function Line1WithoutChecksum(data: CelestrakData, fmt: FieldFormatters, cosparId: string, year: string, day: string): string
  {
    ("1 " + ZeroPad5(data.noradCatId) + data.classificationType + " " + cosparId + " " + year + day) +
    (" " + fmt.meanMotionDot(data.meanMotionDot) + " " + fmt.withoutDecimalPoint(data.meanMotionDdot) +
     " " + fmt.withoutDecimalPoint(data.bStar) + " 0 " + FormatWithLeadingSpaces(data.elementSetNo))
  }

  function Line2WithoutChecksum(data: CelestrakData, fmt: FieldFormatters): string
  {
    ("2 " + ZeroPad5(data.noradCatId) + " " + fmt.angles(data.inclination) + " " + fmt.angles(data.raOfAscNode) +
     " " + fmt.eccentricity(data.eccentricity)) +
    (" " + fmt.angles(data.argOfPericenter) + " " + fmt.angles(data.meanAnomaly) + " " +
     fmt.meanMotion(data.meanMotion) + FormatRevNumber(data.revAtEpoch))
  }

  /** The checksum half of `convertToTLE`, once the COSPAR id and the epoch fields are known. */
  function AppendChecksums(name: string, noradId: int, line1: string, line2: string): (r: Result<Satellite, EncodeError>)
    ensures r.Failure? <==> |line1| != 68 || |line2| != 68
    ensures r.Failure? ==> r.error == BadLineLength(if |line1| != 68 then line1 else line2)
    ensures r.Success? ==> r.value.satelliteName == name && r.value.noradId == noradId
    ensures r.Success? ==> Checksummed(r.value.tleLine1) && r.value.tleLine1[..68] == line1
    ensures r.Success? ==> Checksummed(r.value.tleLine2) && r.value.tleLine2[..68] == line2
  {
    match Checksum(line1)
    case Failure(e) => Failure(e)
    case Success(checksum1) =>
      match Checksum(line2)
      case Failure(e) => Failure(e)
      case Success(checksum2) =>
        assert (line1 + checksum1)[..68] == line1 && (line1 + checksum1)[68..] == checksum1;
        assert (line2 + checksum2)[..68] == line2 && (line2 + checksum2)[68..] == checksum2;
        Success(Satellite(name, noradId, line1 + checksum1, line2 + checksum2))
  }

  /** `convertToTLE`: the COSPAR id, the two epoch fields, then both lines with their
      checksums; the first step that fails gives the error. */
  function ConvertToTLE(data: CelestrakData, fmt: FieldFormatters): Result<Satellite, EncodeError>
  {
    match CosparId(data.objectId)
    case Failure(e) => Failure(e)
    case Success(cosparId) =>
      match Last2DigitsOfYear(data.epoch)
      case Failure(e) => Failure(e)
      case Success(year) =>
        match fmt.dayOfYear(data.epoch)
        case None => Failure(BadEpochDay(data.epoch))
        case Some(day) =>
          AppendChecksums(data.objectName, data.noradCatId,
            Line1WithoutChecksum(data, fmt, cosparId, year, day), Line2WithoutChecksum(data, fmt))
  }

  /** The errors of `convertToTLE` in the order its steps run, and what a converted
      satellite holds: the record's name and NORAD id and two checksummed lines. */
  lemma ConvertToTLESpec(data: CelestrakData, fmt: FieldFormatters)
    ensures var r := ConvertToTLE(data, fmt);
      (CosparId(data.objectId).Failure? ==> r == Failure(BadObjectId(data.objectId))) &&
      (CosparId(data.objectId).Success? && Last2DigitsOfYear(data.epoch).Failure? ==>
         r == Failure(BadEpochYear(data.epoch))) &&
      ((CosparId(data.objectId).Success? && Last2DigitsOfYear(data.epoch).Success? &&
        fmt.dayOfYear(data.epoch).None?) ==> r == Failure(BadEpochDay(data.epoch))) &&
      (|Line2WithoutChecksum(data, fmt)| != 68 ==> r.Failure?) &&
      (r.Failure? && r.error.BadLineLength? ==> |r.error.line| != 68) &&
      (r.Success? ==> r.value.satelliteName == data.objectName && r.value.noradId == data.noradCatId) &&
      (r.Success? ==> Checksummed(r.value.tleLine1) && Checksummed(r.value.tleLine2)) &&
      (r.Success? ==> r.value.tleLine2[..68] == Line2WithoutChecksum(data, fmt)) &&
      (r.Success? ==>
         CosparId(data.objectId).Success? && Last2DigitsOfYear(data.epoch).Success? &&
         fmt.dayOfYear(data.epoch).Some? &&
         r.value.tleLine1[..68] == Line1WithoutChecksum(data, fmt, CosparId(data.objectId).value,
           Last2DigitsOfYear(data.epoch).value, fmt.dayOfYear(data.epoch).value))
  {
  }

  /** `sat, _ := convertToTLE(data)`: the zero Satellite when the conversion fails. */
  function ConvertOrZero(data: CelestrakData, fmt: FieldFormatters): Satellite
  {
    match ConvertToTLE(data, fmt)
    case Success(s) => s
    case Failure(_) => ZeroSatellite
  }
}
