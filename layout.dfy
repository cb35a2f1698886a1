/** The fixed-column layout of the two lines `convertToTLE` writes, and how it reads back:
    the NORAD id columns of line 2 parse to the record's catalog number, so a converted
    satellite written as a three-line entry is extracted unchanged from a TLE file. */
module TleLayout {
  import opened Wrappers
  import opened GoFmt
  import opened Satellites
  import opened Formatting
  import opened TleEncoder
  import opened TleFile
  import opened Celestrak

  /** A formatted field of exactly `width` columns of TLE text. */
  predicate Field(s: string, width: nat) { |s| == width && TleText(s) }

  lemma TleTextAppend(a: string, b: string)
    requires TleText(a) && TleText(b)
    ensures TleText(a + b)
  {
    forall i | 0 <= i < |a + b| ensures TleChar((a + b)[i]) {
      if i >= |a| { assert (a + b)[i] == b[i - |a|]; }
    }
  }

  lemma DigitsAreText(s: string)
    requires AllDigits(s)
    ensures TleText(s)
  {
  }

  /** `%05d` of a catalog number fills the five NORAD columns with digits that read back. */
  lemma NoradField(n: int)
    requires 0 <= n < 100000
    ensures Field(ZeroPad5(n), 5) && Atoi(ZeroPad5(n)) == Some(n)
  {
    ZeroPad5RoundTrip(n);
  }

  lemma PaddedDigitsAreText(r: string, d: string)
    requires |r| >= |d| && r[|r| - |d|..] == d && AllSpaces(r[..|r| - |d|]) && AllDigits(d)
    ensures TleText(r)
  {
    assert r == r[..|r| - |d|] + d;
    TleTextAppend(r[..|r| - |d|], d);
  }

  lemma ElementSetField(n: int)
    requires 0 <= n < 10000
    ensures Field(FormatWithLeadingSpaces(n), 4)
  {
    PaddedDigitsAreText(FormatWithLeadingSpaces(n), IntToString(n));
  }

  lemma RevNumberField(n: int)
    requires 0 <= n < 100000
    ensures Field(FormatRevNumber(n), 5)
  {
    PaddedDigitsAreText(FormatRevNumber(n), IntToString(n));
  }

  /** Where the pieces of a three-part concatenation sit. */
  lemma Parts3(a: string, b: string, c: string)
    ensures (a + b + c)[..|a|] == a && (a + b + c)[|a|..|a| + |b|] == b && (a + b + c)[|a| + |b|..] == c
  {
  }

  /** Columns 1-32 of line 1: line number, NORAD id, classification, COSPAR id, epoch. */
  lemma Line1Head(norad: string, classification: string, cosparId: string, year: string, day: string)
    requires Field(norad, 5) && Field(classification, 1) && Field(cosparId, 8) && Field(year, 2) && Field(day, 12)
    ensures var a := "1 " + norad + classification + " " + cosparId + " " + year + day;
      |a| == 32 && TleText(a) && a[..2] == "1 " && a[2..7] == norad && a[7..8] == classification &&
      a[9..17] == cosparId && a[18..20] == year && a[20..32] == day
  {
    var a := "1 " + norad + classification + " " + cosparId + " " + year + day;
    var p := "1 " + norad + classification;
    var q := " " + cosparId + " ";
    var r := year + day;
    assert a == p + q + r;
    Parts3("1 ", norad, classification);
    Parts3(" ", cosparId, " ");
    Parts3(year, day, "");
    Parts3(p, q, r);
    assert TleText(a);
  }

  /** Columns 33-68 of line 1: the two mean-motion derivatives, BSTAR, the ephemeris type
      and the element set number. */
  lemma Line1Tail(mmDot: string, mmDdot: string, bStar: string, elementSet: string)
    requires Field(mmDot, 10) && Field(mmDdot, 8) && Field(bStar, 8) && Field(elementSet, 4)
    ensures var t := " " + mmDot + " " + mmDdot + " " + bStar + " 0 " + elementSet;
      |t| == 36 && TleText(t) && t[1..11] == mmDot && t[12..20] == mmDdot && t[21..29] == bStar &&
      t[30] == '0' && t[32..36] == elementSet
  {
    var t := " " + mmDot + " " + mmDdot + " " + bStar + " 0 " + elementSet;
    var p := " " + mmDot + " ";
    var q := mmDdot + " " + bStar;
    var r := " 0 " + elementSet;
    assert t == p + q + r;
    Parts3(" ", mmDot, " ");
    Parts3(mmDdot, " ", bStar);
    Parts3(" 0 ", elementSet, "");
    Parts3(p, q, r);
    assert TleText(t);
  }

  /** Line 1 without its checksum: 68 columns of TLE text with each field in its columns. */
  lemma Line1Layout(data: CelestrakData, fmt: FieldFormatters, cosparId: string, year: string, day: string)
    requires 0 <= data.noradCatId < 100000 && Field(data.classificationType, 1)
    requires Field(cosparId, 8) && Field(year, 2) && Field(day, 12)
    requires Field(fmt.meanMotionDot(data.meanMotionDot), 10)
    requires Field(fmt.withoutDecimalPoint(data.meanMotionDdot), 8) && Field(fmt.withoutDecimalPoint(data.bStar), 8)
    requires 0 <= data.elementSetNo < 10000
    ensures var line := Line1WithoutChecksum(data, fmt, cosparId, year, day);
      |line| == 68 && TleText(line) &&
      line[..2] == "1 " && line[2..7] == ZeroPad5(data.noradCatId) && line[7..8] == data.classificationType &&
      line[9..17] == cosparId && line[18..20] == year && line[20..32] == day &&
      line[33..43] == fmt.meanMotionDot(data.meanMotionDot) &&
      line[44..52] == fmt.withoutDecimalPoint(data.meanMotionDdot) &&
      line[53..61] == fmt.withoutDecimalPoint(data.bStar) && line[62] == '0' &&
      line[64..68] == FormatWithLeadingSpaces(data.elementSetNo)
  {
    NoradField(data.noradCatId);
    ElementSetField(data.elementSetNo);
    var norad, mmDot := ZeroPad5(data.noradCatId), fmt.meanMotionDot(data.meanMotionDot);
    var mmDdot, bStar := fmt.withoutDecimalPoint(data.meanMotionDdot), fmt.withoutDecimalPoint(data.bStar);
    var elementSet := FormatWithLeadingSpaces(data.elementSetNo);
    Line1Head(norad, data.classificationType, cosparId, year, day);
    Line1Tail(mmDot, mmDdot, bStar, elementSet);
    var a := "1 " + norad + data.classificationType + " " + cosparId + " " + year + day;
    var t := " " + mmDot + " " + mmDdot + " " + bStar + " 0 " + elementSet;
    var line := Line1WithoutChecksum(data, fmt, cosparId, year, day);
    assert line == a + t;
    Parts3(a, t, "");
    TleTextAppend(a, t);
    assert line[33..43] == t[1..11] && line[44..52] == t[12..20] && line[53..61] == t[21..29];
    assert line[62] == t[30] && line[64..68] == t[32..36];
  }

  /** Columns 1-33 of line 2: line number, NORAD id, inclination, right ascension of the
      ascending node, eccentricity. */
  lemma Line2Head(norad: string, inclination: string, raan: string, eccentricity: string)
    requires Field(norad, 5) && Field(inclination, 8) && Field(raan, 8) && Field(eccentricity, 7)
    ensures var a := "2 " + norad + " " + inclination + " " + raan + " " + eccentricity;
      |a| == 33 && TleText(a) && a[..2] == "2 " && a[2..7] == norad && a[8..16] == inclination &&
      a[17..25] == raan && a[26..33] == eccentricity
  {
    var a := "2 " + norad + " " + inclination + " " + raan + " " + eccentricity;
    var p := "2 " + norad + " ";
    var q := inclination + " " + raan;
    var r := " " + eccentricity;
    assert a == p + q + r;
    Parts3("2 ", norad, " ");
    Parts3(inclination, " ", raan);
    Parts3(" ", eccentricity, "");
    Parts3(p, q, r);
    assert TleText(a);
  }

  /** Columns 34-68 of line 2: argument of perigee, mean anomaly, mean motion and the
      revolution number. */
  lemma Line2Tail(argOfPericenter: string, meanAnomaly: string, meanMotion: string, rev: string)
    requires Field(argOfPericenter, 8) && Field(meanAnomaly, 8) && Field(meanMotion, 11) && Field(rev, 5)
    ensures var t := " " + argOfPericenter + " " + meanAnomaly + " " + meanMotion + rev;
      |t| == 35 && TleText(t) && t[1..9] == argOfPericenter && t[10..18] == meanAnomaly &&
      t[19..30] == meanMotion && t[30..35] == rev
  {
    var t := " " + argOfPericenter + " " + meanAnomaly + " " + meanMotion + rev;
    var p := " " + argOfPericenter + " ";
    var q := meanAnomaly + " " + meanMotion;
    assert t == p + q + rev;
    Parts3(" ", argOfPericenter, " ");
    Parts3(meanAnomaly, " ", meanMotion);
    Parts3(p, q, rev);
    assert TleText(t);
  }

  /** Line 2 without its checksum: 68 columns of TLE text with each field in its columns. */
  lemma Line2Layout(data: CelestrakData, fmt: FieldFormatters)
    requires 0 <= data.noradCatId < 100000
    requires Field(fmt.angles(data.inclination), 8) && Field(fmt.angles(data.raOfAscNode), 8)
    requires Field(fmt.eccentricity(data.eccentricity), 7)
    requires Field(fmt.angles(data.argOfPericenter), 8) && Field(fmt.angles(data.meanAnomaly), 8)
    requires Field(fmt.meanMotion(data.meanMotion), 11)
    requires 0 <= data.revAtEpoch < 100000
    ensures var line := Line2WithoutChecksum(data, fmt);
      |line| == 68 && TleText(line) &&
      line[..2] == "2 " && line[2..7] == ZeroPad5(data.noradCatId) &&
      line[8..16] == fmt.angles(data.inclination) && line[17..25] == fmt.angles(data.raOfAscNode) &&
      line[26..33] == fmt.eccentricity(data.eccentricity) &&
      line[34..42] == fmt.angles(data.argOfPericenter) && line[43..51] == fmt.angles(data.meanAnomaly) &&
      line[52..63] == fmt.meanMotion(data.meanMotion) && line[63..68] == FormatRevNumber(data.revAtEpoch)
  {
    NoradField(data.noradCatId);
    RevNumberField(data.revAtEpoch);
    var norad := ZeroPad5(data.noradCatId);
    var incl, raan := fmt.angles(data.inclination), fmt.angles(data.raOfAscNode);
    var ecc := fmt.eccentricity(data.eccentricity);
    var argp, ma := fmt.angles(data.argOfPericenter), fmt.angles(data.meanAnomaly);
    var mm, rev := fmt.meanMotion(data.meanMotion), FormatRevNumber(data.revAtEpoch);
    Line2Head(norad, incl, raan, ecc);
    Line2Tail(argp, ma, mm, rev);
    var a := "2 " + norad + " " + incl + " " + raan + " " + ecc;
    var t := " " + argp + " " + ma + " " + mm + rev;
    var line := Line2WithoutChecksum(data, fmt);
    assert line == a + t;
    Parts3(a, t, "");
    TleTextAppend(a, t);
    assert line[34..42] == t[1..9] && line[43..51] == t[10..18];
    assert line[52..63] == t[19..30] && line[63..68] == t[30..35];
  }

  /** A well-formed international designator gives eight columns of TLE text. */
  lemma CosparField(id: string)
    requires InternationalDesignator(id)
    ensures CosparId(id).Success? && Field(CosparId(id).value, 8)
  {
    DesignatorToCospar(id);
    var v := id[2..4] + id[5..] + Spaces(11 - |id|);
    forall i | 0 <= i < |v| ensures TleChar(v[i]) {
      if i < 2 {
        assert v[i] == id[..4][i + 2];
      } else if i < |id| - 3 {
        assert v[i] == id[i + 3];
        if i + 3 < 8 { assert id[5..8][i - 2] == id[i + 3]; }
      }
    }
  }

  /** A record whose fields all fit their columns: the catalog number, element set number
      and revolution number in range, a one-character classification, a well-formed
      international designator, an epoch that starts with a four-digit year on one line,
      and float fields formatted to their widths. */
  predicate FitsColumns(data: CelestrakData, fmt: FieldFormatters)
  {
    0 <= data.noradCatId < 100000 && Field(data.classificationType, 1) &&
    InternationalDesignator(data.objectId) &&
    NoNewline(data.epoch) && YearMatchAt(data.epoch, 0) &&
    fmt.dayOfYear(data.epoch).Some? && Field(fmt.dayOfYear(data.epoch).value, 12) &&
    Field(fmt.meanMotionDot(data.meanMotionDot), 10) &&
    Field(fmt.withoutDecimalPoint(data.meanMotionDdot), 8) && Field(fmt.withoutDecimalPoint(data.bStar), 8) &&
    0 <= data.elementSetNo < 10000 &&
    Field(fmt.angles(data.inclination), 8) && Field(fmt.angles(data.raOfAscNode), 8) &&
    Field(fmt.eccentricity(data.eccentricity), 7) &&
    Field(fmt.angles(data.argOfPericenter), 8) && Field(fmt.angles(data.meanAnomaly), 8) &&
    Field(fmt.meanMotion(data.meanMotion), 11) &&
    0 <= data.revAtEpoch < 100000
  }

  /** For a record that fits the columns, the COSPAR id, year and day steps succeed and
      the conversion is the checksumming of the two assembled lines. */
  lemma FittingRecordSteps(data: CelestrakData, fmt: FieldFormatters)
    requires FitsColumns(data, fmt)
    ensures CosparId(data.objectId).Success? && Field(CosparId(data.objectId).value, 8)
    ensures Last2DigitsOfYear(data.epoch) == Success(data.epoch[2..4]) && Field(data.epoch[2..4], 2)
    ensures ConvertToTLE(data, fmt) ==
      AppendChecksums(data.objectName, data.noradCatId,
        Line1WithoutChecksum(data, fmt, CosparId(data.objectId).value, data.epoch[2..4], fmt.dayOfYear(data.epoch).value),
        Line2WithoutChecksum(data, fmt))
  {
    CosparField(data.objectId);
    Last2DigitsLeftmost(data.epoch, 0);
  }

  /** Two 68-column lines of TLE text are checksummed into two valid TLE lines. */
  lemma ChecksumsMakeValidLines(name: string, noradId: int, line1: string, line2: string)
    requires Field(line1, 68) && Field(line2, 68)
    ensures var r := AppendChecksums(name, noradId, line1, line2);
      r.Success? && r.value == Satellite(name, noradId, r.value.tleLine1, r.value.tleLine2) &&
      ValidTleLine(r.value.tleLine1) && ValidTleLine(r.value.tleLine2) &&
      r.value.tleLine1[..68] == line1 && r.value.tleLine2[..68] == line2
  {
    var sat := AppendChecksums(name, noradId, line1, line2).value;
    ChecksummedTextIsValid(sat.tleLine1);
    ChecksummedTextIsValid(sat.tleLine2);
  }

  lemma SliceOfPrefix(s: string, p: string, i: nat, j: nat)
    requires |p| <= |s| && s[..|p|] == p && i <= j <= |p|
    ensures s[i..j] == p[i..j]
  {
    assert forall k :: i <= k < j ==> s[k] == s[..|p|][k];
  }

  /** A record that fits the columns converts, and both lines are valid 69-column TLE
      lines with the record's fields in their columns. */
  lemma ConvertToTLELayout(data: CelestrakData, fmt: FieldFormatters)
    requires FitsColumns(data, fmt)
    ensures var r := ConvertToTLE(data, fmt);
      r.Success? && r.value.satelliteName == data.objectName && r.value.noradId == data.noradCatId &&
      ValidTleLine(r.value.tleLine1) && ValidTleLine(r.value.tleLine2) &&
      r.value.tleLine1[..2] == "1 " && r.value.tleLine2[..2] == "2 " &&
      r.value.tleLine1[2..7] == ZeroPad5(data.noradCatId) && r.value.tleLine2[2..7] == ZeroPad5(data.noradCatId) &&
      r.value.tleLine1[7..8] == data.classificationType &&
      r.value.tleLine1[9..17] == CosparId(data.objectId).value &&
      r.value.tleLine1[18..20] == data.epoch[2..4] &&
      r.value.tleLine1[20..32] == fmt.dayOfYear(data.epoch).value &&
      r.value.tleLine2[63..68] == FormatRevNumber(data.revAtEpoch)
  {
    FittingRecordSteps(data, fmt);
    var cosparId := CosparId(data.objectId).value;
    var year := data.epoch[2..4];
    var day := fmt.dayOfYear(data.epoch).value;
    Line1Layout(data, fmt, cosparId, year, day);
    Line2Layout(data, fmt);
    var line1 := Line1WithoutChecksum(data, fmt, cosparId, year, day);
    var line2 := Line2WithoutChecksum(data, fmt);
    ChecksumsMakeValidLines(data.objectName, data.noradCatId, line1, line2);
    var sat := ConvertToTLE(data, fmt).value;
    SliceOfPrefix(sat.tleLine1, line1, 0, 2);
    SliceOfPrefix(sat.tleLine2, line2, 0, 2);
    SliceOfPrefix(sat.tleLine1, line1, 2, 7);
    SliceOfPrefix(sat.tleLine1, line1, 7, 8);
    SliceOfPrefix(sat.tleLine1, line1, 9, 17);
    SliceOfPrefix(sat.tleLine1, line1, 18, 20);
    SliceOfPrefix(sat.tleLine1, line1, 20, 32);
    SliceOfPrefix(sat.tleLine2, line2, 2, 7);
    SliceOfPrefix(sat.tleLine2, line2, 63, 68);
  }

  /** A revolution number of 100000 or more is written unpadded and pushes line 2 past 68
      columns, so the conversion fails on the line-length check. */
  lemma OversizedRevNumberFails(data: CelestrakData, fmt: FieldFormatters)
    requires 0 <= data.noradCatId < 100000
    requires |fmt.angles(data.inclination)| == 8 && |fmt.angles(data.raOfAscNode)| == 8
    requires |fmt.eccentricity(data.eccentricity)| == 7
    requires |fmt.angles(data.argOfPericenter)| == 8 && |fmt.angles(data.meanAnomaly)| == 8
    requires |fmt.meanMotion(data.meanMotion)| == 11
    requires data.revAtEpoch >= 100000
    ensures |Line2WithoutChecksum(data, fmt)| > 68
    ensures ConvertToTLE(data, fmt).Failure?
  {
    ConvertToTLESpec(data, fmt);
  }

  /** A name that does not end in a space survives `removeTrailingSpaces`. */
  lemma TrimmedNameKept(name: string)
    requires name == [] || name[|name| - 1] != ' '
    ensures WithoutTrailingSpaces(name) == name
  {
    WithoutTrailingSpacesSpec(name);
    assert name + [] == name;
    TrimRightOfSpaces(name, []);
    if |name| > 1 {
      assert name[1..][|name| - 2] == name[|name| - 1];
    }
  }

  /** The three lines of a satellite's entry in a TLE file. */
  function EntryLines(sat: Satellite): (lines: seq<string>)
    ensures |lines| == 3
  {
    [sat.satelliteName, sat.tleLine1, sat.tleLine2]
  }

  /** A satellite that `extractSatelliteData` reads back unchanged from its entry: two
      69-byte lines, NORAD columns of line 2 that parse to its id, and a name that
      `removeTrailingSpaces` keeps. */
  predicate ReadsBack(sat: Satellite)
  {
    |sat.tleLine1| == 69 && |sat.tleLine2| == 69 && Atoi(sat.tleLine2[2..7]) == Some(sat.noradId) &&
    WithoutTrailingSpaces(sat.satelliteName) == sat.satelliteName
  }

  /** A converted record whose name does not end in a space reads back from its entry:
      the NORAD columns of line 2 parse to the catalog number. */
  lemma ConvertedSatelliteReadsBack(data: CelestrakData, fmt: FieldFormatters)
    requires FitsColumns(data, fmt)
    requires data.objectName == [] || data.objectName[|data.objectName| - 1] != ' '
    ensures ConvertToTLE(data, fmt).Success? && ReadsBack(ConvertToTLE(data, fmt).value)
  {
    ConvertToTLELayout(data, fmt);
    NoradField(data.noradCatId);
    TrimmedNameKept(data.objectName);
  }

  /** A list of satellites written out as a TLE file, three lines each. */
  function FileLines(sats: seq<Satellite>): (lines: seq<string>)
    ensures |lines| == 3 * |sats|
  {
    if sats == [] then [] else EntryLines(sats[0]) + FileLines(sats[1..])
  }

  lemma {:induction false} FileLinesAt(sats: seq<Satellite>, t: nat)
    requires t < |sats|
    ensures FileLines(sats)[3 * t..3 * t + 3] == EntryLines(sats[t])
    decreases t
  {
    if t > 0 {
      FileLinesAt(sats[1..], t - 1);
      assert FileLines(sats) == EntryLines(sats[0]) + FileLines(sats[1..]);
      assert FileLines(sats)[3 * t..3 * t + 3] == FileLines(sats[1..])[3 * (t - 1)..3 * (t - 1) + 3];
    }
  }

  /** An entry whose three lines are those of a satellite that reads back parses to it. */
  lemma EntryOfSatellite(lines: seq<string>, i: nat, sat: Satellite)
    requires i + 2 < |lines| && ReadsBack(sat)
    requires lines[i] == sat.satelliteName && lines[i + 1] == sat.tleLine1 && lines[i + 2] == sat.tleLine2
    ensures ParseEntry(lines, i) == Success(sat)
  {
  }

  /** Line `3t + k` of a written file is line `k` of satellite `t`'s entry. */
  lemma FileLineAt(sats: seq<Satellite>, t: nat, k: nat)
    requires t < |sats| && k < 3
    ensures FileLines(sats)[3 * t + k] == EntryLines(sats[t])[k]
  {
    FileLinesAt(sats, t);
    var lines := FileLines(sats);
    assert lines[3 * t + k] == lines[3 * t..3 * t + 3][k];
  }

  /** Entry `t` of a written file is satellite `t` when that satellite reads back. */
  lemma FileEntryAt(sats: seq<Satellite>, t: nat)
    requires t < |sats| && ReadsBack(sats[t])
    ensures ParseEntry(FileLines(sats), 3 * t) == Success(sats[t])
  {
    FileLineAt(sats, t, 0);
    FileLineAt(sats, t, 1);
    FileLineAt(sats, t, 2);
    EntryOfSatellite(FileLines(sats), 3 * t, sats[t]);
  }

  /** Entry parses that all succeed collect to their satellites. */
  lemma CollectAll(rs: seq<Result<Satellite, ExtractError>>, sats: seq<Satellite>)
    requires |rs| == |sats| && forall t :: 0 <= t < |rs| ==> rs[t] == Success(sats[t])
    ensures Collect(rs) == Success(sats)
  {
    CollectSuccess(rs);
    assert Collect(rs).value == sats;
  }

  /** Writing satellites that read back as a TLE file and extracting it gives the same
      list. */
  lemma FileRoundTrip(sats: seq<Satellite>)
    requires forall t :: 0 <= t < |sats| ==> ReadsBack(sats[t])
    ensures Extract(Success(FileLines(sats))) == Success(sats)
  {
    var lines := FileLines(sats);
    var rs := Entries(lines, 0);
    assert |rs| == |sats|;
    forall t | 0 <= t < |rs| ensures rs[t] == Success(sats[t]) {
      assert rs[t] == ParseEntry(lines, 0 + 3 * t);
      FileEntryAt(sats, t);
    }
    CollectAll(rs, sats);
  }

  /** The catalog `update` builds from CelesTrak records that fit the columns and whose
      names do not end in a space, written out as a TLE file, is loaded back unchanged by
      the file source. */
  lemma CelestrakCatalogReadsBack(records: seq<CelestrakData>, fmt: FieldFormatters)
    requires forall k :: 0 <= k < |records| ==> FitsColumns(records[k], fmt)
    requires forall k :: 0 <= k < |records| ==>
      records[k].objectName == [] || records[k].objectName[|records[k].objectName| - 1] != ' '
    ensures Extract(Success(FileLines(ConvertRecords(records, fmt)))) == Success(ConvertRecords(records, fmt))
  {
    var sats := ConvertRecords(records, fmt);
    forall t | 0 <= t < |sats| ensures ReadsBack(sats[t]) {
      ConvertedSatelliteReadsBack(records[t], fmt);
      ConvertRecordsAt(records, fmt, t);
    }
    FileRoundTrip(sats);
  }

  /** The first entry of the sample TLE file, OPS 5712: the name has no trailing space,
      both lines have 69 bytes, and the NORAD id 2874 is read from columns 3-7 of line 2,
      which starts "2 02874". */
  lemma SampleEntryParses(lines: seq<string>, line1: string, tail: string)
    requires |line1| == 69 && |tail| == 62
    requires lines == ["OPS 5712 (P/L 153)", line1, "2 02874" + tail]
    ensures ParseEntry(lines, 0) == Success(Satellite("OPS 5712 (P/L 153)", 2874, line1, "2 02874" + tail))
  {
    var line2 := "2 02874" + tail;
    assert line2[2..7] == "2 02874"[2..7];
    SampleNoradId("2 02874");
    TrimmedNameKept(lines[0]);
  }

  lemma SampleNoradId(head: string)
    requires head == "2 02874"
    ensures Atoi(head[2..7]) == Some(2874)
  {
    assert head[2..7] == "02874";
    DigitsExample(head[2..7]);
  }

  lemma DigitsExample(d: string)
    requires d == "02874"
    ensures AllDigits(d) && DigitsValue(d) == 2874
  {
    var d1, d2, d3, d4 := d[..1], d[..2], d[..3], d[..4];
    assert d2[..1] == d1 && d3[..2] == d2 && d4[..3] == d3 && d[..4] == d4;
    assert DigitsValue(d1) == 0;
    assert DigitsValue(d2) == 2;
    assert DigitsValue(d3) == 28;
    assert DigitsValue(d4) == 287;
  }
}
