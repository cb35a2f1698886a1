# tle-provider catalog core in Dafny

This project models the text and indexing core of tle-provider, a Go service. The
service turns CelesTrak's orbital-element records, or a local TLE file, into a catalog of
satellites in the two-line element (TLE) format, looked up by name and by constellation.

The model covers four parts:

- **The TLE line encoder** (`convertToTLE`). It builds the COSPAR columns from the
  object id and reads the last two digits of the epoch year. It then assembles the two
  68-column lines and appends each line's modulo-10 checksum digit. Both regular
  expressions are written as explicit leftmost-first scans with Go's semantics: `.`
  does not match a newline, and exactly one match is required.
- **The integer field padders**: `formatWithLeadingSpaces` for the element-set number
  and `formatRevNumber` for the revolution number.
- **The TLE file reader** (`extractSatelliteData`, `removeTrailingSpaces`). It works
  over the file's lines, in groups of three.
- **The two catalog sources**, as classes whose `Update` replaces the list and rebuilds
  the indexes, with their read-only getters. `FileSource` rebuilds a name map and the
  constellation groups; `CelestrakClient` rebuilds a name map.

Go's `%d`, `%05d`, `strconv.Atoi` and the truncating `%` are written out over digit
strings in module `GoFmt`. A string is a sequence of bytes (`seq<char>`, one character
per byte). The float formatters and the day-of-year parser are function-valued
parameters (`FieldFormatters`). Besides each operation's own contract, the project
proves the following, mostly in module `TleLayout`:

- the column layout of both lines;
- that a record whose fields fit their columns gives two valid TLE lines;
- that a catalog converted from CelesTrak, written as a TLE file and read back by the
  file source, comes back unchanged, provided every record's fields fit their columns
  (`FitsColumns`) and no satellite name ends in a space;
- that the six sample lines of the file reader's test carry correct check digits
  (module `TleSamples`).

Where the repository's description and its code differ, the model follows the code:

- The file reader parses the NORAD id from columns 3-7 of TLE **line 2**
  (`fileLines[i+2][2:7]`). Its error message quotes bytes 3-6 of line 1.
- `removeTrailingSpaces` returns its input unchanged, trailing spaces included, when the
  only non-space byte is the first one (`"A   "` stays `"A   "`).
- The CelesTrak list is in the order the conversion goroutines deliver to the channel,
  not in input order. The model takes that order as a parameter `arrival`, a reordering
  of the record indices, and proves what holds for every such order.
- `convertToTLE` checks only that each line is 68 characters long before the checksum.
  A line whose weighted sum is negative gets the two-character checksum `"-d"`, because
  Go's `%` truncates, unless the sum is a multiple of 10 (then `%` gives 0, printed
  `"0"`). That can only happen on bytes outside TLE text, such as a
  classification of `"!"`. Line validity is therefore proved for lines made of TLE
  characters.

## Model

| member | source | states |
|---|---|---|
| Utils.IsALetter | utils/utils.go:4-8 | true exactly for byte codes 65-90 and 97-122 |
| Utils.DigitsAreNotLetters | utils/utils.go:5 | no decimal digit is a letter |
| Utils.SeparatorsAreNotLetters | utils/utils.go:5 | space, '.', '+' and '-' are not letters |
| Utils.LetterRangeBoundaries | utils/utils.go:5 | '@', '[', '`' and '{' are not letters; 'A', 'Z', 'a', 'z' are |
| GoFmt.IntToString | data/celestrak.go:332 | `%d`: at least one character; the decimal digits of a non-negative number, or '-' followed by the digits of the magnitude; see GoFmt.IntToStringRoundTrip |
| GoFmt.IntToStringRoundTrip | data/celestrak-formatting.go:68 | `strconv.Atoi` of `%d` of n gives n back |
| GoFmt.IntToStringWidth | data/celestrak-formatting.go:68 | `%d` has 1, 2, 3, 4 or 5 characters on the ranges below 10, 100, 1000, 10000 and 100000, and more beyond |
| GoFmt.ZeroPad5 | data/celestrak.go:213 | `%05d` of 0..99999 is five digits; of 100000 or more, longer |
| GoFmt.ZeroPad5RoundTrip | data/file.go:138 | parsing `%05d` of 0..99999 gives the number back |
| GoFmt.GoRem10 | data/celestrak.go:332 | Go's truncating remainder by 10: between -9 and 9, with the dividend's sign, and congruent to it |
| GoFmt.Atoi | data/file.go:138 | succeeds exactly on an optional sign followed by at least one digit and nothing else |
| GoFmt.TrimSpacesBeforeText | data/celestrak-formatting.go:68 | stripping the padding spaces of a padded number gives the digits |
| Formatting.FormatWithLeadingSpaces | data/celestrak-formatting.go:55-69 | spaces then `%d` of the number; exactly 4 columns for 0..9999; no padding from 1000 on; more than 4 columns from 10000 on |
| Formatting.FormatWithLeadingSpacesRoundTrip | data/celestrak-formatting.go:55-69 | stripping the spaces and parsing gives the number back, and a positive number has no leading zero |
| Formatting.FormatRevNumber | data/celestrak-formatting.go:85-101 | spaces then `%d`; exactly 5 columns for 0..99999; no padding from 10000 on; more than 5 columns from 100000 on |
| Formatting.FormatRevNumberRoundTrip | data/celestrak-formatting.go:85-101 | stripping the spaces and parsing gives the revolution number back, with no leading zero |
| Satellites.NameIndex | data/file.go:59-62 | the map written satellite by satellite has exactly the list's names as keys, and maps each to a listed satellite of that name |
| Satellites.NameIndexHoldsLast | data/file.go:61-62 | the map sends a name to the last satellite in the list with that name |
| Satellites.NameIndexOrderIndependent | data/celestrak.go:157-163 | when a name determines the satellite, any reordering of the list gives the same map |
| Satellites.Filter | data/file.go:63-66 | a group is no longer than the list |
| Satellites.FilterMembers | data/file.go:63-66 | a satellite is in a group exactly when it is in the list and its name matches the pattern |
| Satellites.FilterAppend | data/file.go:61-66 | the group of a concatenation is the concatenation of the groups, so groups keep list order |
| Satellites.Groups | data/file.go:60-67 | groups exist only for table entries, and no group is empty |
| Satellites.GroupsStep | data/file.go:63-66 | adding a satellite appends it to each matching group, creating the group if needed, and leaves the other groups alone |
| TleEncoder.CharWeight | data/celestrak.go:325-331 | no contract of its own: what one byte adds in the checksum loop; see TleEncoder.WeightedSumIsStandard |
| TleEncoder.WeightedSum | data/celestrak.go:325-331 | no contract of its own: the loop's running total over a prefix; see TleEncoder.WeightedSumIsStandard and TleEncoder.ChecksumAsString |
| TleEncoder.WeightedSumIsStandard | data/celestrak.go:325-331 | on TLE text the loop's weighting is the published checksum rule: digits count their value, '-' counts one, the rest count nothing |
| TleEncoder.Checksum | data/celestrak.go:319-333 | an error exactly when the line is not 68 long; on TLE text, the single digit of the standard sum modulo 10 |
| TleEncoder.ChecksumAsString | data/celestrak.go:319-333 | the accumulating loop returns the checksum |
| TleEncoder.ChecksummedTextIsValid | data/celestrak.go:319-333 | a TLE-text line followed by its checksum is a valid 69-column TLE line |
| TleEncoder.ValidLineIsChecksummed | data/celestrak.go:319-333 | conversely, `checksum` of the first 68 columns of a valid TLE line gives its 69th column |
| TleEncoder.CosparMatchAt | data/celestrak.go:273-274 | a match of `[0-9]{2}(.+)-(.+)` at p starts with two digits, has its '-' at least 3 bytes on and at least one byte after it |
| TleEncoder.FirstCosparMatch | data/celestrak.go:274 | the leftmost match at or after a position, with no match before it |
| TleEncoder.CosparId | data/celestrak.go:272-287 | fails with the object id when there is not exactly one match; otherwise at least 7 columns |
| TleEncoder.ObjectIdToCosparId | data/celestrak.go:272-287 | the loop that grows the trailing spaces returns the conversion |
| TleEncoder.CosparMatchAtOneLine | data/celestrak.go:273 | on one line, a match at p exists exactly when the shape occurs there; it runs to the end and uses the last '-' |
| TleEncoder.CosparIdFailsWithoutShape | data/celestrak.go:273-277 | on one line, the conversion fails exactly when no two digits are followed by text, '-' and more text |
| TleEncoder.CosparIdLeftmostGreedy | data/celestrak.go:273-286 | on one line, the result is the text between the leftmost digit pair and the last '-', the text after that '-', and `6 - len` spaces |
| TleEncoder.DesignatorToCospar | data/celestrak.go:272-287 | an international designator YYYY-NNNP.. gives the 8 columns YYNNNP.. and its padding |
| TleEncoder.CosparIdExample | data/celestrak.go:272-287 | "1964-063C" gives "64063C  " |
| TleEncoder.FirstYearMatch | data/celestrak.go:290-291 | the leftmost four-digit run followed by a byte on the same line |
| TleEncoder.Last2DigitsOfYear | data/celestrak.go:289-297 | fails with the epoch, or gives two digits |
| TleEncoder.Last2DigitsFailsWithoutRun | data/celestrak.go:289-297 | on one line, fails exactly when no four-digit run has a byte after it |
| TleEncoder.Last2DigitsLeftmost | data/celestrak.go:289-297 | on one line, gives the third and fourth digits of the leftmost run |
| TleEncoder.Last2DigitsExample | data/celestrak_test.go:23-28 | "2022-02-09T12:04:21.971712" gives "22" |
| TleEncoder.Line1WithoutChecksum | data/celestrak.go:211-228 | no contract of its own: line 1's fields concatenated; see TleLayout.Line1Head, TleLayout.Line1Tail and TleLayout.Line1Layout |
| TleEncoder.Line2WithoutChecksum | data/celestrak.go:238-256 | no contract of its own: line 2's fields concatenated; see TleLayout.Line2Head, TleLayout.Line2Tail and TleLayout.Line2Layout |
| TleEncoder.AppendChecksums | data/celestrak.go:228-269 | fails with the offending line exactly when a line is not 68 long; otherwise keeps name and id, and each line is its 68 columns plus their checksum |
| TleEncoder.ConvertToTLE | data/celestrak.go:192-270 | no contract of its own; see TleEncoder.ConvertToTLESpec and TleLayout.ConvertToTLELayout |
| TleEncoder.ConvertToTLESpec | data/celestrak.go:192-270 | errors in step order (COSPAR id, year, day, line length); a converted satellite copies name and NORAD id and has both lines checksummed, line 1 being the assembled fields with the COSPAR id, year digits and day the earlier steps produced, and line 2 the assembled fields |
| TleEncoder.ConvertOrZero | data/celestrak.go:148 | no contract of its own: the conversion, or the zero satellite when it fails; see Celestrak.ConvertRecordsAt |
| TleFile.WithoutTrailingSpaces | data/file.go:155-173 | no contract of its own; see TleFile.RemoveTrailingSpaces and TleFile.WithoutTrailingSpacesSpec |
| TleFile.LastNonSpace | data/file.go:157-164 | the backward scan stops at the last non-space at or below j, or at -1 |
| TleFile.RemoveTrailingSpaces | data/file.go:155-173 | the loop returns the scan's result, including the index-0 case |
| TleFile.TrimRight | data/file.go:155-173 | reference definition: the longest prefix not ending in a space, with only spaces after it |
| TleFile.WithoutTrailingSpacesSpec | data/file.go:155-173 | removes every trailing space, except when only the first byte is not a space; then the input comes back unchanged |
| TleFile.TrimRightOfSpaces | data/file.go:155-173 | text that does not end in a space, followed by spaces, trims to the text |
| TleFile.RemoveTrailingSpacesPadded | data/file_test.go:96-102 | "CALSPHERE 1" followed by 13 spaces gives "CALSPHERE 1" |
| TleFile.RemoveTrailingSpacesShort | data/file_test.go:103-123 | "" and all spaces give "", "a" gives "a", and "A   " stays "A   " |
| TleFile.ParseEntry | data/file.go:131-148 | no contract of its own: one triple's checks and parse; see TleFile.CollectSuccess, TleFile.CollectFailure and TleFile.ExtractSpec |
| TleFile.Collect | data/file.go:129-150 | no contract of its own: the entries gathered until the first failure; see TleFile.CollectSuccess and TleFile.CollectFailure |
| TleFile.Extract | data/file.go:121-153 | no contract of its own; see TleFile.ExtractSatelliteData and TleFile.ExtractSpec |
| TleFile.Entries | data/file.go:129-130 | one entry per complete triple; one or two leftover lines form none |
| TleFile.EntriesStep | data/file.go:129-149 | the entries are the first triple's parse, then those from three lines on |
| TleFile.ExtractSatelliteData | data/file.go:121-153 | the loop that steps by three returns the extraction, stopping at the first bad entry |
| TleFile.CollectSuccess | data/file.go:130-150 | collecting succeeds exactly when every entry parses, giving one satellite per entry, in order |
| TleFile.CollectFailure | data/file.go:131-141 | a failed collection reports the error of the first entry that does not parse |
| TleFile.ExtractSpec | data/file.go:121-153 | success exactly when every triple parses (both lines 69 bytes, NORAD columns an integer); then one satellite per triple in file order; otherwise the first bad triple's error |
| TleFile.ExtractedLineLengths | data/file.go:131-136 | every extracted satellite has two 69-byte lines |
| TleFile.BuildIndexes | data/file.go:59-68 | the loop rebuilds the name map and the groups of the new list from empty |
| TleFile.AddToGroups | data/file.go:63-67 | visiting the table in any order appends the satellite to exactly the matching groups |
| TleFile.AgreementIsEquality | data/file.go:63-67 | two maps that agree on every table key are equal |
| TleFile.FileSource.constructor | data/file.go:22-27 | path and period kept; list, map and groups empty |
| TleFile.FileSource.Update | data/file.go:47-73 | on a failed extraction nothing changes; otherwise the list is replaced and the map and groups are those of the new list, so installing the same file twice gives the same state |
| TleFile.FileSource.GetData | data/file.go:75-82 | not found exactly when the list is empty; otherwise the list |
| TleFile.FileSource.GetConstellation | data/file.go:84-91 | found exactly when the name is in the table and its pattern matches some satellite; then the in-order matching satellites |
| TleFile.FileSource.GetSatellite | data/file.go:93-111 | found exactly when some satellite has the name; then the last such satellite; otherwise "satellite NAME not found" |
| Celestrak.ConvertRecords | data/celestrak.go:141-151 | one satellite per record |
| Celestrak.ConvertRecordsAt | data/celestrak.go:146-150 | entry k is record k's conversion, or the zero satellite when that conversion fails |
| Celestrak.Pick | data/celestrak.go:159-160 | the channel's output in arrival order |
| Celestrak.PickPermutes | data/celestrak.go:159-163 | reordering the arrival indices reorders the list and nothing more |
| Celestrak.ArrivalOrderIsPermutation | data/celestrak.go:142-163 | whatever the arrival order, the list is a permutation of the converted records |
| Celestrak.NameMapIgnoresArrivalOrder | data/celestrak.go:157-163 | when names determine satellites, the name map is the same for every arrival order |
| Celestrak.ConvertAll | data/celestrak.go:141-153 | the conversion goroutines produce every record's conversion, errors dropped |
| Celestrak.Drain | data/celestrak.go:157-164 | draining the channel lists the satellites in arrival order and writes the name map of that list |
| Celestrak.CelestrakClient.constructor | data/celestrak.go:54-64 | URLs and period kept; no data; last pull one nanosecond after the epoch |
| Celestrak.CelestrakClient.Update | data/celestrak.go:135-169 | a failed fetch changes nothing; otherwise the list is the arrival-ordered conversions, the map is its name map and the pull time is now |
| Celestrak.CelestrakClient.GetData | data/celestrak.go:126-133 | not found exactly when the list is empty; otherwise the list |
| Celestrak.CelestrakClient.GetSatellite | data/celestrak.go:171-189 | found exactly when some satellite has the name; then the last such satellite; otherwise "Satellite NAME not found" |
| TleLayout.NoradField | data/celestrak.go:213 | `%05d` of a catalog number fills five columns with digits that parse back to it |
| TleLayout.ElementSetField | data/celestrak-formatting.go:55-69 | an element-set number below 10000 fills four columns of TLE text |
| TleLayout.RevNumberField | data/celestrak-formatting.go:85-101 | a revolution number below 100000 fills five columns of TLE text |
| TleLayout.Line1Head | data/celestrak.go:211-217 | line number, NORAD id, classification, COSPAR id and epoch sit in columns 1-32 |
| TleLayout.Line1Tail | data/celestrak.go:218-225 | derivatives, BSTAR, ephemeris type '0' and element set sit in columns 33-68 |
| TleLayout.Line1Layout | data/celestrak.go:211-228 | line 1 before its checksum is 68 columns of TLE text with each field in its columns |
| TleLayout.Line2Head | data/celestrak.go:238-246 | line number, NORAD id, inclination, RAAN and eccentricity sit in columns 1-33 |
| TleLayout.Line2Tail | data/celestrak.go:247-253 | argument of perigee, mean anomaly, mean motion and revolution number sit in columns 34-68 |
| TleLayout.Line2Layout | data/celestrak.go:238-256 | line 2 before its checksum is 68 columns of TLE text with each field in its columns |
| TleLayout.CosparField | data/celestrak.go:272-287 | a designator's COSPAR id is 8 columns of TLE text |
| TleLayout.FittingRecordSteps | data/celestrak.go:192-228 | for a record that fits the columns, the COSPAR, year and day steps succeed and the result is the checksumming of the two assembled lines |
| TleLayout.ChecksumsMakeValidLines | data/celestrak.go:228-262 | two 68-column lines of TLE text become two valid TLE lines |
| TleLayout.ConvertToTLELayout | data/celestrak.go:192-270 | a fitting record converts to two valid 69-column lines, starting "1 " and "2 " and both holding the zero-padded NORAD id in columns 3-7, with classification, COSPAR id, year, day and revolution number in their columns |
| TleLayout.OversizedRevNumberFails | data/celestrak.go:253-260 | a revolution number of 100000 or more makes line 2 longer than 68, so the conversion fails |
| TleLayout.TrimmedNameKept | data/file.go:155-173 | a name that does not end in a space is kept |
| TleLayout.ConvertedSatelliteReadsBack | data/file.go:138-148 | a converted satellite's entry reads back: 69-byte lines, NORAD columns of line 2 parsing to its id, name kept |
| TleLayout.EntryOfSatellite | data/file.go:130-148 | the three lines of a satellite that reads back parse to that satellite |
| TleLayout.FileLines | data/file.go:129-150 | a written file has three lines per satellite |
| TleLayout.FileLinesAt | data/file.go:129-150 | triple t of a written file is satellite t's entry |
| TleLayout.FileEntryAt | data/file.go:129-150 | entry t of a written file parses to satellite t |
| TleLayout.FileRoundTrip | data/file.go:121-153 | extracting a written file of satellites that read back gives the same list |
| TleLayout.CelestrakCatalogReadsBack | data/celestrak.go:144-164 | converted records that fit the columns, with names not ending in a space, written as a TLE file, are extracted unchanged |
| TleLayout.SampleEntryParses | data/file_test.go:37-42 | the OPS 5712 entry parses to name "OPS 5712 (P/L 153)", NORAD id 2874 and both lines verbatim |
| TleLayout.SampleNoradId | data/file_test.go:41 | "2 02874" gives NORAD id 2874 |
| TleSamples.StandardSumConcat | data/celestrak.go:325-331 | the checksum weight of a concatenation is the sum of the parts' weights |
| TleSamples.SixPieces | data/celestrak.go:319-333 | 68 columns of TLE text followed by the last digit of their weight form a valid line whose check digit `checksum` reproduces |
| TleSamples.OpsLine1 | data/file_test.go:40 | OPS 5712 line 1 is a valid TLE line with check digit 1, which `checksum` reproduces |
| TleSamples.OpsLine2 | data/file_test.go:41 | OPS 5712 line 2 is a valid TLE line with check digit 8, which `checksum` reproduces |
| TleSamples.CalsphereLine1 | data/file_test.go:46 | CALSPHERE 1 line 1 is a valid TLE line with check digit 3, which `checksum` reproduces |
| TleSamples.CalsphereLine2 | data/file_test.go:47 | CALSPHERE 1 line 2 is a valid TLE line with check digit 3, which `checksum` reproduces |
| TleSamples.LageosLine1 | data/file_test.go:52 | LAGEOS 1 line 1 is a valid TLE line with check digit 9, which `checksum` reproduces |
| TleSamples.LageosLine2 | data/file_test.go:53 | LAGEOS 1 line 2 is a valid TLE line with check digit 7, which `checksum` reproduces |

## Left out

- Fetching from CelesTrak (`getCelestrakData`: HTTP request, status check, JSON decoding) is I/O. `Update` takes its outcome as a parameter.
- Reading the file (`utils.GetFileAsLines`) is I/O in a library that is not part of this model. `Update` takes the lines, or the read error, as a parameter.
- The periodic `Update` loops, the `done` channel, `time.After`, the per-record goroutines, the `WaitGroup` and the `RWMutex` are concurrency. Each `update` is modelled as one sequential method, and the channel's delivery order is the `arrival` parameter.
- The float formatters (`formatMeanMotionDOT`, `formatWithoutDecimalPoint`, `formatAngles`, `formatEccentricity`, `formatMeanMotion`) and `getDayOfYear` are floating-point and `time.Parse` code. They are function-valued parameters, and the layout lemmas assume the widths they produce.
- `time.Now()` is the `now` parameter of `CelestrakClient.Update`, and times are nanoseconds since the Unix epoch.
- The constellation table (`constellations` in package `data`) is not part of this model. It is the `patterns` parameter of the `FileSource` constructor, with prefix and substring patterns standing in for regular expressions.
- `Satellite.IsNull` is not part of this model. It is taken to be a comparison with the zero `Satellite`, which is what a lookup of a missing name yields.
- `GetDataSource`, `GetConfig`, the log lines, the HTTP server, the API error wrapping, the CLI, the configuration and the PostgreSQL source are plumbing outside the catalog core. The unused `Source` interface in data/data.go is also left out.
- `CelestrakClient.OrbitalData` is never written after construction, and neither is the HTTP client; only the former is kept.
- Go's fixed-width `int` is modelled as an unbounded integer. No catalog field comes near 2^63.
- Pointers in the CelesTrak list and map are modelled as values. Aliasing between the list and the map is not modelled.
- TleEncoder.Checksum: its agreement with the published checksum rule is stated only for lines made of TLE characters (digits, letters, space, '.', '+', '-'). On other bytes the model computes what the Go loop computes, but no property of it is proved.
- TleEncoder.ConvertToTLESpec: it gives each line as its assembled fields, not column by column. TleLayout.ConvertToTLELayout places the fields in their columns for records whose formatted fields have the TLE widths.
- TleLayout.SampleEntryParses: the OPS 5712 entry's lines are parameters of the right length there; their contents, and their check digits, are stated separately in module `TleSamples`, which writes each sample line as six literal pieces and its check digit rather than as one 69-character literal.
