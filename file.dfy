/** data/file.go: the catalog source that reads a local TLE file, three lines per
    satellite (name, line 1, line 2), and rebuilds its name map and constellation groups. */
module TleFile {
  import opened Wrappers
  import opened GoFmt
  import opened Satellites

  // ---------------------------------------------------------------------------
  // removeTrailingSpaces

  /** The backward scan of `removeTrailingSpaces`: from index `j` down, the first index
      whose byte is not a space, or -1 when there is none. */
  function LastNonSpace(s: string, j: int): (k: int)
    requires -1 <= j < |s|
    ensures -1 <= k <= j
    ensures k >= 0 ==> s[k] != ' '
    ensures forall i :: k < i <= j ==> s[i] == ' '
    decreases j + 1
  {
    if j < 0 then -1 else if s[j] != ' ' then j else LastNonSpace(s, j - 1)
  }

  /** What `removeTrailingSpaces` returns, including its special case: when the scan stops
      at index 0 the source comes back whole, trailing spaces included. */
  function WithoutTrailingSpaces(source: string): string
  {
    var j := LastNonSpace(source, |source| - 1);
    if j == 0 then source
    else if j < 0 then ""
    else source[..j + 1]
  }

  /** The loop of `removeTrailingSpaces`, walking back over the trailing spaces. */
  method RemoveTrailingSpaces(source: string) returns (r: string)
    ensures r == WithoutTrailingSpaces(source)
  {
    var j := |source| - 1;
    while j >= 0
      invariant -1 <= j < |source|
      invariant LastNonSpace(source, j) == LastNonSpace(source, |source| - 1)
      decreases j
    {
      if source[j] != ' ' {
        break;
      }
      j := j - 1;
    }
    if j == 0 {
      r := source;
    } else if j < 0 {
      r := "";
    } else {
      r := source[..j + 1];
    }
  }

  /** Reference definition: the string with every trailing space removed. */
  function TrimRight(s: string): (r: string)
    ensures |r| <= |s| && r == s[..|r|]
    ensures r == [] || r[|r| - 1] != ' '
    ensures AllSpaces(s[|r|..])
  {
    if s == [] then []
    else if s[|s| - 1] == ' ' then
      var r := TrimRight(s[..|s| - 1]);
      assert s[..|s| - 1][..|r|] == s[..|r|];
      assert s[|r|..] == s[..|s| - 1][|r|..] + [' '];
      r
    else s
  }

  /** The inputs on which `removeTrailingSpaces` keeps trailing spaces: a first byte that is
      not a space followed by at least one space and nothing else. */
  predicate KeepsTrailingSpaces(s: string)
  {
    |s| > 1 && s[0] != ' ' && AllSpaces(s[1..])
  }

  /** `removeTrailingSpaces` removes every trailing space, except on the inputs above,
      which it returns unchanged. */
  lemma WithoutTrailingSpacesSpec(s: string)
    ensures KeepsTrailingSpaces(s) ==> WithoutTrailingSpaces(s) == s && s != TrimRight(s)
    ensures !KeepsTrailingSpaces(s) ==> WithoutTrailingSpaces(s) == TrimRight(s)
  {
    var j := LastNonSpace(s, |s| - 1);
    var t := TrimRight(s);
    if |t| > 0 {
      assert t[|t| - 1] == s[|t| - 1];
    }
    assert j == |t| - 1;
    if KeepsTrailingSpaces(s) {
      assert j == 0 by {
        forall i | 0 < i < |s| ensures s[i] == ' ' { assert s[1..][i - 1] == s[i]; }
      }
    }
  }

  /** The first case of the Go test of `removeTrailingSpaces`: a name padded with spaces. */
  lemma RemoveTrailingSpacesPadded(a: string)
    requires a == "CALSPHERE 1             "
    ensures WithoutTrailingSpaces(a) == "CALSPHERE 1"
  {
    var t := a[..11];
    assert t == "CALSPHERE 1";
    assert a == t + a[11..];
    TrimRightOfSpaces(t, a[11..]);
    WithoutTrailingSpacesSpec(a);
  }

  /** The other cases of that test (empty, only spaces, one letter), and the special case. */
  lemma RemoveTrailingSpacesShort(b: string, c: string, d: string, e: string)
    requires b == "" && c == "         " && d == "a" && e == "A   "
    ensures WithoutTrailingSpaces(b) == "" && WithoutTrailingSpaces(c) == ""
    ensures WithoutTrailingSpaces(d) == "a"
    ensures WithoutTrailingSpaces(e) == "A   "
  {
    assert c == [] + c;
    TrimRightOfSpaces([], c);
    WithoutTrailingSpacesSpec(c);
    assert e[1..] == "   ";
    WithoutTrailingSpacesSpec(e);
  }

  /** Trimming text that ends in a non-space followed by spaces gives the text back. */
  lemma {:induction false} TrimRightOfSpaces(t: string, sp: string)
    requires t == [] || t[|t| - 1] != ' '
    requires AllSpaces(sp)
    ensures TrimRight(t + sp) == t
    decreases |sp|
  {
    if sp == [] {
      assert t + sp == t;
      if t != [] { assert (t + sp)[|t + sp| - 1] == t[|t| - 1]; }
    } else {
      var s := t + sp;
      assert s[|s| - 1] == ' ';
      assert s[..|s| - 1] == t + sp[..|sp| - 1];
      TrimRightOfSpaces(t, sp[..|sp| - 1]);
    }
  }

  // ---------------------------------------------------------------------------
  // extractSatelliteData

  /** The errors of `extractSatelliteData`; `item` is the index of the entry's name line.
      The NORAD id message quotes bytes 2 to 5 of line 1, although the id is parsed from
      line 2. */
  datatype ExtractError =
    | ReadFailed(reason: string)
    | TleLine1Length(item: nat, got: nat)
    | TleLine2Length(item: nat, got: nat)
    | NoradIdNotInteger(quoted: string)

  /** One entry of the file: the three lines starting at `i`. */
  function ParseEntry(lines: seq<string>, i: nat): Result<Satellite, ExtractError>
    requires i + 2 < |lines|
  {
    if |lines[i + 1]| != 69 then Failure(TleLine1Length(i, |lines[i + 1]|))
    else if |lines[i + 2]| != 69 then Failure(TleLine2Length(i, |lines[i + 2]|))
    else
      match Atoi(lines[i + 2][2..7])
      case None => Failure(NoradIdNotInteger(lines[i + 1][2..6]))
      case Some(noradId) =>
        Success(Satellite(WithoutTrailingSpaces(lines[i]), noradId, lines[i + 1], lines[i + 2]))
  }

  /** The parse of every complete entry from line `i` on; one or two lines left over at
      the end are not an entry. */
  function Entries(lines: seq<string>, i: nat): (rs: seq<Result<Satellite, ExtractError>>)
    requires i <= |lines|
    ensures |rs| == (|lines| - i) / 3
  {
    seq((|lines| - i) / 3, t requires 0 <= t < (|lines| - i) / 3 => ParseEntry(lines, i + 3 * t))
  }

  /** The first entry, then the entries after it. */
  lemma EntriesStep(lines: seq<string>, i: nat)
    requires i + 2 < |lines|
    ensures Entries(lines, i) == [ParseEntry(lines, i)] + Entries(lines, i + 3)
  {
    var rs, rest := Entries(lines, i), Entries(lines, i + 3);
    assert |rs| == 1 + |rest|;
    forall t | 0 < t < |rs| ensures rs[t] == rest[t - 1] {
      assert i + 3 * t == (i + 3) + 3 * (t - 1);
    }
  }

  /** The satellites of a list of entry parses, or the error of the first bad entry. */
  function Collect(rs: seq<Result<Satellite, ExtractError>>): Result<seq<Satellite>, ExtractError>
  {
    if rs == [] then Success([])
    else
      match rs[0]
      case Failure(e) => Failure(e)
      case Success(sat) =>
        match Collect(rs[1..])
        case Failure(e) => Failure(e)
        case Success(rest) => Success([sat] + rest)
  }

  /** `extractSatelliteData` on what reading the file gave. */
  function Extract(file: Result<seq<string>, string>): Result<seq<Satellite>, ExtractError>
  {
    match file
    case Failure(reason) => Failure(ReadFailed(reason))
    case Success(lines) => Collect(Entries(lines, 0))
  }

  /** The entries parsed so far, put in front of a result. */
  function Prepend(done: seq<Satellite>, r: Result<seq<Satellite>, ExtractError>): Result<seq<Satellite>, ExtractError>
  {
    match r
    case Success(rest) => Success(done + rest)
    case Failure(e) => Failure(e)
  }

  /** The Go loop, which stops at the first bad entry. */
  method ExtractSatelliteData(file: Result<seq<string>, string>) returns (r: Result<seq<Satellite>, ExtractError>)
    ensures r == Extract(file)
  {
    if file.Failure? {
      return Failure(ReadFailed(file.error));
    }
    var fileLines := file.value;
    var output: seq<Satellite> := [];
    var i := 0;
    assert Prepend([], Collect(Entries(fileLines, 0))) == Collect(Entries(fileLines, 0)) by {
      var c := Collect(Entries(fileLines, 0));
      if c.Success? { assert [] + c.value == c.value; }
    }
    while i + 2 < |fileLines|
      invariant i <= |fileLines|
      invariant Extract(file) == Prepend(output, Collect(Entries(fileLines, i)))
      decreases |fileLines| - i
    {
      EntriesStep(fileLines, i);
      assert Entries(fileLines, i)[1..] == Entries(fileLines, i + 3);
      if |fileLines[i + 1]| != 69 {
        return Failure(TleLine1Length(i, |fileLines[i + 1]|));
      }
      if |fileLines[i + 2]| != 69 {
        return Failure(TleLine2Length(i, |fileLines[i + 2]|));
      }
      var noradId := Atoi(fileLines[i + 2][2..7]);
      if noradId.None? {
        return Failure(NoradIdNotInteger(fileLines[i + 1][2..6]));
      }
      var name := RemoveTrailingSpaces(fileLines[i]);
      var sat := Satellite(name, noradId.value, fileLines[i + 1], fileLines[i + 2]);
      assert ParseEntry(fileLines, i) == Success(sat);
      var c := Collect(Entries(fileLines, i + 3));
      if c.Success? {
        assert (output + [sat]) + c.value == output + ([sat] + c.value);
      }
      output := output + [sat];
      i := i + 3;
    }
    assert Entries(fileLines, i) == [];
    assert output + [] == output;
    r := Success(output);
  }

  /** Collecting succeeds exactly when every entry parses, and then gives one satellite
      per entry, in order. */
  lemma {:induction false} CollectSuccess(rs: seq<Result<Satellite, ExtractError>>)
    ensures Collect(rs).Success? <==> forall t :: 0 <= t < |rs| ==> rs[t].Success?
    ensures Collect(rs).Success? ==>
      |Collect(rs).value| == |rs| && forall t :: 0 <= t < |rs| ==> Collect(rs).value[t] == rs[t].value
  {
    if rs != [] {
      CollectSuccess(rs[1..]);
      if Collect(rs).Success? {
        forall t | 0 < t < |rs| ensures rs[t].Success? && Collect(rs).value[t] == rs[t].value {
          assert rs[1..][t - 1] == rs[t];
        }
      } else if rs[0].Success? {
        var u :| 0 <= u < |rs[1..]| && !rs[1..][u].Success?;
        assert rs[u + 1] == rs[1..][u];
      }
    }
  }

  /** Entry `t` is the first one that does not parse, and fails with `e`. */
  predicate FirstFailure(rs: seq<Result<Satellite, ExtractError>>, t: nat, e: ExtractError)
  {
    t < |rs| && rs[t] == Failure(e) && forall u :: 0 <= u < t ==> rs[u].Success?
  }

  /** A failed collection reports the error of the first entry that does not parse. */
  lemma {:induction false} CollectFailure(rs: seq<Result<Satellite, ExtractError>>)
    requires Collect(rs).Failure?
    ensures exists t: nat :: FirstFailure(rs, t, Collect(rs).error)
  {
    var e := Collect(rs).error;
    if rs[0].Failure? {
      assert FirstFailure(rs, 0, e);
    } else {
      CollectFailure(rs[1..]);
      var t: nat :| FirstFailure(rs[1..], t, e);
      assert rs[t + 1] == rs[1..][t];
      forall u | 0 < u < t + 1 ensures rs[u].Success? { assert rs[u] == rs[1..][u - 1]; }
      assert FirstFailure(rs, t + 1, e);
    }
  }

  /** `extractSatelliteData` on the lines of a file: it succeeds exactly when every
      complete entry parses, giving one satellite per entry in file order; otherwise it
      reports the error of the first entry that does not parse. */
  lemma ExtractSpec(lines: seq<string>)
    ensures var r := Extract(Success(lines));
      (r.Success? <==> forall t :: 0 <= t < |lines| / 3 ==> ParseEntry(lines, 3 * t).Success?) &&
      (r.Success? ==>
         |r.value| == |lines| / 3 &&
         forall t :: 0 <= t < |lines| / 3 ==> r.value[t] == ParseEntry(lines, 3 * t).value) &&
      (r.Failure? ==> exists t: nat :: FirstFailure(Entries(lines, 0), t, r.error))
  {
    var rs := Entries(lines, 0);
    CollectSuccess(rs);
    if Collect(rs).Failure? {
      CollectFailure(rs);
    }
    forall t | 0 <= t < |lines| / 3 ensures rs[t] == ParseEntry(lines, 3 * t) {
      assert 0 + 3 * t == 3 * t;
    }
  }

  /** Every extracted satellite carries two 69-byte lines. */
  lemma ExtractedLineLengths(lines: seq<string>)
    ensures var r := Extract(Success(lines));
      r.Success? ==> forall k :: 0 <= k < |r.value| ==> |r.value[k].tleLine1| == 69 && |r.value[k].tleLine2| == 69
  {
    var rs := Entries(lines, 0);
    CollectSuccess(rs);
    if Collect(rs).Success? {
      forall k | 0 <= k < |rs| ensures |Collect(rs).value[k].tleLine1| == 69 && |Collect(rs).value[k].tleLine2| == 69 {
        assert rs[k] == ParseEntry(lines, 0 + 3 * k);
      }
    }
  }

  /** The loop of `update` over the new list: each satellite written into the name map
      and appended to the groups whose pattern matches its name. */
  method BuildIndexes(tleList: seq<Satellite>, patterns: map<string, NamePattern>)
    returns (nameMap: map<string, Satellite>, groups: map<string, seq<Satellite>>)
    ensures nameMap == NameIndex(tleList)
    ensures groups == Groups(tleList, patterns)
  {
    nameMap := map[];
    groups := map[];
    for k := 0 to |tleList|
      invariant nameMap == NameIndex(tleList[..k])
      invariant groups == Groups(tleList[..k], patterns)
    {
      var satellite := tleList[k];
      assert tleList[..k + 1] == tleList[..k] + [satellite];
      nameMap := nameMap[satellite.satelliteName := satellite];
      groups := AddToGroups(groups, satellite, tleList[..k], patterns);
    }
    assert tleList[..|tleList|] == tleList;
  }

  /** `m` and `g` agree on the keys in `keys`: same presence, same group. */
  predicate AgreesOn(m: map<string, seq<Satellite>>, g: map<string, seq<Satellite>>, keys: set<string>)
  {
    forall c :: c in keys ==> (c in m <==> c in g) && (c in g ==> m[c] == g[c])
  }

  /** The inner loop of `update`: the satellite appended to each group whose pattern
      matches its name, the patterns visited in any order. */
  method AddToGroups(groups: map<string, seq<Satellite>>, satellite: Satellite, before: seq<Satellite>,
                     patterns: map<string, NamePattern>)
    returns (r: map<string, seq<Satellite>>)
    requires groups == Groups(before, patterns)
    ensures r == Groups(before + [satellite], patterns)
  {
    ghost var after := Groups(before + [satellite], patterns);
    r := groups;
    var remaining := patterns.Keys;
    ghost var visited: set<string> := {};
    while remaining != {}
      invariant remaining !! visited && remaining + visited == patterns.Keys
      invariant r.Keys <= patterns.Keys
      invariant AgreesOn(r, after, visited)
      invariant AgreesOn(r, groups, remaining)
      decreases remaining
    {
      var c :| c in remaining;
      GroupsStep(before, satellite, patterns, c);
      var next := r;
      if Matches(patterns[c], satellite.satelliteName) {
        var group := if c in r then r[c] else [];
        next := r[c := group + [satellite]];
      }
      AgreementStep(r, next, after, groups, visited, remaining, c);
      r := next;
      remaining := remaining - {c};
      visited := visited + {c};
    }
    AgreementIsEquality(r, after, patterns.Keys);
  }

  /** Settling key `c` moves it from the keys that still agree with the old groups to the
      keys that agree with the new ones. */
  lemma AgreementStep(r: map<string, seq<Satellite>>, next: map<string, seq<Satellite>>,
                      after: map<string, seq<Satellite>>, groups: map<string, seq<Satellite>>,
                      visited: set<string>, remaining: set<string>, c: string)
    requires c in remaining && remaining !! visited
    requires AgreesOn(r, after, visited) && AgreesOn(r, groups, remaining)
    requires (c in next <==> c in after) && (c in after ==> next[c] == after[c])
    requires next.Keys - {c} == r.Keys - {c}
    requires forall k :: k in r && k != c ==> k in next && next[k] == r[k]
    ensures AgreesOn(next, after, visited + {c}) && AgreesOn(next, groups, remaining - {c})
  {
    forall k | k in visited + {c} && k != c ensures (k in next <==> k in r) {
      assert k in next <==> k in next.Keys - {c};
    }
    forall k | k in remaining - {c} ensures (k in next <==> k in r) {
      assert k in next <==> k in next.Keys - {c};
    }
  }

  lemma AgreementIsEquality(m: map<string, seq<Satellite>>, g: map<string, seq<Satellite>>, keys: set<string>)
    requires m.Keys <= keys && g.Keys <= keys && AgreesOn(m, g, keys)
    ensures m == g
  {
    assert m.Keys == g.Keys;
  }

  // ---------------------------------------------------------------------------
  // FileSource

  /** `Satellite.IsNull` is not part of this model; it is taken to compare with the zero
      value, which is what a Go map lookup of a missing name yields. */
  predicate IsNull(sat: Satellite) { sat == ZeroSatellite }

  /** A catalog filled from a file: the satellites in file order, the name map and the
      constellation groups of `patterns` (the package's constellation table). */
  class FileSource {
    const filePath: string
    const updatePeriod: int
    const patterns: map<string, NamePattern>
    var twoLineElements: seq<Satellite>
    var twoLineElementsMap: map<string, Satellite>
    var constellations: map<string, seq<Satellite>>

    /** Both indexes are those of the list, and every entry came out of a file. */
    ghost predicate Valid()
      reads this
    {
      twoLineElementsMap == NameIndex(twoLineElements) &&
      constellations == Groups(twoLineElements, patterns) &&
      forall k :: 0 <= k < |twoLineElements| ==> |twoLineElements[k].tleLine1| == 69
    }

    /** `NewFileSource`: nothing loaded yet. */
    constructor (filePath: string, refreshRateSeconds: int, patterns: map<string, NamePattern>)
      ensures this.filePath == filePath && updatePeriod == refreshRateSeconds && this.patterns == patterns
      ensures twoLineElements == [] && twoLineElementsMap == map[] && constellations == map[]
      ensures Valid()
    {
      this.filePath := filePath;
      updatePeriod := refreshRateSeconds;
      this.patterns := patterns;
      twoLineElements := [];
      twoLineElementsMap := map[];
      constellations := map[];
    }

    /** `update`: on a failed read or extraction nothing changes; otherwise the list is
        replaced and both indexes are rebuilt from it. */
    method Update(file: Result<seq<string>, string>) returns (err: Option<ExtractError>)
      requires Valid()
      modifies this
      ensures Valid()
      ensures Extract(file).Failure? ==>
        err == Some(Extract(file).error) && unchanged(this)
      ensures Extract(file).Success? ==>
        err == None && twoLineElements == Extract(file).value &&
        twoLineElementsMap == NameIndex(twoLineElements) &&
        constellations == Groups(twoLineElements, patterns)
    {
      var extracted := ExtractSatelliteData(file);
      if extracted.Failure? {
        return Some(extracted.error);
      }
      var tleList := extracted.value;
      ExtractedLineLengths(file.value);
      var nameMap, groups := BuildIndexes(tleList, patterns);
      twoLineElements := tleList;
      twoLineElementsMap := nameMap;
      constellations := groups;
      err := None;
    }

    /** `GetData`: the whole list, or not found when it is empty. */
    method GetData() returns (r: Result<seq<Satellite>, LookupError>)
      ensures twoLineElements == [] ==> r == Failure(NotFound("no satellite found"))
      ensures twoLineElements != [] ==> r == Success(twoLineElements)
    {
      if |twoLineElements| == 0 {
        r := Failure(NotFound("no satellite found"));
      } else {
        r := Success(twoLineElements);
      }
    }

    /** `GetConstellation`: the group of a constellation, which exists exactly when its
        pattern matches some satellite of the list. */
    method GetConstellation(name: string) returns (r: Result<seq<Satellite>, LookupError>)
      requires Valid()
      ensures r.Success? <==> name in patterns && exists s :: s in twoLineElements && Matches(patterns[name], s.satelliteName)
      ensures r.Success? ==> r.value == Filter(twoLineElements, patterns[name])
      ensures r.Failure? ==> r.error == NotFound("no satellite found")
    {
      if name in patterns {
        FilterMembers(twoLineElements, patterns[name]);
      }
      if name !in constellations || |constellations[name]| == 0 {
        r := Failure(NotFound("no satellite found"));
      } else {
        r := Success(constellations[name]);
        assert constellations[name][0] in Filter(twoLineElements, patterns[name]);
      }
    }

    /** `GetSatellite`: the last satellite of the list with that name, or not found. */
    method GetSatellite(satelliteName: string) returns (r: Result<Satellite, LookupError>)
      requires Valid()
      ensures r.Success? <==> satelliteName in Names(twoLineElements)
      ensures r.Success? ==> r.value.satelliteName == satelliteName && r.value in twoLineElements
      ensures r.Success? ==> forall k :: 0 <= k < |twoLineElements| && twoLineElements[k].satelliteName == satelliteName ==>
        (r.value == twoLineElements[k] || exists j :: k < j < |twoLineElements| && twoLineElements[j].satelliteName == satelliteName)
      ensures r.Failure? ==> r.error == NotFound("satellite " + satelliteName + " not found")
    {
      var sat := if satelliteName in twoLineElementsMap then twoLineElementsMap[satelliteName] else ZeroSatellite;
      if IsNull(sat) {
        r := Failure(NotFound("satellite " + satelliteName + " not found"));
      } else {
        r := Success(sat);
        forall k | 0 <= k < |twoLineElements| && twoLineElements[k].satelliteName == satelliteName &&
          !exists j :: k < j < |twoLineElements| && twoLineElements[j].satelliteName == satelliteName
          ensures r.value == twoLineElements[k]
        {
          NameIndexHoldsLast(twoLineElements, k);
        }
      }
    }
  }
}
