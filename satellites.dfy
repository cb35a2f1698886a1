/** data/data.go's Satellite record, and the two indexes both catalog sources rebuild from
    a satellite list: the name map (a later satellite replaces an earlier one with the same
    name, as repeated Go map writes do) and the constellation groups. */
module Satellites {

  datatype Satellite = Satellite(satelliteName: string, noradId: int, tleLine1: string, tleLine2: string)

  /** The not-found error both catalog sources return from their lookups. */
  datatype LookupError = NotFound(message: string)

  /** Go's zero value `Satellite{}`. */
  const ZeroSatellite := Satellite("", 0, "", "")

  /** The names of the satellites in a list. */
  function Names(sats: seq<Satellite>): set<string>
  {
    set i | 0 <= i < |sats| :: sats[i].satelliteName
  }

  /** The map obtained by writing `m[s.SatelliteName] = s` for each satellite in order. */
  function NameIndex(sats: seq<Satellite>): (m: map<string, Satellite>)
    ensures m.Keys == Names(sats)
    ensures forall n :: n in m ==> m[n].satelliteName == n && m[n] in sats
  {
    if sats == [] then map[]
    else
      var init := sats[..|sats| - 1];
      var last := sats[|sats| - 1];
      assert sats == init + [last];
      assert Names(sats) == Names(init) + {last.satelliteName} by {
        forall n | n in Names(sats) ensures n in Names(init) + {last.satelliteName} {
          var i :| 0 <= i < |sats| && sats[i].satelliteName == n;
          if i < |init| { assert init[i] == sats[i]; }
        }
        forall n | n in Names(init) ensures n in Names(sats) {
          var i :| 0 <= i < |init| && init[i].satelliteName == n;
          assert sats[i] == init[i];
        }
      }
      NameIndex(init)[last.satelliteName := last]
  }

  /** The name map holds, for each name, the last satellite of the list with that name. */
  lemma {:induction false} NameIndexHoldsLast(sats: seq<Satellite>, j: nat)
    requires j < |sats|
    requires forall k :: j < k < |sats| ==> sats[k].satelliteName != sats[j].satelliteName
    ensures sats[j].satelliteName in NameIndex(sats)
    ensures NameIndex(sats)[sats[j].satelliteName] == sats[j]
    decreases |sats|
  {
    if j < |sats| - 1 {
      var init := sats[..|sats| - 1];
      assert init[j] == sats[j];
      NameIndexHoldsLast(init, j);
    }
  }

  /** Satellites that share a name are identical. */
  predicate NamesDetermineSatellites(sats: seq<Satellite>)
  {
    forall i, j :: 0 <= i < |sats| && 0 <= j < |sats| && sats[i].satelliteName == sats[j].satelliteName ==> sats[i] == sats[j]
  }

  /** When a name determines the satellite, the name map does not depend on the order of
      the list: any reordering gives the same map. */
  lemma NameIndexOrderIndependent(a: seq<Satellite>, b: seq<Satellite>)
    requires multiset(a) == multiset(b)
    requires NamesDetermineSatellites(a)
    ensures NameIndex(a) == NameIndex(b)
  {
    forall s | s in b ensures s in a { assert s in multiset(b); }
    forall s | s in a ensures s in b { assert s in multiset(a); }
    assert Names(a) == Names(b) by {
      forall n | n in Names(a) ensures n in Names(b) {
        var i :| 0 <= i < |a| && a[i].satelliteName == n;
        assert a[i] in b;
        var j :| 0 <= j < |b| && b[j] == a[i];
      }
      forall n | n in Names(b) ensures n in Names(a) {
        var j :| 0 <= j < |b| && b[j].satelliteName == n;
        assert b[j] in a;
        var i :| 0 <= i < |a| && a[i] == b[j];
      }
    }
    forall n | n in NameIndex(a) ensures NameIndex(a)[n] == NameIndex(b)[n] {
      var i :| 0 <= i < |a| && a[i] == NameIndex(a)[n];
      var j :| 0 <= j < |a| && a[j] == NameIndex(b)[n];
    }
  }

  /** A constellation's name pattern, applied to satellite names with `MatchString`: a
      pattern anchored at the start of the name, or one found anywhere in it. */
  datatype NamePattern = Prefix(prefix: string) | Contains(text: string)

  predicate OccursAt(t: string, name: string, i: nat)
  {
    i + |t| <= |name| && name[i..i + |t|] == t
  }

  predicate Matches(p: NamePattern, name: string)
  {
    match p
    case Prefix(t) => OccursAt(t, name, 0)
    case Contains(t) => exists i: nat | i <= |name| :: OccursAt(t, name, i)
  }

  /** The satellites whose name matches `p`, in list order. */
  function Filter(sats: seq<Satellite>, p: NamePattern): (r: seq<Satellite>)
    ensures |r| <= |sats|
  {
    if sats == [] then []
    else
      var init := sats[..|sats| - 1];
      var last := sats[|sats| - 1];
      assert sats == init + [last];
      Filter(init, p) + (if Matches(p, last.satelliteName) then [last] else [])
  }

  /** A group holds exactly the satellites of the list whose name matches. */
  lemma {:induction false} FilterMembers(sats: seq<Satellite>, p: NamePattern)
    ensures forall s :: s in Filter(sats, p) <==> s in sats && Matches(p, s.satelliteName)
    decreases |sats|
  {
    if sats != [] {
      var init := sats[..|sats| - 1];
      assert sats == init + [sats[|sats| - 1]];
      FilterMembers(init, p);
    }
  }

  /** Filtering distributes over concatenation, so a group keeps the list's order. */
  lemma {:induction false} FilterAppend(a: seq<Satellite>, b: seq<Satellite>, p: NamePattern)
    ensures Filter(a + b, p) == Filter(a, p) + Filter(b, p)
    decreases |b|
  {
    if b != [] {
      var b' := b[..|b| - 1];
      assert (a + b)[..|a + b| - 1] == a + b';
      FilterAppend(a, b', p);
    } else {
      assert a + b == a;
    }
  }

  /** The constellation groups of a list: a group exists for a pattern only when some
      satellite matches it (a Go `append` to a missing key creates the key). */
  function Groups(sats: seq<Satellite>, patterns: map<string, NamePattern>): (g: map<string, seq<Satellite>>)
    ensures g.Keys <= patterns.Keys
    ensures forall c :: c in g ==> g[c] != []
  {
    map c | c in patterns && Filter(sats, patterns[c]) != [] :: Filter(sats, patterns[c])
  }

  /** What adding one satellite does to one group. */
  lemma GroupsStep(sats: seq<Satellite>, sat: Satellite, patterns: map<string, NamePattern>, c: string)
    requires c in patterns
    ensures var before := Groups(sats, patterns);
      var after := Groups(sats + [sat], patterns);
      if Matches(patterns[c], sat.satelliteName) then
        c in after && after[c] == (if c in before then before[c] else []) + [sat]
      else
        (c in after <==> c in before) && (c in before ==> after[c] == before[c])
  {
    var whole := sats + [sat];
    assert whole[..|whole| - 1] == sats;
  }
}
