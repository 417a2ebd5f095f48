/** The facilities page: facilities grouped by sport, then by facility type,
    each group keeping the facilities in the order the list gave them. */
module FacilityGroups {
  import opened Common

  datatype Facility = Facility(
    id: string,
    name: string,
    sport: string,
    facilityType: string,
    minMinutes: int,
    maxMinutes: int,
    openTime: string,
    closeTime: string)

  predicate HasSport(fs: seq<Facility>, sport: string)
  {
    exists k :: 0 <= k < |fs| && fs[k].sport == sport
  }

  predicate HasGroup(fs: seq<Facility>, sport: string, kind: string)
  {
    exists k :: 0 <= k < |fs| && fs[k].sport == sport && fs[k].facilityType == kind
  }

  /** The facilities of one sport and type, in list order. */
  function Bucket(fs: seq<Facility>, sport: string, kind: string): seq<Facility>
  {
    if fs == [] then []
    else
      var f := fs[|fs| - 1];
      Bucket(fs[..|fs| - 1], sport, kind) + (if f.sport == sport && f.facilityType == kind then [f] else [])
  }

  /** One step of the grouping `reduce`: append the facility to its
      sport's entry for its type, creating either entry when missing. */
  function Push(groups: map<string, map<string, seq<Facility>>>, f: Facility): map<string, map<string, seq<Facility>>>
  {
    var types := if f.sport in groups then groups[f.sport] else map[];
    var bucket := if f.facilityType in types then types[f.facilityType] else [];
    groups[f.sport := types[f.facilityType := bucket + [f]]]
  }

  /** The grouping of a whole list. */
  function Grouped(fs: seq<Facility>): map<string, map<string, seq<Facility>>>
  {
    if fs == [] then map[] else Push(Grouped(fs[..|fs| - 1]), fs[|fs| - 1])
  }

  /** The grouping `reduce`, building the nested dictionary in place. */
  method Group(fs: seq<Facility>) returns (groups: map<string, map<string, seq<Facility>>>)
    ensures groups == Grouped(fs)
    ensures forall s :: s in groups <==> HasSport(fs, s)
    ensures forall s, t :: s in groups ==> (t in groups[s] <==> HasGroup(fs, s, t))
    ensures forall s, t :: s in groups && t in groups[s] ==> groups[s][t] == Bucket(fs, s, t)
  {
    groups := map[];
    for i := 0 to |fs|
      invariant groups == Grouped(fs[..i])
    {
      assert fs[..i + 1][..i] == fs[..i];
      var f := fs[i];
      var types := if f.sport in groups then groups[f.sport] else map[];
      var bucket := if f.facilityType in types then types[f.facilityType] else [];
      groups := groups[f.sport := types[f.facilityType := bucket + [f]]];
    }
    assert fs[..|fs|] == fs;
    GroupedMeaning(fs);
  }

  /** The grouping has an entry per sport present, within it an entry per
      type present for that sport, and that entry is exactly the bucket. */
  lemma {:induction false} GroupedMeaning(fs: seq<Facility>)
    ensures forall s :: s in Grouped(fs) <==> HasSport(fs, s)
    ensures forall s, t :: s in Grouped(fs) ==> (t in Grouped(fs)[s] <==> HasGroup(fs, s, t))
    ensures forall s, t :: s in Grouped(fs) && t in Grouped(fs)[s] ==> Grouped(fs)[s][t] == Bucket(fs, s, t)
  {
    if fs != [] {
      var i := |fs| - 1;
      var f := fs[i];
      var g := Grouped(fs[..i]);
      GroupedMeaning(fs[..i]);
      PrefixStep(fs, i);
      assert fs[..i + 1] == fs;
      assert Grouped(fs) == Push(g, f);
      forall s ensures s in Grouped(fs) <==> HasSport(fs, s) {
      }
      forall s, t | s in Grouped(fs)
        ensures t in Grouped(fs)[s] <==> HasGroup(fs, s, t)
      {
        if s != f.sport {
          assert Grouped(fs)[s] == g[s];
        }
      }
      forall s, t | s in Grouped(fs) && t in Grouped(fs)[s]
        ensures Grouped(fs)[s][t] == Bucket(fs, s, t)
      {
        if s != f.sport || t != f.facilityType {
          PushElsewhere(g, f, s, t);
        } else if !(s in g && t in g[s]) {
          BucketEmpty(fs[..i], s, t);
        }
      }
    }
  }

  /** Pushing a facility leaves every other bucket as it was. */
  lemma PushElsewhere(g: map<string, map<string, seq<Facility>>>, f: Facility, s: string, t: string)
    requires s != f.sport || t != f.facilityType
    requires s in Push(g, f) && t in Push(g, f)[s]
    ensures s in g && t in g[s] && Push(g, f)[s][t] == g[s][t]
  {
  }

  /** What one more facility adds to the sports, groups and buckets seen. */
  lemma PrefixStep(fs: seq<Facility>, i: nat)
    requires i < |fs|
    ensures forall s :: HasSport(fs[..i + 1], s) <==> HasSport(fs[..i], s) || s == fs[i].sport
    ensures forall s, t :: HasGroup(fs[..i + 1], s, t) <==>
      HasGroup(fs[..i], s, t) || (s == fs[i].sport && t == fs[i].facilityType)
    ensures forall s, t :: (Bucket(fs[..i + 1], s, t) ==
      Bucket(fs[..i], s, t) + (if fs[i].sport == s && fs[i].facilityType == t then [fs[i]] else []))
  {
    var f := fs[i];
    assert fs[..i + 1][..i] == fs[..i];
    assert fs[..i + 1][i] == f;
    forall s ensures HasSport(fs[..i + 1], s) <==> HasSport(fs[..i], s) || s == f.sport {
      if HasSport(fs[..i + 1], s) && s != f.sport {
        var k :| 0 <= k < i + 1 && fs[..i + 1][k].sport == s;
        assert fs[..i][k].sport == s;
      }
      if HasSport(fs[..i], s) {
        var k :| 0 <= k < i && fs[..i][k].sport == s;
        assert fs[..i + 1][k].sport == s;
      }
    }
    forall s, t ensures HasGroup(fs[..i + 1], s, t) <==> HasGroup(fs[..i], s, t) || (s == f.sport && t == f.facilityType) {
      if HasGroup(fs[..i + 1], s, t) && !(s == f.sport && t == f.facilityType) {
        var k :| 0 <= k < i + 1 && fs[..i + 1][k].sport == s && fs[..i + 1][k].facilityType == t;
        assert fs[..i][k].sport == s && fs[..i][k].facilityType == t;
      }
      if HasGroup(fs[..i], s, t) {
        var k :| 0 <= k < i && fs[..i][k].sport == s && fs[..i][k].facilityType == t;
        assert fs[..i + 1][k].sport == s && fs[..i + 1][k].facilityType == t;
      }
    }
  }

  /** A bucket is empty exactly when no facility has its sport and type. */
  lemma {:induction false} BucketEmpty(fs: seq<Facility>, sport: string, kind: string)
    ensures Bucket(fs, sport, kind) == [] <==> !HasGroup(fs, sport, kind)
  {
    if fs != [] {
      var init := fs[..|fs| - 1];
      BucketEmpty(init, sport, kind);
      if HasGroup(init, sport, kind) {
        var k :| 0 <= k < |init| && init[k].sport == sport && init[k].facilityType == kind;
        assert fs[k] == init[k];
      }
      if HasGroup(fs, sport, kind) && !HasGroup(init, sport, kind) {
        var k :| 0 <= k < |fs| && fs[k].sport == sport && fs[k].facilityType == kind;
        assert k == |fs| - 1;
      }
    }
  }

  /** Every facility is shown exactly as often as the list holds it, in the
      bucket of its own sport and type and in no other. */
  lemma {:induction false} BucketCounts(fs: seq<Facility>, sport: string, kind: string, f: Facility)
    ensures multiset(Bucket(fs, sport, kind))[f]
         == if f.sport == sport && f.facilityType == kind then multiset(fs)[f] else 0
  {
    if fs != [] {
      var init := fs[..|fs| - 1];
      BucketCounts(init, sport, kind, f);
      assert fs == init + [fs[|fs| - 1]];
    }
  }

  /** A facility type as a heading: every underscore becomes a space. */
  function TypeLabel(t: string): (r: string)
    ensures |r| == |t|
    ensures forall i :: 0 <= i < |t| ==> r[i] == if t[i] == '_' then ' ' else t[i]
  {
    if t == [] then []
    else (if t[0] == '_' then " " else [t[0]]) + TypeLabel(t[1..])
  }

  /** A heading holds no underscore, and a type without one is its own heading. */
  lemma TypeLabelClean(t: string)
    ensures '_' !in TypeLabel(t)
    ensures '_' !in t ==> TypeLabel(t) == t
  {
    assert forall i :: 0 <= i < |t| ==> TypeLabel(t)[i] != '_';
  }

  /** The opening hours shown on a facility card; a blank time shows the
      default. */
  function DisplayHours(f: Facility): (hours: (string, string))
    ensures hours.0 != "" && hours.1 != ""
    ensures f.openTime != "" ==> hours.0 == f.openTime
    ensures f.closeTime != "" ==> hours.1 == f.closeTime
    ensures f.openTime == "" ==> hours.0 == "08:00"
    ensures f.closeTime == "" ==> hours.1 == "22:00"
  {
    (if f.openTime != "" then f.openTime else "08:00", if f.closeTime != "" then f.closeTime else "22:00")
  }
}
