// The church directory screens (Views/User/Churches/ChurchesListView.swift and
// Views/User/Churches/ChurchesGroupView.swift): filtering churches by island
// group, grouping one group's churches by sub-region, the order the sections
// are shown in, the section header text and the region cover images.

module ChurchDirectory {
  import opened Models
  import Constants

  // ---------------------------------------------------------------------
  // Filtering (Swift's `filter`) and its properties
  // ---------------------------------------------------------------------

  /** The churches of `s` whose `key` is `v`, in input order. */
  function Where(s: seq<Church>, key: Church -> string, v: string): (r: seq<Church>)
    ensures |r| <= |s|
    ensures forall c :: c in r <==> c in s && key(c) == v
  {
    if s == [] then []
    else
      assert forall c :: c in s <==> c == s[0] || c in s[1..];
      (if key(s[0]) == v then [s[0]] else []) + Where(s[1..], key, v)
  }

  /** No church has the key: the list is empty. */
  lemma {:induction false} WhereNone(s: seq<Church>, key: Church -> string, v: string)
    requires forall c :: c in s ==> key(c) != v
    ensures Where(s, key, v) == []
  {
    if s != [] {
      assert s[0] in s;
      WhereNone(s[1..], key, v);
    }
  }

  /** `r` can be obtained from `s` by deleting elements. */
  predicate IsSubsequence(r: seq<Church>, s: seq<Church>)
    decreases |s|
  {
    if r == [] then true
    else if s == [] then false
    else if r[0] == s[0] then IsSubsequence(r[1..], s[1..])
    else IsSubsequence(r, s[1..])
  }

  lemma {:induction false} WhereKeepsOrder(s: seq<Church>, key: Church -> string, v: string)
    ensures IsSubsequence(Where(s, key, v), s)
  {
    if s != [] {
      WhereKeepsOrder(s[1..], key, v);
      var r := Where(s, key, v);
      if key(s[0]) == v {
        assert r[0] == s[0] && r[1..] == Where(s[1..], key, v);
      } else if r != [] {
        assert r == Where(s[1..], key, v);
        assert r[0] in r && key(r[0]) == v;
      }
    }
  }

  /** Each church occurs in the filtered list as often as in the input when
      it matches, and not at all otherwise. */
  lemma {:induction false} WhereMultiplicity(s: seq<Church>, key: Church -> string, v: string, c: Church)
    ensures multiset(Where(s, key, v))[c] == if key(c) == v then multiset(s)[c] else 0
  {
    if s != [] {
      WhereMultiplicity(s[1..], key, v, c);
      assert s == [s[0]] + s[1..];
    }
  }

  /** Appending one church extends exactly the list of its own key. */
  lemma {:induction false} WhereAppend(s: seq<Church>, c: Church, key: Church -> string, v: string)
    ensures Where(s + [c], key, v) == Where(s, key, v) + (if key(c) == v then [c] else [])
  {
    if s == [] {
      assert [c][1..] == [];
    } else {
      assert (s + [c])[0] == s[0];
      assert (s + [c])[1..] == s[1..] + [c];
      WhereAppend(s[1..], c, key, v);
    }
  }

  /** The churches of `s` whose `key` is one of `ks`, in input order. */
  function WhereIn(s: seq<Church>, key: Church -> string, ks: set<string>): (r: seq<Church>)
    ensures |r| <= |s|
    ensures |r| == |s| <==> forall c :: c in s ==> key(c) in ks
    ensures (forall c :: c in s ==> key(c) in ks) ==> r == s
  {
    if s == [] then []
    else
      assert forall c :: c in s <==> c == s[0] || c in s[1..];
      (if key(s[0]) in ks then [s[0]] else []) + WhereIn(s[1..], key, ks)
  }

  lemma {:induction false} WhereInNothing(s: seq<Church>, key: Church -> string)
    ensures WhereIn(s, key, {}) == []
  {
    if s != [] { WhereInNothing(s[1..], key); }
  }

  /** Adding one key to a key set adds exactly that key's churches. */
  lemma {:induction false} WhereInSplit(s: seq<Church>, key: Church -> string, k: string, ks: set<string>)
    requires k !in ks
    ensures multiset(WhereIn(s, key, {k} + ks)) == multiset(Where(s, key, k)) + multiset(WhereIn(s, key, ks))
  {
    if s != [] {
      WhereInSplit(s[1..], key, k, ks);
    }
  }

  // ---------------------------------------------------------------------
  // ChurchesGroupView
  // ---------------------------------------------------------------------

  /** `churchesForGroup`: the churches of one island group. */
  function ChurchesForGroup(churches: seq<Church>, group: string): seq<Church> {
    Where(churches, CountryGroupOf, group)
  }

  /** A group's list holds exactly that group's churches, each as often as in
      the input, in input order. */
  lemma ChurchesForGroupExact(churches: seq<Church>, group: string)
    ensures forall c :: c in ChurchesForGroup(churches, group) <==> c in churches && c.countryGroup == group
    ensures forall c :: multiset(ChurchesForGroup(churches, group))[c]
                        == if c.countryGroup == group then multiset(churches)[c] else 0
    ensures IsSubsequence(ChurchesForGroup(churches, group), churches)
  {
    forall c { WhereMultiplicity(churches, CountryGroupOf, group, c); }
    WhereKeepsOrder(churches, CountryGroupOf, group);
  }

  lemma GroupListsDisjoint(churches: seq<Church>, g: string, h: string, c: Church)
    requires g != h
    ensures !(c in ChurchesForGroup(churches, g) && c in ChurchesForGroup(churches, h))
  {
  }

  /** The keys of `keys` as a set. */
  function SetOf(keys: seq<string>): (r: set<string>)
    ensures forall k :: k in r <==> k in keys
  {
    set k | k in keys
  }

  /** The lists of the keys `keys`, one after the other. */
  function Sections(s: seq<Church>, key: Church -> string, keys: seq<string>): seq<Church> {
    if keys == [] then [] else Where(s, key, keys[0]) + Sections(s, key, keys[1..])
  }

  /** The lengths of the lists of the keys `keys`. */
  function Lengths(s: seq<Church>, key: Church -> string, keys: seq<string>): (r: seq<nat>)
    ensures |r| == |keys|
    ensures forall i :: 0 <= i < |keys| ==> r[i] == |Where(s, key, keys[i])|
  {
    if keys == [] then [] else [|Where(s, key, keys[0])|] + Lengths(s, key, keys[1..])
  }

  function Sum(xs: seq<nat>): nat {
    if xs == [] then 0 else xs[0] + Sum(xs[1..])
  }

  lemma {:induction false} LengthsSum(s: seq<Church>, key: Church -> string, keys: seq<string>)
    ensures Sum(Lengths(s, key, keys)) == |Sections(s, key, keys)|
  {
    if keys != [] {
      LengthsSum(s, key, keys[1..]);
      assert Lengths(s, key, keys)[1..] == Lengths(s, key, keys[1..]);
    }
  }

  /** The lists of distinct keys, one after the other, hold the same
      churches as one filter on all of those keys. */
  lemma {:induction false} SectionsPartition(s: seq<Church>, key: Church -> string, keys: seq<string>)
    requires Constants.NoDuplicates(keys)
    ensures multiset(Sections(s, key, keys)) == multiset(WhereIn(s, key, SetOf(keys)))
  {
    if keys == [] {
      assert SetOf(keys) == {};
      WhereInNothing(s, key);
    } else {
      var rest := keys[1..];
      assert Constants.NoDuplicates(rest) by {
        forall i, j | 0 <= i < j < |rest| ensures rest[i] != rest[j] {
          assert rest[i] == keys[i + 1] && rest[j] == keys[j + 1];
        }
      }
      SectionsPartition(s, key, rest);
      assert keys[0] !in SetOf(rest) by {
        forall j | 0 <= j < |rest| ensures rest[j] != keys[0] {
          assert rest[j] == keys[j + 1];
        }
      }
      assert SetOf(keys) == {keys[0]} + SetOf(rest);
      WhereInSplit(s, key, keys[0], SetOf(rest));
    }
  }

  /** Lists of distinct keys together are never longer than the input, and
      exactly as long when every church's key is among them. */
  lemma SectionsSize(s: seq<Church>, key: Church -> string, keys: seq<string>)
    requires Constants.NoDuplicates(keys)
    ensures |Sections(s, key, keys)| <= |s|
    ensures |Sections(s, key, keys)| == |s| <==> forall c :: c in s ==> key(c) in keys
  {
    SectionsPartition(s, key, keys);
    var w := WhereIn(s, key, SetOf(keys));
    assert |multiset(Sections(s, key, keys))| == |Sections(s, key, keys)|;
    assert |multiset(w)| == |w|;
  }

  /** The church counts shown on the region cards, one per country group;
      each is the length of the list that card navigates to. */
  function CardCounts(churches: seq<Church>): (counts: seq<nat>)
    ensures |counts| == |Constants.CountryGroups|
    ensures forall i :: 0 <= i < |counts| ==>
      counts[i] == |ChurchesForGroup(churches, Constants.CountryGroups[i])|
  {
    Lengths(churches, CountryGroupOf, Constants.CountryGroups)
  }

  /** The "Regions" stat card. */
  function RegionsStat(): nat {
    |Constants.CountryGroups|
  }

  /** The card counts add up to at most the "Total Churches" figure, and
      exactly to it when every church belongs to one of the country groups. */
  lemma CardCountsBoundedByTotal(churches: seq<Church>)
    ensures RegionsStat() == 3
    ensures Sum(CardCounts(churches)) <= |churches|
    ensures Sum(CardCounts(churches)) == |churches| <==>
      forall c :: c in churches ==> c.countryGroup in Constants.CountryGroups
  {
    assert Constants.NoDuplicates(Constants.CountryGroups);
    LengthsSum(churches, CountryGroupOf, Constants.CountryGroups);
    SectionsSize(churches, CountryGroupOf, Constants.CountryGroups);
  }

  /** `ModernRegionCardView.coverImage`. */
  function CoverImage(region: string): string {
    if region == "Luzon" then "luzon-cover"
    else if region == "Visayas" then "visayas-cover"
    else if region == "Mindanao" then "mindanao-cover"
    else ""
  }

  /** Exactly the country groups have a cover image, and no two share one. */
  lemma CoverImageForCountryGroups(a: string, b: string)
    ensures CoverImage(a) != "" <==> a in Constants.CountryGroups
    ensures CoverImage(a) != "" && a != b ==> CoverImage(a) != CoverImage(b)
  {
  }

  // ---------------------------------------------------------------------
  // ChurchesListView
  // ---------------------------------------------------------------------

  function RegionsOf(s: seq<Church>): set<string> {
    set c | c in s :: c.region
  }

  /** What `groupedChurches` denotes: one entry per sub-region that some
      church names, holding that sub-region's churches in input order. */
  function Grouping(churches: seq<Church>): map<string, seq<Church>> {
    map k | k in RegionsOf(churches) :: Where(churches, RegionOf, k)
  }

  /** `g` holds, for the churches seen so far, each seen sub-region's
      churches, and possibly empty entries for other keys. */
  predicate GroupsOf(g: map<string, seq<Church>>, seen: seq<Church>) {
    && (forall k :: k in g ==> g[k] == Where(seen, RegionOf, k))
    && RegionsOf(seen) <= g.Keys
  }

  /** One step of the source's loop: append `c` to its region's list. */
  lemma GroupStep(g: map<string, seq<Church>>, seen: seq<Church>, c: Church)
    requires GroupsOf(g, seen)
    ensures GroupsOf(g[c.region := (if c.region in g then g[c.region] else []) + [c]], seen + [c])
  {
    var g' := g[c.region := (if c.region in g then g[c.region] else []) + [c]];
    var seen' := seen + [c];
    forall k | k in g' ensures g'[k] == Where(seen', RegionOf, k) {
      WhereAppend(seen, c, RegionOf, k);
      if k !in g {
        // A region not yet in `g` has no church so far.
        forall d | d in seen ensures d.region != k {
          assert d.region in RegionsOf(seen);
        }
        WhereNone(seen, RegionOf, k);
      }
    }
    assert forall d :: d in seen' <==> d in seen || d == c;
    assert RegionsOf(seen') == RegionsOf(seen) + {c.region};
  }

  /** Dropping the empty entries leaves exactly the grouping. */
  lemma DropEmptyGroups(g: map<string, seq<Church>>, churches: seq<Church>)
    requires GroupsOf(g, churches)
    ensures (map k | k in g && g[k] != [] :: g[k]) == Grouping(churches)
  {
    forall k | k in g
      ensures g[k] != [] <==> k in RegionsOf(churches)
    {
      if k in RegionsOf(churches) {
        var c :| c in churches && c.region == k;
        assert c in Where(churches, RegionOf, k);
      }
      if g[k] != [] {
        var d := g[k][0];
        assert d in Where(churches, RegionOf, k);
        assert d in churches && d.region == k;
      }
    }
    var m := map k | k in g && g[k] != [] :: g[k];
    assert m.Keys == RegionsOf(churches);
  }

  /** `groupedChurches` for the list of one country group (`region`): seed
      an empty entry per listed sub-region, append each church to its own
      region's entry, then drop the empty entries. */
  method GroupedChurches(churches: seq<Church>, region: string) returns (grouped: map<string, seq<Church>>)
    ensures grouped == Grouping(churches)
  {
    var subRegions := if region in Constants.Regions then Constants.Regions[region] else [];
    var g: map<string, seq<Church>> := map[];
    for j := 0 to |subRegions|
      invariant forall k :: k in g ==> g[k] == []
    {
      g := g[subRegions[j] := []];
    }
    assert churches[..0] == [];
    for i := 0 to |churches|
      invariant GroupsOf(g, churches[..i])
    {
      var c := churches[i];
      assert churches[..i + 1] == churches[..i] + [c];
      GroupStep(g, churches[..i], c);
      var current := if c.region in g then g[c.region] else [];
      g := g[c.region := current + [c]];
    }
    assert churches[..|churches|] == churches;
    DropEmptyGroups(g, churches);
    grouped := map k | k in g && g[k] != [] :: g[k];
  }

  /** Every church lands in the group of its own `region`, whatever the
      country group's sub-region table lists. */
  lemma EveryChurchInItsRegionGroup(churches: seq<Church>, c: Church)
    requires c in churches
    ensures c.region in Grouping(churches)
    ensures c in Grouping(churches)[c.region]
  {
  }

  /** No group is empty, and each keeps the input order. */
  lemma GroupsNonEmptyAndOrdered(churches: seq<Church>, k: string)
    requires k in Grouping(churches)
    ensures Grouping(churches)[k] != []
    ensures IsSubsequence(Grouping(churches)[k], churches)
  {
    var c :| c in churches && c.region == k;
    assert c in Grouping(churches)[k];
    WhereKeepsOrder(churches, RegionOf, k);
  }

  /** The sections of `g` listed in the order `keys`, concatenated. */
  function Flatten(g: map<string, seq<Church>>, keys: seq<string>): seq<Church>
    requires forall k :: k in keys ==> k in g
  {
    if keys == [] then [] else g[keys[0]] + Flatten(g, keys[1..])
  }

  /** Listing groups of the grouping is listing the filters by sub-region. */
  lemma {:induction false} FlattenGrouping(churches: seq<Church>, keys: seq<string>)
    requires forall k :: k in keys ==> k in Grouping(churches)
    ensures Flatten(Grouping(churches), keys) == Sections(churches, RegionOf, keys)
  {
    if keys != [] {
      FlattenGrouping(churches, keys[1..]);
    }
  }

  /** Listing every group once, in any order, shows every church exactly as
      often as it occurs in the input: the section sizes add up to the count. */
  lemma GroupingPartitions(churches: seq<Church>, keys: seq<string>)
    requires Constants.NoDuplicates(keys)
    requires SetOf(keys) == Grouping(churches).Keys
    ensures multiset(Flatten(Grouping(churches), keys)) == multiset(churches)
    ensures |Flatten(Grouping(churches), keys)| == |churches|
  {
    FlattenGrouping(churches, keys);
    SectionsPartition(churches, RegionOf, keys);
    assert forall c :: c in churches ==> RegionOf(c) in SetOf(keys);
    assert |multiset(Flatten(Grouping(churches), keys))| == |Flatten(Grouping(churches), keys)|;
  }

  // Lexicographic order on strings, as `keys.sorted()` uses.

  predicate LexLess(a: string, b: string)
    decreases |a|
  {
    if a == [] then b != []
    else if b == [] then false
    else if a[0] == b[0] then LexLess(a[1..], b[1..])
    else a[0] < b[0]
  }

  lemma {:induction false} LexLessIrreflexive(a: string)
    ensures !LexLess(a, a)
  {
    if a != [] { LexLessIrreflexive(a[1..]); }
  }

  lemma {:induction false} LexLessTransitive(a: string, b: string, c: string)
    requires LexLess(a, b) && LexLess(b, c)
    ensures LexLess(a, c)
    decreases |a|
  {
    if a != [] && b != [] && c != [] && a[0] == b[0] && b[0] == c[0] {
      LexLessTransitive(a[1..], b[1..], c[1..]);
    }
  }

  lemma {:induction false} LexLessTotal(a: string, b: string)
    requires a != b
    ensures LexLess(a, b) || LexLess(b, a)
    decreases |a|
  {
    if a != [] && b != [] && a[0] == b[0] {
      assert a == [a[0]] + a[1..] && b == [b[0]] + b[1..];
      LexLessTotal(a[1..], b[1..]);
    }
  }

  predicate Least(m: string, ks: set<string>) {
    m in ks && forall k :: k in ks && k != m ==> LexLess(m, k)
  }

  lemma {:induction false} HasLeast(ks: set<string>)
    requires ks != {}
    ensures exists m :: Least(m, ks)
    decreases |ks|
  {
    var x :| x in ks;
    var rest := ks - {x};
    if rest == {} {
      assert ks == {x};
      assert Least(x, ks);
    } else {
      HasLeast(rest);
      var m :| Least(m, rest);
      if LexLess(m, x) {
        forall k | k in ks && k != m ensures LexLess(m, k) {
          if k == x { } else { assert k in rest; }
        }
        assert Least(m, ks);
      } else {
        LexLessTotal(m, x);
        assert m != x && LexLess(x, m);
        forall k | k in ks && k != x ensures LexLess(x, k) {
          if k != m {
            assert k in rest;
            LexLessTransitive(x, m, k);
          }
        }
        assert Least(x, ks);
      }
    }
  }

  /** Putting the least key in front of the rest in ascending order gives
      all keys in ascending order. */
  lemma PrependLeast(m: string, ks: set<string>, rest: seq<string>)
    requires Least(m, ks)
    requires SetOf(rest) == ks - {m} && |rest| == |ks - {m}|
    requires forall i, j :: 0 <= i < j < |rest| ==> LexLess(rest[i], rest[j])
    ensures SetOf([m] + rest) == ks && 1 + |rest| == |ks|
    ensures forall i, j :: 0 <= i < j < 1 + |rest| ==> LexLess(([m] + rest)[i], ([m] + rest)[j])
  {
    var r := [m] + rest;
    forall i, j | 0 <= i < j < |r| ensures LexLess(r[i], r[j]) {
      if i == 0 {
        assert r[j] == rest[j - 1] && r[j] in SetOf(rest);
      } else {
        assert r[i] == rest[i - 1] && r[j] == rest[j - 1];
      }
    }
    assert ks == (ks - {m}) + {m};
  }

  /** `keys.sorted()`: the keys in ascending order. */
  ghost function SortedKeys(ks: set<string>): (r: seq<string>)
    ensures SetOf(r) == ks
    ensures |r| == |ks|
    ensures forall i, j :: 0 <= i < j < |r| ==> LexLess(r[i], r[j])
    decreases |ks|
  {
    if ks == {} then []
    else
      HasLeast(ks);
      var m :| Least(m, ks);
      assert ks == (ks - {m}) + {m};
      var rest := SortedKeys(ks - {m});
      PrependLeast(m, ks, rest);
      [m] + rest
  }

  lemma AscendingHasNoDuplicates(r: seq<string>)
    requires forall i, j :: 0 <= i < j < |r| ==> LexLess(r[i], r[j])
    ensures Constants.NoDuplicates(r)
  {
    forall i, j | 0 <= i < j < |r| ensures r[i] != r[j] {
      if r[i] == r[j] { LexLessIrreflexive(r[i]); }
    }
  }

  /** The sections as rendered: in ascending sub-region order, every church of
      the list exactly once. */
  lemma RenderedSectionsPartition(churches: seq<Church>)
    ensures var keys := SortedKeys(Grouping(churches).Keys);
            (forall i, j :: 0 <= i < j < |keys| ==> LexLess(keys[i], keys[j])) &&
            multiset(Flatten(Grouping(churches), keys)) == multiset(churches)
  {
    var keys := SortedKeys(Grouping(churches).Keys);
    AscendingHasNoDuplicates(keys);
    GroupingPartitions(churches, keys);
  }

  // The section header text.

  function DigitChar(d: nat): (ch: char)
    requires d < 10
    ensures '0' <= ch <= '9'
  {
    (48 + d) as char
  }

  /** Swift's decimal rendering of a non-negative count. */
  function Decimal(n: nat): (r: string)
    ensures |r| >= 1
    ensures forall i :: 0 <= i < |r| ==> '0' <= r[i] <= '9'
  {
    if n < 10 then [DigitChar(n)] else Decimal(n / 10) + [DigitChar(n % 10)]
  }

  /** Reads a string of decimal digits back as a number. */
  function ParseDecimal(s: string): int {
    if s == [] then 0 else ParseDecimal(s[..|s| - 1]) * 10 + (s[|s| - 1] as int - 48)
  }

  lemma {:induction false} DecimalRoundTrip(n: nat)
    ensures ParseDecimal(Decimal(n)) == n
  {
    if n >= 10 {
      DecimalRoundTrip(n / 10);
      var r := Decimal(n);
      assert r[..|r| - 1] == Decimal(n / 10);
    }
  }

  /** `RegionHeaderView`'s count text. */
  function HeaderLabel(count: nat): string {
    Decimal(count) + " " + (if count == 1 then "Church" else "Churches")
  }

  /** The text reads the count back up to its first space, and the noun after
      it is "Church" for a count of one and "Churches" for every other count. */
  lemma HeaderLabelReadsCount(count: nat)
    ensures var text := HeaderLabel(count); var d := |Decimal(count)|;
            d < |text| && text[d] == ' ' && (forall i :: 0 <= i < d ==> text[i] != ' ') &&
            ParseDecimal(text[..d]) == count &&
            text[d + 1..] == (if count == 1 then "Church" else "Churches")
  {
    var text, d := HeaderLabel(count), |Decimal(count)|;
    assert text[..d] == Decimal(count);
    DecimalRoundTrip(count);
    assert text[d + 1..] == if count == 1 then "Church" else "Churches";
  }

  lemma HeaderLabelExamples()
    ensures HeaderLabel(1) == "1 Church"
    ensures HeaderLabel(0) == "0 Churches"
    ensures HeaderLabel(12) == "12 Churches"
  {
    assert Decimal(12) == Decimal(1) + [DigitChar(2)];
  }
}
