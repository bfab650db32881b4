// The map test locations (Models/Location.swift): a location's id is its
// name followed by its location name, and two locations are equal exactly
// when their ids are.

module TestLocations {
  import opened Models

  datatype TestLocation = TestLocation(
    name: string,
    locationName: string,
    coordinates: Coordinate,
    description: string,
    imageNames: seq<string>,
    link: string)

  /** `id`. */
  function Id(l: TestLocation): (id: string)
    ensures |id| == |l.name| + |l.locationName|
    ensures id[..|l.name|] == l.name && id[|l.name|..] == l.locationName
  {
    l.name + l.locationName
  }

  /** The hand-written `==`. */
  predicate Equal(a: TestLocation, b: TestLocation) {
    Id(a) == Id(b)
  }

  /** Equality looks at the two names only: coordinates, description, images
      and link never matter. */
  lemma EqualIgnoresDetails(a: TestLocation, b: TestLocation)
    requires a.name == b.name && a.locationName == b.locationName
    ensures Equal(a, b)
  {
  }

  /** With names of the same length, equality is equality of both names. */
  lemma EqualSameSplit(a: TestLocation, b: TestLocation)
    requires |a.name| == |b.name|
    ensures Equal(a, b) <==> a.name == b.name && a.locationName == b.locationName
  {
    if Equal(a, b) {
      assert a.name == Id(a)[..|a.name|];
      assert a.locationName == Id(a)[|a.name|..];
    }
  }

  /** The id is not injective: ("ab", "c") equals ("a", "bc"). */
  lemma EqualNamesMayDiffer(p: Coordinate)
    ensures var a := TestLocation("ab", "c", p, "", [], "");
            var b := TestLocation("a", "bc", p, "", [], "");
            Equal(a, b) && a.name != b.name && a.locationName != b.locationName
  {
    assert "ab" + "c" == "a" + "bc";
  }

  lemma EqualIsEquivalence(a: TestLocation, b: TestLocation, c: TestLocation)
    ensures Equal(a, a)
    ensures Equal(a, b) ==> Equal(b, a)
    ensures Equal(a, b) && Equal(b, c) ==> Equal(a, c)
  {
  }
}
