// The region tables and API error messages of Utilities/Helpers/Constants.swift.

module Constants {

  const CountryGroups: seq<string> := ["Luzon", "Visayas", "Mindanao"]

  const LuzonRegions: seq<string> :=
    ["NCR", "CAR", "Ilocos", "Central Luzon", "CALABARZON", "MIMAROPA", "Bicol"]
  const VisayasRegions: seq<string> := ["Western Visayas", "Central Visayas", "Eastern Visayas"]
  const MindanaoRegions: seq<string> :=
    ["Zamboanga Peninsula", "Northern Mindanao", "Davao", "SOCCSKSARGEN", "CARAGA", "BARMM"]

  /** Sub-regions of each country group. */
  const Regions: map<string, seq<string>> :=
    map["Luzon" := LuzonRegions, "Visayas" := VisayasRegions, "Mindanao" := MindanaoRegions]

  /** The client's APIError enumeration and its raw values. */
  datatype APIError = NotFound | InvalidURL | BadRequest | ParsingError | DataNotFound

  function RawValue(e: APIError): string {
    match e
    case NotFound => "Not Found: 404"
    case InvalidURL => "The URL is invalid"
    case BadRequest => "Bad Request: 400"
    case ParsingError => "JSON parsing Error"
    case DataNotFound => "Data not Found"
  }

  predicate NoDuplicates<T(==)>(s: seq<T>) {
    forall i, j :: 0 <= i < j < |s| ==> s[i] != s[j]
  }

  lemma CountryGroupsAreTheThreeIslandGroups()
    ensures |CountryGroups| == 3 && NoDuplicates(CountryGroups)
    ensures CountryGroups[0] == "Luzon" && CountryGroups[1] == "Visayas" && CountryGroups[2] == "Mindanao"
  {
  }

  lemma RegionKeysAreCountryGroups()
    ensures Regions.Keys == set g | g in CountryGroups
  {
  }

  lemma SubRegionCounts()
    ensures |Regions["Luzon"]| == 7 && |Regions["Visayas"]| == 3 && |Regions["Mindanao"]| == 6
  {
  }

  /** Every sub-region list is free of duplicates and the lists share no name. */
  lemma SubRegionsDisjoint()
    ensures forall g :: g in Regions ==> NoDuplicates(Regions[g])
    ensures forall g, h, r :: g in Regions && h in Regions && g != h && r in Regions[g] ==> r !in Regions[h]
  {
    assert NoDuplicates(LuzonRegions);
    assert NoDuplicates(VisayasRegions);
    assert NoDuplicates(MindanaoRegions);
  }

  lemma RawValuesDistinct(a: APIError, b: APIError)
    requires a != b
    ensures RawValue(a) != RawValue(b)
  {
  }
}
