/**
 The dataset of the land-use dashboard: the seven land-cover categories, one
 record per site and survey year, and the lookup of a site's record in a year.
 */
module LandUseData {
  import opened Wrappers

  /** The seven land-cover categories, in the order the dashboard lists them. */
  datatype Category = Water | Trees | FloodVegetation | Crops | BuiltArea | BareGround | Rangeland {

    /** The identifier the selection set and the category cards use. */
    function Id(): string {
      match this
      case Water => "water"
      case Trees => "trees"
      case FloodVegetation => "floodVegetation"
      case Crops => "crops"
      case BuiltArea => "builtArea"
      case BareGround => "bareGround"
      case Rangeland => "rangeland"
    }

    /** The label shown on charts and in the narrative. */
    function Label(): string {
      match this
      case Water => "Water"
      case Trees => "Trees"
      case FloodVegetation => "Flood Vegetation"
      case Crops => "Crops"
      case BuiltArea => "Built Area"
      case BareGround => "Bare Ground"
      case Rangeland => "Rangeland"
    }

    /** The record key that holds this category's share of the site, in percent. */
    function PercentKey(): string {
      match this
      case Water => "Water_Percent"
      case Trees => "Trees_Percent"
      case FloodVegetation => "FloodVegetation_Percent"
      case Crops => "Crops_Percent"
      case BuiltArea => "BuiltArea_Percent"
      case BareGround => "BareGround_Percent"
      case Rangeland => "Rangeland_Percent"
    }
  }

  /**
   Distinct categories have distinct identifiers, so a set of identifiers and
   a set of categories say the same thing.
   */
  lemma CategoryIdInjective(a: Category, b: Category)
    requires a.Id() == b.Id()
    ensures a == b
  {
  }

  /** Every category, in the order of the initial selection. */
  const AllCategories: seq<Category> := [Water, Trees, FloodVegetation, Crops, BuiltArea, BareGround, Rangeland]

  /** The key of a record's total monitored area, in square kilometres. */
  const TotalAreaKey: string := "Total_Area_sq_km"

  /** The survey years, as the keys of the dataset, in chronological order. */
  const Years: seq<string> := ["2020", "2022", "2024"]

  /**
   One site's record for one survey year: its name and the numeric fields it
   carries, by key. A key that is not in `fields` is a field the record lacks.
   */
  datatype SiteRecord = SiteRecord(siteName: string, fields: map<string, real>)

  /** The dataset: for each year key, that year's records in their stored order. */
  type Dataset = map<string, seq<SiteRecord>>

  /** The value of a field, or None when the record lacks it. */
  function Field(rec: SiteRecord, key: string): Option<real> {
    if key in rec.fields then Some(rec.fields[key]) else None
  }

  /**
   The dashboard's `value || 0`: a missing field reads as 0 (a stored 0 is 0
   either way).
   */
  function OrZero(v: Option<real>): real {
    v.GetOr(0.0)
  }

  /** A field read with the `|| 0` default. */
  function FieldOrZero(rec: SiteRecord, key: string): real {
    OrZero(Field(rec, key))
  }

  /**
   The position of the first record named `name`, compared exactly (and so
   case-sensitively), or None when no record has that name.
   */
  function FirstMatch(recs: seq<SiteRecord>, name: string): (r: Option<nat>)
    ensures r.None? <==> forall i :: 0 <= i < |recs| ==> recs[i].siteName != name
    ensures r.Some? ==> r.value < |recs| && recs[r.value].siteName == name
    ensures r.Some? ==> forall j :: 0 <= j < r.value ==> recs[j].siteName != name
  {
    if recs == [] then None
    else if recs[0].siteName == name then Some(0)
    else
      match FirstMatch(recs[1..], name)
      case None => None
      case Some(i) => Some(i + 1)
  }

  /**
   The record of site `name` in `year`: None when the year is not in the
   dataset or no record of that year has the name; otherwise the first record
   with that exact name, so that a later duplicate is never returned.
   */
  function GetSiteData(data: Dataset, name: string, year: string): (r: Option<SiteRecord>)
    ensures year !in data ==> r.None?
    ensures year in data ==>
      (r.None? <==> forall i :: 0 <= i < |data[year]| ==> data[year][i].siteName != name)
    ensures r.Some? ==> year in data && r.value.siteName == name
    ensures r.Some? ==> exists k :: 0 <= k < |data[year]| && r.value == data[year][k] &&
                                   forall j :: 0 <= j < k ==> data[year][j].siteName != name
  {
    if year !in data then None
    else
      match FirstMatch(data[year], name)
      case None => None
      case Some(k) => Some(data[year][k])
  }

  /**
   Records stored after the first record named `name` never change which
   record the lookup finds; when no record named `name` comes first, the
   lookup finds the first one among the later records.
   */
  lemma {:induction false} FirstMatchAppend(recs: seq<SiteRecord>, more: seq<SiteRecord>, name: string)
    ensures FirstMatch(recs + more, name) ==
      match FirstMatch(recs, name)
      case Some(i) => Some(i)
      case None =>
        match FirstMatch(more, name)
        case None => None
        case Some(j) => Some(|recs| + j)
  {
    if recs == [] {
      assert recs + more == more;
    } else if recs[0].siteName == name {
      assert (recs + more)[0] == recs[0];
    } else {
      var all := recs + more;
      assert all[0] == recs[0];
      assert all[1..] == recs[1..] + more;
      FirstMatchAppend(recs[1..], more, name);
    }
  }

  /**
   Appending records to a year leaves every lookup that already succeeded
   unchanged: a duplicate name added later is never what the lookup returns.
   */
  lemma LaterDuplicatesNeverReturned(data: Dataset, year: string, more: seq<SiteRecord>, name: string)
    requires GetSiteData(data, name, year).Some?
    ensures GetSiteData(data[year := data[year] + more], name, year) == GetSiteData(data, name, year)
  {
    FirstMatchAppend(data[year], more, name);
  }

  /**
   The names offered in the site selector: those of the 2020 records, in
   their stored order, duplicates included. The source reads the 2020 entry
   of the dataset unconditionally, so it must be present.
   */
  function SiteList(data: Dataset): (sites: seq<string>)
    requires "2020" in data
    ensures |sites| == |data["2020"]|
    ensures forall i :: 0 <= i < |sites| ==> sites[i] == data["2020"][i].siteName
    ensures forall s :: s in sites <==> GetSiteData(data, s, "2020").Some?
  {
    var recs := data["2020"];
    var sites := seq(|recs|, i requires 0 <= i < |recs| => recs[i].siteName);
    assert forall s :: GetSiteData(data, s, "2020").Some? ==> s in sites by {
      forall s | GetSiteData(data, s, "2020").Some?
        ensures s in sites
      {
        var k := FirstMatch(recs, s).value;
        assert sites[k] == s;
      }
    }
    sites
  }
}
