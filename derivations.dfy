/**
 The values the dashboard derives from the dataset for one site: the chart's
 per-category series, the timeline of total area, the narrative's figures
 (area change, dominant category, selected coverage) and the 2024 percent
 of every category.
 */
module Derivations {
  import opened Wrappers
  import opened LandUseData
  import opened CategorySelection

  // ---------------------------------------------------------------- chart

  /**
   One bar of the chart: the category's percent at the site in `year`, 0 when
   the site has no record that year or the record lacks the field.
   */
  function SeriesValue(data: Dataset, site: string, year: string, c: Category): (v: real)
    ensures GetSiteData(data, site, year).None? ==> v == 0.0
    ensures GetSiteData(data, site, year).Some? ==>
      v == FieldOrZero(GetSiteData(data, site, year).value, c.PercentKey())
    ensures v != 0.0 ==> exists rec :: GetSiteData(data, site, year) == Some(rec) &&
                                       Field(rec, c.PercentKey()) == Some(v)
  {
    match GetSiteData(data, site, year)
    case None => 0.0
    case Some(rec) => FieldOrZero(rec, c.PercentKey())
  }

  /** One chart dataset: a category, its label, and one value per survey year. */
  datatype ChartSeries = ChartSeries(category: Category, seriesLabel: string, values: seq<real>)

  /**
   The chart's datasets: one per selected category, in the selection's
   iteration order, each holding exactly the three yearly values.
   */
  method BuildSeries(data: Dataset, site: string, selected: seq<Category>) returns (datasets: seq<ChartSeries>)
    ensures |datasets| == |selected|
    ensures forall i :: 0 <= i < |datasets| ==>
      datasets[i].category == selected[i] && datasets[i].seriesLabel == selected[i].Label() &&
      |datasets[i].values| == |Years|
    ensures forall i, k :: 0 <= i < |datasets| && 0 <= k < |Years| ==>
      datasets[i].values[k] == SeriesValue(data, site, Years[k], selected[i])
  {
    datasets := [];
    for n := 0 to |selected|
      invariant |datasets| == n
      invariant forall i :: 0 <= i < n ==>
        datasets[i].category == selected[i] && datasets[i].seriesLabel == selected[i].Label() &&
        |datasets[i].values| == |Years|
      invariant forall i, k :: 0 <= i < n && 0 <= k < |Years| ==>
        datasets[i].values[k] == SeriesValue(data, site, Years[k], selected[i])
    {
      var c := selected[n];
      var values := seq(|Years|, k requires 0 <= k < |Years| => SeriesValue(data, site, Years[k], c));
      datasets := datasets + [ChartSeries(c, c.Label(), values)];
    }
  }

  // ------------------------------------------------------------- area change

  /**
   The narrative's change of total area from 2020 to 2024, in percent of the
   2020 total. The source divides without a guard, so the 2020 total must be
   non-zero for the value to be a number.
   */
  function AreaChange(before: real, after: real): (p: real)
    requires before != 0.0
    ensures p * before == (after - before) * 100.0
    ensures before > 0.0 ==> (p > 0.0 <==> after > before) && (p < 0.0 <==> after < before)
  {
    (after - before) / before * 100.0
  }

  /** The timeline's guarded change: as AreaChange, but 0 when the previous total is 0. */
  function PercentChange(prev: real, cur: real): (p: real)
    ensures prev == 0.0 ==> p == 0.0
    ensures prev != 0.0 ==> p * prev == (cur - prev) * 100.0
  {
    if prev != 0.0 then AreaChange(prev, cur) else 0.0
  }

  /** The CSS class of a timeline change: its sign. */
  function ChangeClass(p: real): (cls: string)
    ensures cls == "positive" <==> p > 0.0
    ensures cls == "negative" <==> p < 0.0
    ensures cls == "" <==> p == 0.0
  {
    if p > 0.0 then "positive" else if p < 0.0 then "negative" else ""
  }

  // ---------------------------------------------------------------- timeline

  /**
   One timeline item: the year, its total area, and its change from the
   previous year with the change's class; None for the "Baseline" item.
   */
  datatype TimelineEntry = TimelineEntry(year: string, total: real, change: Option<real>, cls: string)

  /** The total area of a record, 0 when missing. */
  function TotalArea(rec: SiteRecord): real {
    FieldOrZero(rec, TotalAreaKey)
  }

  /**
   The timeline of a site: nothing unless the site has a record in each of the
   three years; otherwise the 2020 item is the baseline and each later item
   carries the guarded percent change of the total area from the year before.
   */
  function Timeline(data: Dataset, site: string): (r: Option<seq<TimelineEntry>>)
    ensures r.Some? <==>
      GetSiteData(data, site, "2020").Some? && GetSiteData(data, site, "2022").Some? &&
      GetSiteData(data, site, "2024").Some?
    ensures r.Some? ==> |r.value| == |Years|
    ensures r.Some? ==> forall k :: 0 <= k < |Years| ==>
      r.value[k].year == Years[k] && r.value[k].total == TotalArea(GetSiteData(data, site, Years[k]).value)
    ensures r.Some? ==> r.value[0].change == None && r.value[0].cls == ""
    ensures r.Some? ==> forall k :: 1 <= k < |Years| ==>
      r.value[k].change == Some(PercentChange(r.value[k - 1].total, r.value[k].total)) &&
      (r.value[k].cls == "positive" <==> r.value[k].change.value > 0.0) &&
      (r.value[k].cls == "negative" <==> r.value[k].change.value < 0.0) &&
      (r.value[k].cls == "" <==> r.value[k].change.value == 0.0)
  {
    match (GetSiteData(data, site, "2020"), GetSiteData(data, site, "2022"), GetSiteData(data, site, "2024"))
    case (Some(r0), Some(r1), Some(r2)) =>
      var t0, t1, t2 := TotalArea(r0), TotalArea(r1), TotalArea(r2);
      var c1, c2 := PercentChange(t0, t1), PercentChange(t1, t2);
      Some([TimelineEntry("2020", t0, None, ""),
            TimelineEntry("2022", t1, Some(c1), ChangeClass(c1)),
            TimelineEntry("2024", t2, Some(c2), ChangeClass(c2))])
    case _ => None
  }

  /**
   When the previous year's total is positive, a timeline item is marked
   positive exactly when the total grew and negative exactly when it shrank.
   */
  lemma TimelineClassFollowsGrowth(data: Dataset, site: string, k: nat)
    requires Timeline(data, site).Some? && 1 <= k < |Years|
    requires Timeline(data, site).value[k - 1].total > 0.0
    ensures var items := Timeline(data, site).value;
      (items[k].cls == "positive" <==> items[k].total > items[k - 1].total) &&
      (items[k].cls == "negative" <==> items[k].total < items[k - 1].total)
  {
  }

  // ------------------------------------------------------- dominant category

  /** The categories the narrative compares, in the order it scans them. */
  const DominantCandidates: seq<Category> := [Water, Trees, Crops, BuiltArea, Rangeland]

  /** The labels of the scanned categories, in scan order. */
  const DominantLabels: seq<string> := ["Water", "Trees", "Crops", "Built Area", "Rangeland"]

  /** The running maximum of the dominance scan and its label ("" before any percent exceeded 0). */
  datatype Dominance = Dominance(max: real, dominant: string)

  /** The record's percents of the scanned categories, in scan order, 0 when missing. */
  function CandidatePercents(rec: SiteRecord): (vals: seq<real>)
    ensures |vals| == |DominantCandidates|
  {
    seq(|DominantCandidates|, k requires 0 <= k < |DominantCandidates| =>
      FieldOrZero(rec, DominantCandidates[k].PercentKey()))
  }

  /** One step of the scan: a strictly larger percent takes the lead. */
  function Step(d: Dominance, v: real, name: string): Dominance {
    if v > d.max then Dominance(v, name) else d
  }

  /** The scan over the first `n` values, starting from maximum 0 and label "". */
  function Scan(vals: seq<real>, names: seq<string>, n: nat): Dominance
    requires n <= |vals| && n <= |names|
  {
    if n == 0 then Dominance(0.0, "")
    else Step(Scan(vals, names, n - 1), vals[n - 1], names[n - 1])
  }

  /** The narrative's dominant category of a record and its percent. */
  function DominantOf(rec: SiteRecord): Dominance {
    Scan(CandidatePercents(rec), DominantLabels, |DominantCandidates|)
  }

  /**
   Position k is the first among the first n to reach the largest value, and
   that value exceeds 0.
   */
  ghost predicate IsFirstMaximum(vals: seq<real>, n: nat, k: int)
    requires n <= |vals|
  {
    0 <= k < n && vals[k] > 0.0 &&
    (forall j :: 0 <= j < k ==> vals[j] < vals[k]) &&
    (forall j :: k < j < n ==> vals[j] <= vals[k])
  }

  /**
   What the scan of the first n values computes: a maximum that is at least 0
   and not below any scanned value; when it is positive it is reached by a
   scanned position whose label it carries, and that position is the first
   maximum; otherwise the label is "".
   */
  lemma {:induction false} ScanIsFirstMaximum(vals: seq<real>, names: seq<string>, n: nat)
    requires n <= |vals| && n <= |names|
    requires forall i :: 0 <= i < |names| ==> names[i] != ""
    ensures Scan(vals, names, n).max >= 0.0
    ensures forall j :: 0 <= j < n ==> vals[j] <= Scan(vals, names, n).max
    ensures Scan(vals, names, n).max == 0.0 <==> Scan(vals, names, n).dominant == ""
    ensures Scan(vals, names, n).max > 0.0 ==>
      exists i :: 0 <= i < n && vals[i] == Scan(vals, names, n).max && Scan(vals, names, n).dominant == names[i]
    ensures forall k :: IsFirstMaximum(vals, n, k) ==> Scan(vals, names, n) == Dominance(vals[k], names[k])
  {
    if n > 0 {
      ScanIsFirstMaximum(vals, names, n - 1);
      var prev := Scan(vals, names, n - 1);
      forall k | IsFirstMaximum(vals, n, k)
        ensures Scan(vals, names, n) == Dominance(vals[k], names[k])
      {
        if k < n - 1 {
          assert IsFirstMaximum(vals, n - 1, k);
        }
      }
    }
  }

  /** Every scanned label is a non-empty string and names its category. */
  lemma DominantLabelsAreLabels()
    ensures |DominantLabels| == |DominantCandidates|
    ensures forall i :: 0 <= i < |DominantLabels| ==>
      DominantLabels[i] != "" && DominantLabels[i] == DominantCandidates[i].Label()
  {
  }

  /**
   The dominant category: its percent is the largest of the five scanned and
   at least 0; when some percent exceeds 0 it is the first candidate reaching
   the maximum, and otherwise the label is "" and the maximum 0.
   */
  lemma DominantIsFirstMaximum(rec: SiteRecord)
    ensures forall j :: 0 <= j < |DominantCandidates| ==> CandidatePercents(rec)[j] <= DominantOf(rec).max
    ensures DominantOf(rec) == Dominance(0.0, "") <==>
      forall j :: 0 <= j < |DominantCandidates| ==> CandidatePercents(rec)[j] <= 0.0
    ensures forall k :: IsFirstMaximum(CandidatePercents(rec), |DominantCandidates|, k) ==>
      DominantOf(rec) == Dominance(CandidatePercents(rec)[k], DominantCandidates[k].Label())
  {
    DominantLabelsAreLabels();
    ScanIsFirstMaximum(CandidatePercents(rec), DominantLabels, |DominantCandidates|);
  }

  /** Flood Vegetation and Bare Ground are not scanned, so neither is ever dominant. */
  lemma FloodVegetationAndBareGroundNeverDominant(rec: SiteRecord)
    ensures DominantOf(rec).dominant != FloodVegetation.Label()
    ensures DominantOf(rec).dominant != BareGround.Label()
  {
    DominantLabelsAreLabels();
    ScanIsFirstMaximum(CandidatePercents(rec), DominantLabels, |DominantCandidates|);
    if DominantOf(rec).max > 0.0 {
      var i :| 0 <= i < |DominantLabels| && DominantOf(rec).dominant == DominantLabels[i];
      assert DominantOf(rec).dominant in DominantLabels;
    }
  }

  /**
   With distinct labels, of two scanned positions holding equal values the
   later one never supplies the scan's label.
   */
  lemma ScanTieGoesToEarlier(vals: seq<real>, names: seq<string>, n: nat, i: nat, j: nat)
    requires n <= |vals| && n <= |names|
    requires forall a :: 0 <= a < |names| ==> names[a] != ""
    requires forall a, b :: 0 <= a < b < |names| ==> names[a] != names[b]
    requires i < j < n && vals[i] == vals[j]
    ensures Scan(vals, names, n).dominant != names[j]
  {
    ScanIsFirstMaximum(vals, names, n);
    var d := Scan(vals, names, n);
    if d.dominant == names[j] {
      var k :| 0 <= k < n && vals[k] == d.max && d.dominant == names[k];
      assert k == j;
      var f := FirstReaching(vals, d.max, i);
      assert IsFirstMaximum(vals, n, f);
    }
  }

  /** Of two scanned categories with equal percents, the later one is never dominant. */
  lemma TieGoesToEarlierCandidate(rec: SiteRecord, i: nat, j: nat)
    requires i < j < |DominantCandidates|
    requires CandidatePercents(rec)[i] == CandidatePercents(rec)[j]
    ensures DominantOf(rec).dominant != DominantCandidates[j].Label()
  {
    DominantLabelsAreLabels();
    ScanTieGoesToEarlier(CandidatePercents(rec), DominantLabels, |DominantCandidates|, i, j);
  }

  /** The first position, at or before `i`, that holds the value `m`. */
  ghost function FirstReaching(vals: seq<real>, m: real, i: nat): (f: nat)
    requires i < |vals| && vals[i] == m
    ensures f <= i && vals[f] == m
    ensures forall j :: 0 <= j < f ==> vals[j] != m
  {
    if i == 0 then 0
    else if exists j :: 0 <= j < i && vals[j] == m then
      var j :| 0 <= j < i && vals[j] == m;
      FirstReaching(vals, m, j)
    else i
  }

  /**
   The narrative's single loop over the candidates, which tracks the 2020 and
   the 2024 leader side by side.
   */
  method ScanDominant(rec2020: SiteRecord, rec2024: SiteRecord)
    returns (max2020: real, dominant2020: string, max2024: real, dominant2024: string)
    ensures Dominance(max2020, dominant2020) == DominantOf(rec2020)
    ensures Dominance(max2024, dominant2024) == DominantOf(rec2024)
  {
    max2020, dominant2020, max2024, dominant2024 := 0.0, "", 0.0, "";
    for n := 0 to |DominantCandidates|
      invariant Dominance(max2020, dominant2020) == Scan(CandidatePercents(rec2020), DominantLabels, n)
      invariant Dominance(max2024, dominant2024) == Scan(CandidatePercents(rec2024), DominantLabels, n)
    {
      var key := DominantCandidates[n].PercentKey();
      var name := DominantLabels[n];
      var percent2020 := FieldOrZero(rec2020, key);
      var percent2024 := FieldOrZero(rec2024, key);
      if percent2020 > max2020 {
        max2020, dominant2020 := percent2020, name;
      }
      if percent2024 > max2024 {
        max2024, dominant2024 := percent2024, name;
      }
    }
  }

  // --------------------------------------------------------- selected total

  /** The sum of the selected categories' percents in a record, missing ones counting 0. */
  function SelectedSum(rec: SiteRecord, selected: seq<Category>): real {
    if selected == [] then 0.0
    else SelectedSum(rec, selected[..|selected| - 1]) + FieldOrZero(rec, selected[|selected| - 1].PercentKey())
  }

  /** The narrative's accumulation loop: the total of the selected percents, not clamped. */
  method SumSelected(rec2024: SiteRecord, selected: seq<Category>) returns (total: real)
    ensures total == SelectedSum(rec2024, selected)
  {
    total := 0.0;
    for n := 0 to |selected|
      invariant total == SelectedSum(rec2024, selected[..n])
    {
      assert selected[..n + 1][..n] == selected[..n];
      total := total + FieldOrZero(rec2024, selected[n].PercentKey());
    }
    assert selected[..|selected|] == selected;
  }

  /** The sum of categories with non-negative percents is non-negative. */
  lemma {:induction false} SelectedSumNonNegative(rec: SiteRecord, selected: seq<Category>)
    requires forall c :: c in selected ==> FieldOrZero(rec, c.PercentKey()) >= 0.0
    ensures SelectedSum(rec, selected) >= 0.0
  {
    if selected != [] {
      SelectedSumNonNegative(rec, selected[..|selected| - 1]);
    }
  }

  /** Deleting a selected category takes exactly its percent off the total. */
  lemma {:induction false} SelectedSumRemove(rec: SiteRecord, selected: seq<Category>, c: Category)
    requires NoDup(selected) && c in selected
    ensures SelectedSum(rec, selected) == SelectedSum(rec, Remove(selected, c)) + FieldOrZero(rec, c.PercentKey())
  {
    var init := selected[..|selected| - 1];
    var last := selected[|selected| - 1];
    assert selected == init + [last];
    assert NoDup(init);
    if last == c {
      assert c !in init by {
        forall i | 0 <= i < |init| ensures init[i] != c { assert selected[i] != selected[|selected| - 1]; }
      }
      assert Remove(selected, c) == Remove(init, c) == init;
    } else {
      SelectedSumRemove(rec, init, c);
      var r := Remove(init, c) + [last];
      assert Remove(selected, c) == r;
      assert r[..|r| - 1] == Remove(init, c);
    }
  }

  /** Toggling a category twice leaves the selected total as it was. */
  lemma ToggleTwiceKeepsSelectedSum(rec: SiteRecord, selected: seq<Category>, c: Category)
    requires NoDup(selected)
    ensures SelectedSum(rec, Toggle(Toggle(selected, c), c)) == SelectedSum(rec, selected)
  {
    ToggleTwice(selected, c);
    if c in selected {
      var r := Remove(selected, c) + [c];
      assert r[..|r| - 1] == Remove(selected, c);
      SelectedSumRemove(rec, selected, c);
    }
  }

  // -------------------------------------------------------------- narrative

  /** The narrative panel: the welcome text, or the figures of the summary of one site. */
  datatype Narrative =
    | Welcome
    | Summary(site: string, totalArea2024: real, areaChange: Option<real>,
              dominant2020: Dominance, dominant2024: Dominance, selectedPercent: real)

  /**
   The summary of a site: nothing unless it has a 2020 and a 2024 record. The
   area change is None where the source's unguarded division by a zero 2020
   total yields a value that is not a finite number.
   */
  method Narrate(data: Dataset, site: string, selected: seq<Category>) returns (r: Option<Narrative>)
    ensures r.None? <==> GetSiteData(data, site, "2020").None? || GetSiteData(data, site, "2024").None?
    ensures r.Some? ==>
      var rec2020 := GetSiteData(data, site, "2020").value;
      var rec2024 := GetSiteData(data, site, "2024").value;
      r.value == Summary(site, TotalArea(rec2024),
                         if TotalArea(rec2020) == 0.0 then None
                         else Some(AreaChange(TotalArea(rec2020), TotalArea(rec2024))),
                         DominantOf(rec2020), DominantOf(rec2024), SelectedSum(rec2024, selected))
  {
    var found2020 := GetSiteData(data, site, "2020");
    var found2024 := GetSiteData(data, site, "2024");
    if found2020.None? || found2024.None? {
      return None;
    }
    var rec2020, rec2024 := found2020.value, found2024.value;
    var totalArea2020 := TotalArea(rec2020);
    var totalArea2024 := TotalArea(rec2024);
    var areaChange := if totalArea2020 == 0.0 then None else Some(AreaChange(totalArea2020, totalArea2024));
    var max2020, dominant2020, max2024, dominant2024 := ScanDominant(rec2020, rec2024);
    var totalSelectedPercent := SumSelected(rec2024, selected);
    r := Some(Summary(site, totalArea2024, areaChange, Dominance(max2020, dominant2020),
                      Dominance(max2024, dominant2024), totalSelectedPercent));
  }

  // ------------------------------------------------------------ percent map

  /** The set of all categories. */
  const CategorySet: set<Category> := {Water, Trees, FloodVegetation, Crops, BuiltArea, BareGround, Rangeland}

  /**
   The category cards' percents: every category's percent in the site's 2024
   record, 0 when missing; nothing when the site has no 2024 record. Each
   equals the 2024 bar of that category's chart series.
   */
  function PercentMap(data: Dataset, site: string): (r: Option<map<Category, real>>)
    ensures r.None? <==> GetSiteData(data, site, "2024").None?
    ensures r.Some? ==> forall c: Category :: c in r.value && r.value[c] == SeriesValue(data, site, "2024", c)
  {
    match GetSiteData(data, site, "2024")
    case None => None
    case Some(rec) =>
      CategorySetIsComplete();
      Some(map c | c in CategorySet :: FieldOrZero(rec, c.PercentKey()))
  }

  /** Every category is in CategorySet. */
  lemma CategorySetIsComplete()
    ensures forall c: Category :: c in CategorySet
  {
    forall c: Category ensures c in CategorySet {
      match c
      case Water =>
      case Trees =>
      case FloodVegetation =>
      case Crops =>
      case BuiltArea =>
      case BareGround =>
      case Rangeland =>
    }
  }

  /** The narrative's selected total is the sum of the selected categories' card percents. */
  lemma {:induction false} SelectedSumMatchesPercentMap(data: Dataset, site: string, selected: seq<Category>)
    requires GetSiteData(data, site, "2024").Some?
    ensures PercentMap(data, site).Some?
    ensures SelectedSum(GetSiteData(data, site, "2024").value, selected) == CardSum(PercentMap(data, site).value, selected)
  {
    if selected != [] {
      SelectedSumMatchesPercentMap(data, site, selected[..|selected| - 1]);
    }
  }

  /** The sum of the card percents of the given categories. */
  function CardSum(m: map<Category, real>, selected: seq<Category>): real
    requires forall c: Category :: c in m
  {
    if selected == [] then 0.0
    else CardSum(m, selected[..|selected| - 1]) + m[selected[|selected| - 1]]
  }
}
