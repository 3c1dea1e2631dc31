/**
 The dashboard object: the dataset, the site chosen in the selector and the
 set of selected categories, with the toggle that changes the selection and
 the queries that recompute the chart, timeline, category cards and narrative.
 */
module Visualizer {
  import opened Wrappers
  import opened LandUseData
  import opened CategorySelection
  import opened Derivations

  /** A site is chosen when the selector has a value that is not empty. */
  predicate Active(site: Option<string>) {
    site.Some? && site.value != ""
  }

  class LandUseVisualizer {
    /** The dataset, fixed at construction. */
    const data: Dataset
    /** The selector's value; None before any choice. */
    var currentSite: Option<string>
    /** The selected categories, in the selection's iteration order. */
    var selectedCategories: seq<Category>

    ghost predicate Valid()
      reads this
    {
      NoDup(selectedCategories)
    }

    /** A dashboard over `data` with no site chosen and every category selected. */
    constructor (data: Dataset)
      ensures Valid()
      ensures this.data == data && currentSite == None && selectedCategories == AllCategories
    {
      this.data := data;
      currentSite := None;
      selectedCategories := AllCategories;
    }

    /** The site selector's options: the 2020 site names, in order. */
    method SiteOptions() returns (sites: seq<string>)
      requires "2020" in data
      ensures sites == SiteList(data)
      ensures forall s :: s in sites ==> GetSiteData(data, s, "2020").Some?
    {
      sites := SiteList(data);
    }

    /** The selector's change handler: records the chosen value. */
    method SelectSite(value: string)
      modifies this`currentSite
      ensures currentSite == Some(value)
      ensures Active(currentSite) <==> value != ""
    {
      currentSite := Some(value);
    }

    /**
     A click on a category card: removes the category from the selection when
     it is selected, appends it otherwise; no other category changes.
     */
    method ToggleCategory(categoryId: Category)
      requires Valid()
      modifies this`selectedCategories
      ensures Valid()
      ensures selectedCategories == Toggle(old(selectedCategories), categoryId)
      ensures categoryId in selectedCategories <==> categoryId !in old(selectedCategories)
      ensures forall c :: c != categoryId ==> (c in selectedCategories <==> c in old(selectedCategories))
    {
      if categoryId in selectedCategories {
        selectedCategories := Remove(selectedCategories, categoryId);
      } else {
        selectedCategories := selectedCategories + [categoryId];
      }
    }

    /**
     The chart's datasets for the current site: nothing when no site is
     chosen; otherwise one three-year series per selected category, in the
     selection's order.
     */
    method UpdateVisualization() returns (datasets: Option<seq<ChartSeries>>)
      ensures datasets.None? <==> !Active(currentSite)
      ensures datasets.Some? ==> |datasets.value| == |selectedCategories|
      ensures datasets.Some? ==> forall i, k :: 0 <= i < |selectedCategories| && 0 <= k < |Years| ==>
        datasets.value[i].category == selectedCategories[i] &&
        datasets.value[i].seriesLabel == selectedCategories[i].Label() &&
        |datasets.value[i].values| == |Years| &&
        datasets.value[i].values[k] == SeriesValue(data, currentSite.value, Years[k], selectedCategories[i])
    {
      if !Active(currentSite) {
        return None;
      }
      var series := BuildSeries(data, currentSite.value, selectedCategories);
      datasets := Some(series);
    }

    /** The timeline of the current site, which the chart update draws beside the chart. */
    method UpdateTimeline() returns (items: Option<seq<TimelineEntry>>)
      ensures !Active(currentSite) ==> items.None?
      ensures Active(currentSite) ==> items == Timeline(data, currentSite.value)
    {
      if !Active(currentSite) {
        return None;
      }
      items := Timeline(data, currentSite.value);
    }

    /**
     The category cards' percents: nothing when no site is chosen or the site
     has no 2024 record; otherwise every category's 2024 percent.
     */
    method UpdateCategoryPercentages() returns (percents: Option<map<Category, real>>)
      ensures percents.Some? <==> Active(currentSite) && GetSiteData(data, currentSite.value, "2024").Some?
      ensures percents.Some? ==> forall c: Category ::
        c in percents.value && percents.value[c] == FieldOrZero(GetSiteData(data, currentSite.value, "2024").value, c.PercentKey())
    {
      if !Active(currentSite) {
        return None;
      }
      percents := PercentMap(data, currentSite.value);
    }

    /**
     The narrative panel: the welcome text when no site is chosen; nothing
     new when the site lacks a 2020 or a 2024 record; otherwise the summary,
     whose selected percent sums the current selection over the 2024 record.
     */
    method UpdateNarrative() returns (view: Option<Narrative>)
      ensures !Active(currentSite) ==> view == Some(Welcome)
      ensures Active(currentSite) ==>
        (view.None? <==> GetSiteData(data, currentSite.value, "2020").None? ||
                         GetSiteData(data, currentSite.value, "2024").None?)
      ensures Active(currentSite) && view.Some? ==>
        var rec2020 := GetSiteData(data, currentSite.value, "2020").value;
        var rec2024 := GetSiteData(data, currentSite.value, "2024").value;
        view.value == Summary(currentSite.value, TotalArea(rec2024),
                              if TotalArea(rec2020) == 0.0 then None
                              else Some(AreaChange(TotalArea(rec2020), TotalArea(rec2024))),
                              DominantOf(rec2020), DominantOf(rec2024), SelectedSum(rec2024, selectedCategories))
    {
      if !Active(currentSite) {
        return Some(Welcome);
      }
      view := Narrate(data, currentSite.value, selectedCategories);
    }
  }
}
