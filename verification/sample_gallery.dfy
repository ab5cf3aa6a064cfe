/**
 * The sample gallery webview component (src/controls/sampleGallery/SampleGallery.tsx):
 * the tag filter (OR within a category, AND across the capability, language
 * and platform categories, case-insensitive), the scenario/quickstart split
 * of what is displayed, the selected-sample lookup, and the component state
 * its message handler and callbacks update. The fuzzy search is a parameter.
 */
module SampleGallery {
  import opened Common
  import opened Text
  import opened Collections

  /** A sample as the gallery reads it; `scenario` stands for the truthiness the split tests. */
  datatype SampleInfo = SampleInfo(id: string, title: string, tags: seq<string>, scenario: Option<string>)

  /** `SampleFilterOptionType`: the tags of each filter category. */
  datatype FilterOptions = FilterOptions(capabilities: seq<string>, languages: seq<string>, platform: seq<string>)

  const NoFilterOptions := FilterOptions([], [], [])

  /** `GlobalKey.SampleGalleryLayout`. */
  const SampleGalleryLayoutKey := "teamsToolkit:sampleGallery:layout"

  const DefaultLayout := "grid"

  // ================================================================ tag filter

  /** The test `findIndex` applies to each tag of a sample. */
  function SameIgnoringCase(target: string): string -> bool {
    (value: string) => EqualsIgnoreCase(value, target)
  }

  predicate MatchesSomeTag(target: string, tags: seq<string>) {
    exists j :: 0 <= j < |tags| && EqualsIgnoreCase(tags[j], target)
  }

  /** What `containsTag` decides: no targets, or some target equal to some tag up to case. */
  predicate TagsMatch(targets: seq<string>, tags: seq<string>) {
    |targets| == 0 || exists i :: 0 <= i < |targets| && MatchesSomeTag(targets[i], tags)
  }

  /** `containsTag`: scans the targets for one that some tag matches. */
  method ContainsTag(targets: seq<string>, tags: seq<string>) returns (b: bool)
    ensures b == TagsMatch(targets, tags)
  {
    if |targets| == 0 {
      return true;
    }
    for i := 0 to |targets|
      invariant forall k :: 0 <= k < i ==> !MatchesSomeTag(targets[k], tags)
    {
      var found := FindFirst(tags, SameIgnoringCase(targets[i]));
      if found.Some? {
        return true;
      }
    }
    return false;
  }

  function InCategory(category: seq<string>): string -> bool {
    (tag: string) => tag in category
  }

  /** The filter tags that belong to one category (`indexOf(tag) >= 0`), in their order. */
  function CategoryTags(filterTags: seq<string>, category: seq<string>): (r: seq<string>)
    ensures forall t :: t in r <==> t in filterTags && t in category
  {
    Filter(filterTags, InCategory(category))
  }

  /** A sample passes when each of the three categories is unconstrained or matched by one of its tags. */
  predicate PassesFilters(options: FilterOptions, filterTags: seq<string>, sample: SampleInfo) {
    && TagsMatch(CategoryTags(filterTags, options.capabilities), sample.tags)
    && TagsMatch(CategoryTags(filterTags, options.languages), sample.tags)
    && TagsMatch(CategoryTags(filterTags, options.platform), sample.tags)
  }

  function Passes(options: FilterOptions, filterTags: seq<string>): SampleInfo -> bool {
    (sample: SampleInfo) => PassesFilters(options, filterTags, sample)
  }

  /** The tag-filtered samples, before any fuzzy search. */
  function FilterSamples(samples: seq<SampleInfo>, options: FilterOptions, filterTags: seq<string>): seq<SampleInfo> {
    Filter(samples, Passes(options, filterTags))
  }

  /** A sample survives exactly when it passes all three categories, and the survivors keep their order. */
  lemma FilterSamplesKeepsExactly(samples: seq<SampleInfo>, options: FilterOptions, filterTags: seq<string>)
    ensures forall s :: s in FilterSamples(samples, options, filterTags) <==> s in samples && PassesFilters(options, filterTags, s)
    ensures IsSubsequence(FilterSamples(samples, options, filterTags), samples)
  {
    FilterIsSubsequence(samples, Passes(options, filterTags));
  }

  /** Without filter tags every sample is shown, in order. */
  lemma NoTagsKeepsAll(samples: seq<SampleInfo>, options: FilterOptions)
    ensures FilterSamples(samples, options, []) == samples
  {
    FilterAll(samples, Passes(options, []));
  }

  /** A filter tag outside every category has no effect. */
  lemma UncategorisedTagIgnored(samples: seq<SampleInfo>, options: FilterOptions, filterTags: seq<string>, tag: string)
    requires tag !in options.capabilities && tag !in options.languages && tag !in options.platform
    ensures FilterSamples(samples, options, filterTags + [tag]) == FilterSamples(samples, options, filterTags)
  {
    FilterSnoc(filterTags, tag, InCategory(options.capabilities));
    FilterSnoc(filterTags, tag, InCategory(options.languages));
    FilterSnoc(filterTags, tag, InCategory(options.platform));
    assert CategoryTags(filterTags + [tag], options.capabilities) == CategoryTags(filterTags, options.capabilities);
    assert CategoryTags(filterTags + [tag], options.languages) == CategoryTags(filterTags, options.languages);
    assert CategoryTags(filterTags + [tag], options.platform) == CategoryTags(filterTags, options.platform);
    FilterCongruent(samples, Passes(options, filterTags + [tag]), Passes(options, filterTags));
  }

  // ================================================================ display

  predicate IsScenario(sample: SampleInfo) {
    Truthy(sample.scenario)
  }

  function ScenarioSamples(displayed: seq<SampleInfo>): seq<SampleInfo> {
    Filter(displayed, (s: SampleInfo) => IsScenario(s))
  }

  function QuickstartSamples(displayed: seq<SampleInfo>): seq<SampleInfo> {
    Filter(displayed, (s: SampleInfo) => !IsScenario(s))
  }

  /** The two sections split the displayed samples: each sample lands in exactly one, in display order. */
  lemma SectionsPartition(displayed: seq<SampleInfo>)
    ensures multiset(ScenarioSamples(displayed)) + multiset(QuickstartSamples(displayed)) == multiset(displayed)
    ensures forall s :: s in ScenarioSamples(displayed) ==> IsScenario(s)
    ensures forall s :: s in QuickstartSamples(displayed) ==> !IsScenario(s)
    ensures IsSubsequence(ScenarioSamples(displayed), displayed) && IsSubsequence(QuickstartSamples(displayed), displayed)
  {
    FilterPartition(displayed, (s: SampleInfo) => IsScenario(s), (s: SampleInfo) => !IsScenario(s));
    FilterIsSubsequence(displayed, (s: SampleInfo) => IsScenario(s));
    FilterIsSubsequence(displayed, (s: SampleInfo) => !IsScenario(s));
  }

  function HasId(id: string): SampleInfo -> bool {
    (s: SampleInfo) => s.id == id
  }

  /** The `selectedSample` getter: the first sample with the selected id, if the id is set and non-empty. */
  function SelectedSample(samples: seq<SampleInfo>, selectedId: Option<string>): (r: Option<SampleInfo>)
    ensures !Truthy(selectedId) ==> r.None?
    ensures Truthy(selectedId) ==>
              r == match FindFirst(samples, HasId(selectedId.value))
                   case None => None
                   case Some(k) => Some(samples[k])
    ensures r.Some? ==> r.value in samples && r.value.id == selectedId.value
  {
    if !Truthy(selectedId) then None
    else
      var selected := Filter(samples, HasId(selectedId.value));
      FilterHeadIsFirst(samples, HasId(selectedId.value));
      if |selected| > 0 then Some(selected[0]) else None
  }

  /** What `render` shows. */
  datatype GalleryPage =
    | LoadingPage
    | DetailPage(sample: SampleInfo)
    | OfflinePage
    | ListingPage(scenarios: seq<SampleInfo>, quickstarts: seq<SampleInfo>)

  /** The messages the extension posts to the webview. */
  datatype Message =
    | LoadSampleCollection(error: Option<string>, loaded: seq<SampleInfo>, options: FilterOptions, initialSample: Option<string>)
    | GetData(key: string, value: Option<string>)
    | OtherMessage

  // ================================================================ component

  class SampleGalleryComponent {
    var samples: seq<SampleInfo>
    var filterOptions: FilterOptions
    var loading: bool
    var layout: string
    var query: string
    var filterTags: seq<string>
    var filteredSamples: Option<seq<SampleInfo>>
    var error: Option<string>
    var selectedSampleId: Option<string>
    /** The layout last sent to the extension with a StoreData message. */
    var storedLayout: Option<string>

    constructor ()
      ensures samples == [] && filterOptions == NoFilterOptions
      ensures loading && layout == DefaultLayout && query == "" && filterTags == []
      ensures filteredSamples.None? && error.None? && selectedSampleId.None? && storedLayout.None?
    {
      samples := [];
      filterOptions := NoFilterOptions;
      loading := true;
      layout := DefaultLayout;
      query := "";
      filterTags := [];
      filteredSamples := None;
      error := None;
      selectedSampleId := None;
      storedLayout := None;
    }

    /** `filteredSamples ?? samples`. */
    function Displayed(): seq<SampleInfo>
      reads this
    {
      filteredSamples.GetOr(samples)
    }

    /** `render`: the title while loading, the detail page of a selected sample, the offline page on a load error, else the two sections. */
    function Page(): (p: GalleryPage)
      reads this
      ensures loading <==> p == LoadingPage
      ensures p.DetailPage? <==> !loading && SelectedSample(samples, selectedSampleId).Some?
      ensures p.DetailPage? ==> p.sample.id == selectedSampleId.value
      ensures p.OfflinePage? <==> !loading && SelectedSample(samples, selectedSampleId).None? && error.Some?
      ensures p.ListingPage? ==>
                && multiset(p.scenarios) + multiset(p.quickstarts) == multiset(Displayed())
                && (forall s :: s in p.scenarios ==> IsScenario(s))
                && (forall s :: s in p.quickstarts ==> !IsScenario(s))
    {
      if loading then LoadingPage
      else match SelectedSample(samples, selectedSampleId)
        case Some(s) => DetailPage(s)
        case None =>
          if error.Some? then OfflinePage
          else
            SectionsPartition(Displayed());
            ListingPage(ScenarioSamples(Displayed()), QuickstartSamples(Displayed()))
    }

    /** `messageHandler`: a loaded collection ends loading; a GetData answer for the layout key sets the layout, `"grid"` when the value is falsy. */
    method HandleMessage(m: Message)
      modifies this
      ensures m.LoadSampleCollection? ==>
                && samples == m.loaded && filterOptions == m.options && !loading
                && error == m.error && selectedSampleId == m.initialSample
                && layout == old(layout) && query == old(query) && filterTags == old(filterTags)
                && filteredSamples == old(filteredSamples) && storedLayout == old(storedLayout)
      ensures m.GetData? && m.key == SampleGalleryLayoutKey ==>
                && layout == (if Truthy(m.value) then m.value.value else DefaultLayout)
                && samples == old(samples) && filterOptions == old(filterOptions) && loading == old(loading)
                && query == old(query) && filterTags == old(filterTags) && filteredSamples == old(filteredSamples)
                && error == old(error) && selectedSampleId == old(selectedSampleId) && storedLayout == old(storedLayout)
      ensures (m.OtherMessage? || (m.GetData? && m.key != SampleGalleryLayoutKey)) ==> unchanged(this)
    {
      match m
      case LoadSampleCollection(err, loaded, options, initial) =>
        samples := loaded;
        filterOptions := options;
        loading, error, selectedSampleId := false, err, initial;
      case GetData(key, value) =>
        if key == SampleGalleryLayoutKey {
          layout := if Truthy(value) then value.value else DefaultLayout;
        }
      case OtherMessage =>
    }

    /** `onSampleSelected`. */
    method OnSampleSelected(id: string)
      modifies this
      ensures selectedSampleId == Some(id)
      ensures samples == old(samples) && filterOptions == old(filterOptions) && loading == old(loading)
      ensures layout == old(layout) && query == old(query) && filterTags == old(filterTags)
      ensures filteredSamples == old(filteredSamples) && error == old(error) && storedLayout == old(storedLayout)
    {
      selectedSampleId := Some(id);
    }

    /** `onLayoutChanged`: a change of layout is stored with the extension and applied; the current layout changes nothing. */
    method OnLayoutChanged(newLayout: string)
      modifies this
      ensures newLayout == old(layout) ==> unchanged(this)
      ensures newLayout != old(layout) ==> layout == newLayout && storedLayout == Some(newLayout)
      ensures samples == old(samples) && filterOptions == old(filterOptions) && loading == old(loading)
      ensures query == old(query) && filterTags == old(filterTags)
      ensures filteredSamples == old(filteredSamples) && error == old(error) && selectedSampleId == old(selectedSampleId)
    {
      if newLayout == layout {
        return;
      }
      storedLayout := Some(newLayout);
      layout := newLayout;
    }

    /**
     * `onFilterConditionChanged`: keeps the samples that pass the tag filter
     * and, for a non-empty query, hands them to the fuzzy search (`search`
     * stands for the Fuse index built over them and queried with `query`).
     */
    method OnFilterConditionChanged(newQuery: string, newTags: seq<string>, search: seq<SampleInfo> -> seq<SampleInfo>)
      modifies this
      ensures query == newQuery && filterTags == newTags
      ensures var kept := FilterSamples(samples, filterOptions, newTags);
              filteredSamples == Some(if newQuery != "" then search(kept) else kept)
      ensures samples == old(samples) && filterOptions == old(filterOptions) && loading == old(loading)
      ensures layout == old(layout) && error == old(error) && selectedSampleId == old(selectedSampleId)
      ensures storedLayout == old(storedLayout)
    {
      var all, options := samples, filterOptions;
      var capabilitiesFilter := CategoryTags(newTags, options.capabilities);
      var languagesFilter := CategoryTags(newTags, options.languages);
      var platformFilter := CategoryTags(newTags, options.platform);
      var kept: seq<SampleInfo> := [];
      for i := 0 to |all|
        invariant kept == FilterSamples(all[..i], options, newTags)
        invariant unchanged(this)
      {
        var pass := ContainsTag(capabilitiesFilter, all[i].tags);
        if pass {
          pass := ContainsTag(languagesFilter, all[i].tags);
        }
        if pass {
          pass := ContainsTag(platformFilter, all[i].tags);
        }
        assert pass == PassesFilters(options, newTags, all[i]);
        FilterSnoc(all[..i], all[i], Passes(options, newTags));
        assert all[..i + 1] == all[..i] + [all[i]];
        if pass {
          kept := kept + [all[i]];
        }
      }
      assert all[..|all|] == all;
      if newQuery != "" {
        kept := search(kept);
      }
      query, filterTags, filteredSamples := newQuery, newTags, Some(kept);
    }
  }
}
