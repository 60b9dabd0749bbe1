/**
 * The dashboard page: the score card's colour and trend icon, the selected
 * brand with its loading and error flags, the load the effect runs (as one
 * step, without the 500 ms wait) and the choice of what to render.
 */
module Dashboard {
  import opened Wrappers
  import opened Fixtures
  import opened Lookup
  import opened ScoreTier
  import opened Style
  import opened Js

  const NotFoundMessage := "Brand or snapshot data not found"

  function NoSnapshotMessage(id: string): (m: string)
    ensures |m| > |id|
  {
    "No data found for brand: " + id
  }

  /** Trend icon of a score card: none when the trend is absent or empty (falsy). */
  function TrendIcon(trend: Option<string>): (g: Option<Glyph>)
    ensures g == None <==> trend == None || trend == Some("")
    ensures trend == Some("up") ==> g == Some(Glyph(TrendingUp, Green))
    ensures trend == Some("down") ==> g == Some(Glyph(TrendingDown, Red))
    ensures g.Some? && trend.value != "up" && trend.value != "down" ==> g == Some(Glyph(Minus, Gray))
  {
    if trend == None || trend.value == "" then None
    else if trend.value == "up" then Some(Glyph(TrendingUp, Green))
    else if trend.value == "down" then Some(Glyph(TrendingDown, Red))
    else Some(Glyph(Minus, Gray))
  }

  /** `getScoreColor`: the score card's own percentage chain, which agrees with the audit page's tiers. */
  function ScoreColour(score: Score): (c: Colour)
    requires score.maxValue > 0
    ensures c == TierColour(Classify(score.value, score.maxValue))
  {
    var percentage := Percentage(score.value, score.maxValue);
    if percentage >= 80.0 then Green
    else if percentage >= 60.0 then Yellow
    else Red
  }

  /** The dashboard's selection and flags. */
  datatype DashboardState = DashboardState(brandId: string, isLoading: bool, error: Option<string>)

  /** The page starts on the first listed brand, loading, with no error; with no brands it cannot start. */
  function Initial(brands: seq<Brand>): (s: DashboardState)
    requires |brands| > 0
    ensures s.brandId == brands[0].id && s.isLoading && s.error == None
  {
    DashboardState(brands[0].id, true, None)
  }

  /** The state after one run of the load: the brand must have a snapshot. */
  function Load(s: DashboardState, snapshots: map<string, DashboardSnapshot>): (r: DashboardState)
    ensures !r.isLoading && r.brandId == s.brandId
    ensures r.error == None <==> s.brandId in snapshots
    ensures s.brandId !in snapshots ==> r.error == Some(NoSnapshotMessage(s.brandId)) && Truthy(r.error)
  {
    if s.brandId in snapshots then s.(isLoading := false, error := None)
    else s.(isLoading := false, error := Some(NoSnapshotMessage(s.brandId)))
  }

  /** The brand selector's handler: only the brand changes. */
  function ChooseBrand(s: DashboardState, id: string): (r: DashboardState)
    ensures r.brandId == id && r.isLoading == s.isLoading && r.error == s.error
  {
    s.(brandId := id)
  }

  /** What the page renders; an overview carries the brand and its three scores in display order. */
  datatype DashboardView = ErrorView(message: string) | Skeleton | Overview(brand: Brand, scores: seq<Score>)

  /** The render's checks in their order: error, loading, the brand and snapshot lookups. */
  function View(s: DashboardState, brands: seq<Brand>, snapshots: map<string, DashboardSnapshot>): (v: DashboardView)
    ensures v.ErrorView? ==> v.message != ""
    ensures Truthy(s.error) ==> v == ErrorView(s.error.value)
    ensures v == Skeleton <==> !Truthy(s.error) && s.isLoading
    ensures v.Overview? ==>
      s.brandId in snapshots && v.brand in brands && v.brand.id == s.brandId &&
      v.scores == [snapshots[s.brandId].aiVisibilityScore, snapshots[s.brandId].trustScore,
                   snapshots[s.brandId].keywordCoverage]
    ensures !Truthy(s.error) && !s.isLoading ==>
      (v == ErrorView(NotFoundMessage) <==>
       s.brandId !in snapshots || forall b :: b in brands ==> b.id != s.brandId)
    ensures (!Truthy(s.error) && !s.isLoading && s.brandId in snapshots &&
             exists b :: b in brands && b.id == s.brandId) ==> v.Overview?
    ensures v.Overview? ==>
      (exists k :: 0 <= k < |brands| && v.brand == brands[k] &&
         forall j :: 0 <= j < k ==> brands[j].id != s.brandId)
  {
    if Truthy(s.error) then ErrorView(s.error.value)
    else if s.isLoading then Skeleton
    else
      FindByIdIsFirst(brands, BrandId, s.brandId);
      var selectedBrand := FindById(brands, BrandId, s.brandId);
      if selectedBrand.None? || s.brandId !in snapshots then ErrorView(NotFoundMessage)
      else
        var snapshot := snapshots[s.brandId];
        Overview(selectedBrand.value, [snapshot.aiVisibilityScore, snapshot.trustScore, snapshot.keywordCoverage])
  }

  /** The effect's dependency list, `[selectedBrandId]`. */
  function Deps(s: DashboardState): (d: seq<string>)
    ensures d == [s.brandId]
  {
    [s.brandId]
  }

  /** Choosing a different brand changes the dependency list, so the load runs again. */
  lemma BrandChangeTriggersReload(s: DashboardState, id: string)
    ensures Deps(ChooseBrand(s, id)) != Deps(s) <==> id != s.brandId
  {
  }

  /**
   * Switching, from an overview, to a brand with no snapshot shows the
   * render's own "not found" error until the reload replaces it with the
   * load's message.
   */
  lemma MissingSnapshotBeforeReload(
    s: DashboardState, brands: seq<Brand>, snapshots: map<string, DashboardSnapshot>, id: string)
    requires View(s, brands, snapshots).Overview? && id !in snapshots
    ensures View(ChooseBrand(s, id), brands, snapshots) == ErrorView(NotFoundMessage)
    ensures View(Load(ChooseBrand(s, id), snapshots), brands, snapshots) == ErrorView(NoSnapshotMessage(id))
  {
  }

  /** The first render shows the skeleton. */
  lemma InitialViewIsSkeleton(brands: seq<Brand>, snapshots: map<string, DashboardSnapshot>)
    requires |brands| > 0
    ensures View(Initial(brands), brands, snapshots) == Skeleton
  {
  }

  /** After a load the page is out of the skeleton: a missing snapshot shows the load's error. */
  lemma LoadedViewSettles(s: DashboardState, brands: seq<Brand>, snapshots: map<string, DashboardSnapshot>)
    ensures View(Load(s, snapshots), brands, snapshots) != Skeleton
    ensures s.brandId !in snapshots ==>
      View(Load(s, snapshots), brands, snapshots) == ErrorView(NoSnapshotMessage(s.brandId))
    ensures s.brandId in snapshots ==>
      (View(Load(s, snapshots), brands, snapshots).Overview? <==> exists b :: b in brands && b.id == s.brandId)
  {
  }

  /**
   * Choosing a listed brand that has a snapshot and reloading shows that
   * brand's overview, when brand ids are unique.
   */
  lemma ChosenBrandIsShown(
    s: DashboardState, brands: seq<Brand>, snapshots: map<string, DashboardSnapshot>, k: nat)
    requires k < |brands| && brands[k].id in snapshots
    requires forall i, j :: 0 <= i < j < |brands| ==> brands[i].id != brands[j].id
    ensures
      var snap := snapshots[brands[k].id];
      View(Load(ChooseBrand(s, brands[k].id), snapshots), brands, snapshots) ==
      Overview(brands[k], [snap.aiVisibilityScore, snap.trustScore, snap.keywordCoverage])
  {
    FindByIdUnique(brands, BrandId, k);
  }

  /** The page component: the brand list and snapshots are its fixtures, the rest its state. */
  class DashboardPage {
    const brands: seq<Brand>
    const snapshots: map<string, DashboardSnapshot>
    var selectedBrandId: string
    var isLoading: bool
    var error: Option<string>

    function State(): DashboardState
      reads this
    {
      DashboardState(selectedBrandId, isLoading, error)
    }

    constructor (brands: seq<Brand>, snapshots: map<string, DashboardSnapshot>)
      requires |brands| > 0
      ensures this.brands == brands && this.snapshots == snapshots
      ensures State() == Initial(brands)
    {
      this.brands := brands;
      this.snapshots := snapshots;
      selectedBrandId := brands[0].id;
      isLoading := true;
      error := None;
    }

    /** One run of the effect's `loadData`, the wait taken as instantaneous. */
    method LoadData()
      modifies this
      ensures State() == Load(old(State()), snapshots)
    {
      isLoading := true;
      error := None;
      if selectedBrandId !in snapshots {
        error := Some(NoSnapshotMessage(selectedBrandId));
        isLoading := false;
        return;
      }
      isLoading := false;
    }

    /** The selector's handler: only the brand changes. */
    method SelectBrand(id: string)
      modifies this
      ensures State() == ChooseBrand(old(State()), id)
    {
      selectedBrandId := id;
    }

    /** What the current state renders; reading it changes nothing. */
    method Render() returns (v: DashboardView)
      ensures v == View(State(), brands, snapshots)
    {
      if error.Some? && error.value != "" {
        return ErrorView(error.value);
      }
      if isLoading {
        return Skeleton;
      }
      var selectedBrand := FindById(brands, BrandId, selectedBrandId);
      if selectedBrand.None? || selectedBrandId !in snapshots {
        return ErrorView(NotFoundMessage);
      }
      var snapshot := snapshots[selectedBrandId];
      v := Overview(selectedBrand.value, [snapshot.aiVisibilityScore, snapshot.trustScore, snapshot.keywordCoverage]);
    }
  }
}
