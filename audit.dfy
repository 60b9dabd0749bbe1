/**
 * The audit page: its selection and loading state, the handlers that change
 * it, the load that the effect runs, and the choice of what to render.
 *
 * The load runs as one step: the 500 ms wait between raising and clearing
 * `isLoading` is not modelled, so a load goes from the state before it to the
 * state after it.
 */
module Audit {
  import opened Wrappers
  import opened Fixtures
  import opened Lookup
  import opened ScoreTier
  import opened Style
  import opened Js

  const InitialBrandId := "brand-1"
  const NoModulesMessage := "No modules found in audit data"
  const ModuleNotFoundMessage := "Selected module not found"

  function NoAuditDataMessage(id: string): (m: string)
    ensures |m| > |id|
  {
    "No audit data found for brand: " + id
  }

  /** The page's five pieces of state. */
  datatype AuditState = AuditState(
    brandId: string, moduleId: string, isLoading: bool, error: Option<string>, sidebarOpen: bool)

  /** The state the page is created in. */
  function Initial(): (s: AuditState)
    ensures s.brandId == InitialBrandId && s.moduleId == ""
    ensures s.isLoading && s.error == None && !s.sidebarOpen
  {
    AuditState(InitialBrandId, "", true, None, false)
  }

  /** The state after one run of the load: look the brand up, check it has modules, default the module. */
  function Load(s: AuditState, data: map<string, AuditRecord>): (r: AuditState)
    ensures !r.isLoading && r.brandId == s.brandId && r.sidebarOpen == s.sidebarOpen
    ensures s.brandId !in data ==> r.error == Some(NoAuditDataMessage(s.brandId))
    ensures s.brandId in data && |data[s.brandId].modules| == 0 ==> r.error == Some(NoModulesMessage)
    ensures r.error == None <==> s.brandId in data && |data[s.brandId].modules| > 0
    ensures r.error != None ==> r.moduleId == s.moduleId && Truthy(r.error)
    ensures r.error == None && s.moduleId == "" ==> r.moduleId == data[s.brandId].modules[0].id
    ensures s.moduleId != "" ==> r.moduleId == s.moduleId
  {
    if s.brandId !in data then
      s.(isLoading := false, error := Some(NoAuditDataMessage(s.brandId)))
    else if |data[s.brandId].modules| == 0 then
      s.(isLoading := false, error := Some(NoModulesMessage))
    else
      var moduleId := if s.moduleId == "" then data[s.brandId].modules[0].id else s.moduleId;
      s.(moduleId := moduleId, isLoading := false, error := None)
  }

  /** The brand selector's handler: sets the brand and closes the sidebar, keeping the module. */
  function ChooseBrand(s: AuditState, id: string): (r: AuditState)
    ensures r.brandId == id && !r.sidebarOpen
    ensures r.moduleId == s.moduleId && r.isLoading == s.isLoading && r.error == s.error
  {
    s.(brandId := id, sidebarOpen := false)
  }

  /** The sidebar's handler: sets the module and closes the sidebar. */
  function ChooseModule(s: AuditState, id: string): (r: AuditState)
    ensures r.moduleId == id && !r.sidebarOpen
    ensures r.brandId == s.brandId && r.isLoading == s.isLoading && r.error == s.error
  {
    s.(moduleId := id, sidebarOpen := false)
  }

  /** The menu button flips the sidebar; nothing else changes. */
  function SidebarToggled(s: AuditState): (r: AuditState)
    ensures r.sidebarOpen != s.sidebarOpen && r.(sidebarOpen := s.sidebarOpen) == s
  {
    s.(sidebarOpen := !s.sidebarOpen)
  }

  /** The backdrop and the close button shut the sidebar; nothing else changes. */
  function SidebarClosed(s: AuditState): (r: AuditState)
    ensures !r.sidebarOpen && r.(sidebarOpen := s.sidebarOpen) == s
  {
    s.(sidebarOpen := false)
  }

  /** The effect's dependency list: the brand, its audit record and the module. */
  function Deps(s: AuditState, data: map<string, AuditRecord>): (d: (string, Option<AuditRecord>, string))
    ensures d.0 == s.brandId && d.2 == s.moduleId
    ensures d.1 == None <==> s.brandId !in data
    ensures d.1.Some? ==> d.1.value == data[s.brandId]
  {
    (s.brandId, if s.brandId in data then Some(data[s.brandId]) else None, s.moduleId)
  }

  /** What the page renders. `RenderFault` is the exception thrown by reading `modules` of a missing record. */
  datatype AuditView = ErrorView(message: string) | Skeleton | Detail(shown: AuditModule) | RenderFault

  /** The render's checks in their order: error, loading or no module, the module lookup. */
  function View(s: AuditState, data: map<string, AuditRecord>): (v: AuditView)
    ensures v.ErrorView? ==> v.message != ""
    ensures Truthy(s.error) ==> v == ErrorView(s.error.value)
    ensures v == Skeleton <==> !Truthy(s.error) && (s.isLoading || s.moduleId == "")
    ensures v == RenderFault <==> !Truthy(s.error) && !s.isLoading && s.moduleId != "" && s.brandId !in data
    ensures v.Detail? ==> s.brandId in data && v.shown in data[s.brandId].modules && v.shown.id == s.moduleId
    ensures v == ErrorView(ModuleNotFoundMessage) && !Truthy(s.error) <==>
      !Truthy(s.error) && !s.isLoading && s.moduleId != "" && s.brandId in data &&
      forall m :: m in data[s.brandId].modules ==> m.id != s.moduleId
    ensures (!Truthy(s.error) && !s.isLoading && s.moduleId != "" && s.brandId in data &&
             exists m :: m in data[s.brandId].modules && m.id == s.moduleId) ==> v.Detail?
    ensures v.Detail? ==>
      (exists k :: 0 <= k < |data[s.brandId].modules| &&
         v.shown == data[s.brandId].modules[k] &&
         forall j :: 0 <= j < k ==> data[s.brandId].modules[j].id != s.moduleId)
  {
    if Truthy(s.error) then ErrorView(s.error.value)
    else if s.isLoading || s.moduleId == "" then Skeleton
    else if s.brandId !in data then RenderFault
    else
      FindByIdIsFirst(data[s.brandId].modules, ModuleId, s.moduleId);
      match FindById(data[s.brandId].modules, ModuleId, s.moduleId)
      case None => ErrorView(ModuleNotFoundMessage)
      case Some(m) => Detail(m)
  }

  /** Running the load again on its own result changes nothing, so the effect, re-triggered by the module id it wrote, stops after one more run. */
  lemma LoadIdempotent(s: AuditState, data: map<string, AuditRecord>)
    ensures Load(Load(s, data), data) == Load(s, data)
    ensures Deps(Load(Load(s, data), data), data) == Deps(Load(s, data), data)
  {
  }

  /** Changing the brand or the module changes the dependency list, so the load runs again. */
  lemma HandlersTriggerReload(s: AuditState, data: map<string, AuditRecord>, id: string)
    ensures id != s.brandId ==> Deps(ChooseBrand(s, id), data) != Deps(s, data)
    ensures id != s.moduleId ==> Deps(ChooseModule(s, id), data) != Deps(s, data)
  {
  }

  /** After a load the page is never stuck in the skeleton (unless the first module's id is empty) and never faults. */
  lemma LoadedViewSettles(s: AuditState, data: map<string, AuditRecord>)
    ensures View(Load(s, data), data) != RenderFault
    ensures View(Load(s, data), data) == Skeleton <==>
      s.brandId in data && |data[s.brandId].modules| > 0 && s.moduleId == "" &&
      data[s.brandId].modules[0].id == ""
    ensures s.brandId !in data ==> View(Load(s, data), data) == ErrorView(NoAuditDataMessage(s.brandId))
    ensures s.brandId in data && |data[s.brandId].modules| == 0 ==>
      View(Load(s, data), data) == ErrorView(NoModulesMessage)
  {
  }

  /** The first load of a brand with modules shows its first module. */
  lemma FirstLoadShowsFirstModule(s: AuditState, data: map<string, AuditRecord>)
    requires s.moduleId == "" && s.brandId in data && |data[s.brandId].modules| > 0
    requires data[s.brandId].modules[0].id != ""
    ensures View(Load(s, data), data) == Detail(data[s.brandId].modules[0])
  {
    var r := Load(s, data);
    assert r.moduleId == data[s.brandId].modules[0].id;
    assert FindIndex(data[s.brandId].modules, ModuleId, r.moduleId) == Some(0);
  }

  /**
   * Switching to another brand keeps the old module id, and the load keeps it
   * too, so a brand whose modules do not include that id ends in the
   * "Selected module not found" error.
   */
  lemma StaleModuleAfterBrandSwitch(s: AuditState, data: map<string, AuditRecord>, id: string)
    requires s.moduleId != "" && id in data && |data[id].modules| > 0
    requires forall m :: m in data[id].modules ==> m.id != s.moduleId
    ensures View(Load(ChooseBrand(s, id), data), data) == ErrorView(ModuleNotFoundMessage)
  {
  }

  /**
   * Switching, from a shown module, to a brand with no audit record faults in
   * the very next render, before the effect could reload.
   */
  lemma MissingBrandFaultsBeforeReload(s: AuditState, data: map<string, AuditRecord>, id: string)
    requires View(s, data).Detail? && id !in data
    ensures View(ChooseBrand(s, id), data) == RenderFault
  {
  }

  /**
   * Choosing a module from the sidebar (shown only with a module's details)
   * shows that module, before and after the reload it triggers, when module
   * ids are unique within the record.
   */
  lemma ChosenModuleIsShown(s: AuditState, data: map<string, AuditRecord>, k: nat)
    requires View(s, data).Detail?
    requires k < |data[s.brandId].modules| && data[s.brandId].modules[k].id != ""
    requires forall i, j :: 0 <= i < j < |data[s.brandId].modules| ==>
      data[s.brandId].modules[i].id != data[s.brandId].modules[j].id
    ensures View(ChooseModule(s, data[s.brandId].modules[k].id), data) == Detail(data[s.brandId].modules[k])
    ensures View(Load(ChooseModule(s, data[s.brandId].modules[k].id), data), data) ==
      Detail(data[s.brandId].modules[k])
  {
    var ms := data[s.brandId].modules;
    FindByIdUnique(ms, ModuleId, k);
  }

  /** One module's button in the sidebar. */
  datatype SidebarEntry = SidebarEntry(moduleId: string, active: bool, tier: Tier, badge: Colour, bar: Colour)

  predicate ScoresPositive(ms: seq<AuditModule>)
  {
    forall m :: m in ms ==> m.score.maxValue > 0
  }

  /** One module's button: the active one is dark with a primary bar, the others wear their tier colour. */
  function SidebarEntryOf(m: AuditModule, selectedId: string): (e: SidebarEntry)
    requires m.score.maxValue > 0
    ensures e.moduleId == m.id && (e.active <==> m.id == selectedId)
    ensures e.tier == TierOfPercentage(Percentage(m.score.value, m.score.maxValue))
    ensures e.active ==> e.badge == Gray && e.bar == Primary
    ensures !e.active ==> e.badge == e.bar == TierColour(e.tier)
  {
    var tier := Classify(m.score.value, m.score.maxValue);
    var active := m.id == selectedId;
    SidebarEntry(m.id, active, tier,
      if active then Gray else TierColour(tier),
      if active then Primary else TierColour(tier))
  }

  /** The sidebar: one entry per module, in order; an inactive entry wears its score's tier colour. */
  function Sidebar(ms: seq<AuditModule>, selectedId: string): (r: seq<SidebarEntry>)
    requires ScoresPositive(ms)
    ensures |r| == |ms|
    ensures forall i :: 0 <= i < |ms| ==>
      r[i].moduleId == ms[i].id && (r[i].active <==> ms[i].id == selectedId)
    ensures forall i :: 0 <= i < |ms| ==>
      r[i].tier == TierOfPercentage(Percentage(ms[i].score.value, ms[i].score.maxValue))
    ensures forall i :: 0 <= i < |ms| && !r[i].active ==> r[i].badge == r[i].bar == TierColour(r[i].tier)
    ensures forall i :: 0 <= i < |ms| && r[i].active ==> r[i].badge == Gray && r[i].bar == Primary
  {
    seq(|ms|, i requires 0 <= i < |ms| => SidebarEntryOf(ms[i], selectedId))
  }

  /** Colour of the large score in the module header. */
  function HeadlineColour(m: AuditModule): (c: Colour)
    requires m.score.maxValue > 0
    ensures c == TierColour(TierOfPercentage(Percentage(m.score.value, m.score.maxValue)))
  {
    TierColour(Classify(m.score.value, m.score.maxValue))
  }

  /** The shown module is the first active sidebar entry, and that entry's tier is the headline's colour. */
  lemma SidebarMatchesHeadline(s: AuditState, data: map<string, AuditRecord>)
    requires View(s, data).Detail? && s.brandId in data && ScoresPositive(data[s.brandId].modules)
    ensures
      var ms := data[s.brandId].modules;
      var k := FindIndex(ms, ModuleId, s.moduleId);
      k.Some? && ms[k.value] == View(s, data).shown &&
      Sidebar(ms, s.moduleId)[k.value].active &&
      (forall j :: 0 <= j < k.value ==> !Sidebar(ms, s.moduleId)[j].active) &&
      TierColour(Sidebar(ms, s.moduleId)[k.value].tier) == HeadlineColour(View(s, data).shown)
  {
    FindByIdIsFirst(data[s.brandId].modules, ModuleId, s.moduleId);
  }

  /** The page component: its state lives in fields and the handlers update them. */
  class AuditPage {
    const auditData: map<string, AuditRecord>
    var selectedBrandId: string
    var selectedModuleId: string
    var isLoading: bool
    var error: Option<string>
    var mobileSidebarOpen: bool

    function State(): AuditState
      reads this
    {
      AuditState(selectedBrandId, selectedModuleId, isLoading, error, mobileSidebarOpen)
    }

    constructor (auditData: map<string, AuditRecord>)
      ensures this.auditData == auditData && State() == Initial()
    {
      this.auditData := auditData;
      selectedBrandId := InitialBrandId;
      selectedModuleId := "";
      isLoading := true;
      error := None;
      mobileSidebarOpen := false;
    }

    /** One run of the effect's `loadData`, the wait taken as instantaneous. */
    method LoadData()
      modifies this
      ensures State() == Load(old(State()), auditData)
    {
      isLoading := true;
      error := None;
      if selectedBrandId !in auditData {
        error := Some(NoAuditDataMessage(selectedBrandId));
        isLoading := false;
        return;
      }
      var modules := auditData[selectedBrandId].modules;
      if |modules| == 0 {
        error := Some(NoModulesMessage);
        isLoading := false;
        return;
      }
      if selectedModuleId == "" && |modules| > 0 {
        selectedModuleId := modules[0].id;
      }
      isLoading := false;
    }

    method SelectBrand(id: string)
      modifies this
      ensures State() == ChooseBrand(old(State()), id)
    {
      selectedBrandId := id;
      mobileSidebarOpen := false;
    }

    method SelectModule(id: string)
      modifies this
      ensures State() == ChooseModule(old(State()), id)
    {
      selectedModuleId := id;
      mobileSidebarOpen := false;
    }

    method ToggleSidebar()
      modifies this
      ensures State() == SidebarToggled(old(State()))
    {
      mobileSidebarOpen := !mobileSidebarOpen;
    }

    method CloseSidebar()
      modifies this
      ensures State() == SidebarClosed(old(State()))
    {
      mobileSidebarOpen := false;
    }

    /** What the current state renders; reading it changes nothing. */
    method Render() returns (v: AuditView)
      ensures v == View(State(), auditData)
    {
      if error.Some? && error.value != "" {
        return ErrorView(error.value);
      }
      if isLoading || selectedModuleId == "" {
        return Skeleton;
      }
      if selectedBrandId !in auditData {
        return RenderFault;
      }
      var found := FindById(auditData[selectedBrandId].modules, ModuleId, selectedModuleId);
      if found.None? {
        return ErrorView(ModuleNotFoundMessage);
      }
      v := Detail(found.value);
    }
  }
}
