# Brand-intelligence front-end: audit and dashboard page logic

A Dafny model of the only logic in this marketing and demo front-end: the two
client pages under `app/app/`. The audit page shows one brand's audit modules
with their insights, issues and recommendations. The dashboard page shows three
headline scores for one brand. Both pages read bundled fixtures: a brand list,
audit records and dashboard snapshots, each keyed by brand id. The model covers:

- **Score tiers** (`ScoreTier`). A score `value` out of `maxValue` is green at
  80 % or more, yellow at 60 % or more, and red otherwise. The pages compute
  `value / maxValue * 100`. `TierOfPercentage(Percentage(..))` is that
  computation over exact reals. `Classify` makes the same decision by integer
  cross-multiplication, and its contract proves the two agree. The audit
  sidebar, the audit headline and the dashboard score card all use these
  thresholds.
- **Card styling** (`AuditCards`, `Style`). The total switches from issue
  severity, recommendation priority and effort, and insight type to abstract
  colour and icon tokens. Also the capitalised effort label.
- **Page state** (`Audit`, `Dashboard`). Each page is a class whose fields are
  the React state. Its handlers and its `LoadData` are methods. Each method is
  specified by a pure transition function over a state value (`Load`,
  `ChooseBrand`, `ChooseModule`). `View` decides what is rendered: the error
  panel, the skeleton, or the content. The lemmas about these functions relate
  the operations to each other.
- **Lookups** (`Lookup`). `Array.prototype.find` by id, used for the selected
  module and the selected brand.

Behaviour of the code that the model reproduces:

- On the audit page, choosing a brand does not reset the selected module
  (`app/app/audit/page.tsx:349-352`). The load fills in the module only when it
  is empty (`:272`). A module id that the new brand lacks therefore ends in
  "Selected module not found" (`StaleModuleAfterBrandSwitch`).
- React renders before it runs an effect. The audit page also reads
  `brandAudit.modules` (`:294`) without checking that the record exists. So if
  the page is showing a module and the user picks a brand that has no audit
  record, the render throws and the page does not recover: a render that
  throws is not committed, so the effect with the new brand never runs.
  `View` returns `RenderFault` for this case
  (`MissingBrandFaultsBeforeReload`). It cannot happen when every listed brand
  has an audit record.
- `if (error)` treats an empty string as no error. `Js.Truthy` models that, but
  every error message the pages produce is non-empty.
- A falsy trend (absent or `""`) shows no icon. `"up"` and `"down"` get arrows.
  Any other string gets the flat `Minus` icon.
- The audit effect lists `selectedModuleId` as a dependency, and the load
  itself may write that id. `Audit.LoadIdempotent` shows that the second run changes
  nothing, so the effect does not loop.

## Model

| member | source | states |
|---|---|---|
| `ScoreTier.Percentage` | app/app/audit/page.tsx:44 | the percentage times maxValue is value*100; a score within 0..maxValue gives 0-100 % |
| `ScoreTier.TierOfPercentage` | app/app/audit/page.tsx:45 | the source's chain: good iff >= 80, fair iff 60 to below 80, poor iff below 60 |
| `ScoreTier.PercentageAtLeast` | app/app/audit/page.tsx:44-45 | the real percentage reaches threshold t exactly when value*100 >= t*maxValue (maxValue > 0) |
| `ScoreTier.Classify` | app/app/audit/page.tsx:44-45 | the integer tier equals the tier of the exact percentage; green iff >= 80 %, yellow iff 60-80 %, red iff < 60 %, so the tiers are exclusive and exhaustive |
| `ScoreTier.TierMonotone` | app/app/audit/page.tsx:300-301 | with maxValue fixed, a larger value never gives a worse tier |
| `ScoreTier.TierBoundaries` | app/app/audit/page.tsx:301 | 80/100 is green, 79/100 and 60/100 are yellow, 59/100 is red |
| `ScoreTier.TierScaleInvariant` | app/app/audit/page.tsx:44 | the tier depends only on the ratio value/maxValue |
| `Style.TierColour` | app/app/audit/page.tsx:45 | green exactly for a good tier, yellow exactly for fair, red exactly for poor |
| `Style.TierColourInjective` | app/app/audit/page.tsx:301 | distinct tiers get distinct colours |
| `Lookup.FindIndex` | app/app/audit/page.tsx:294 | the index found holds the id and no earlier element does; no index means no element has the id |
| `Lookup.FindById` | app/app/audit/page.tsx:294 | `find` returns an element of the list with the id, and returns nothing exactly when no element has it |
| `Lookup.FindByIdIsFirst` | app/app/audit/page.tsx:294 | `find` returns the element at the first matching index |
| `Lookup.FindByIdUnique` | app/app/dashboard/page.tsx:163 | with unique ids, `find` on an element's id returns that element |
| `AuditCards.SeverityIcon` | app/app/audit/page.tsx:83-90 | the icon is red exactly for critical and high; high and low share the AlertCircle shape |
| `AuditCards.SeverityCard` | app/app/audit/page.tsx:92-99 | the card is red exactly for critical, orange exactly for high, yellow exactly for medium, blue exactly for low |
| `AuditCards.SeverityStylesDistinguish` | app/app/audit/page.tsx:84-98 | each severity has its own card colour and its own icon, so high (orange card) is set apart from critical (red card) |
| `AuditCards.SeverityIconMatchesCard` | app/app/audit/page.tsx:84-98 | the icon colour matches the card colour for every severity except high |
| `AuditCards.PriorityColour` | app/app/audit/page.tsx:123-129 | the priority badge is red exactly for high and blue exactly for low |
| `AuditCards.EffortColour` | app/app/audit/page.tsx:131-137 | the effort text is green exactly for low effort and red exactly for high effort |
| `AuditCards.PriorityEffortColours` | app/app/audit/page.tsx:123-137 | priority and effort colours agree except at low (blue against green) |
| `AuditCards.UpperChar` | app/app/audit/page.tsx:159 | a lower-case ASCII letter becomes its capital; any other character is unchanged |
| `AuditCards.Capitalise` | app/app/audit/page.tsx:159 | same length, first character upper-cased, the rest unchanged; the empty string stays empty |
| `AuditCards.CapitaliseIdempotent` | app/app/audit/page.tsx:159 | capitalising twice is the same as capitalising once |
| `AuditCards.EffortLabel` | app/app/audit/page.tsx:158-160 | the label keeps the length and the tail of the effort's fixture name |
| `AuditCards.EffortLabels` | app/app/audit/page.tsx:159 | the labels are "High", "Medium" and "Low" |
| `AuditCards.InsightCardColour` | app/app/audit/page.tsx:170-176 | the card is green exactly for positive and red exactly for negative insights |
| `AuditCards.InsightIcon` | app/app/audit/page.tsx:178-184 | CheckCircle2 exactly for positive, XCircle exactly for negative |
| `AuditCards.InsightIconMatchesCard` | app/app/audit/page.tsx:170-184 | an insight's icon is always drawn in its card's colour |
| `Audit.NoAuditDataMessage` | app/app/audit/page.tsx:264 | the message is longer than the brand id it names, so it is never empty |
| `Js.Truthy` | app/app/audit/page.tsx:286 | null and the empty string are falsy, every other string truthy (also the dashboard's `if (error)`) |
| `Audit.Initial` | app/app/audit/page.tsx:245-249 | the page starts on brand-1 with no module, loading, no error and the sidebar closed |
| `Audit.Load` | app/app/audit/page.tsx:255-280 | loading ends with isLoading false; a missing record gives "No audit data found for brand: " + id; an empty module list gives "No modules found in audit data"; there is no error iff both checks pass; a successful load fills an empty module id with the first module's id; a non-empty module id is never changed; brand and sidebar are kept |
| `Audit.ChooseBrand` | app/app/audit/page.tsx:349-352 | only the brand changes and the sidebar closes; the module id, loading flag and error are kept |
| `Audit.ChooseModule` | app/app/audit/page.tsx:376-379 | only the module changes and the sidebar closes |
| `Audit.SidebarToggled` | app/app/audit/page.tsx:315 | the sidebar flag flips and nothing else changes |
| `Audit.SidebarClosed` | app/app/audit/page.tsx:336 | the sidebar closes and nothing else changes |
| `Audit.Deps` | app/app/audit/page.tsx:284 | the dependency list holds the brand id, the brand's record (none when missing) and the module id |
| `Audit.View` | app/app/audit/page.tsx:286-298 | the checks in order: an error shows its (non-empty) message; otherwise loading or no module shows the skeleton; a missing record faults; a module id absent from the record shows "Selected module not found"; otherwise the detail view, of the first module of the record with that id |
| `Audit.LoadIdempotent` | app/app/audit/page.tsx:272-284 | a second load changes nothing, so the effect re-triggered by the module id it wrote stops |
| `Audit.HandlersTriggerReload` | app/app/audit/page.tsx:284 | a brand or module change alters the effect's dependencies |
| `Audit.LoadedViewSettles` | app/app/audit/page.tsx:262-298 | after a load the view never faults; it is the skeleton only if the first module's id is empty; the two load errors are what is shown |
| `Audit.FirstLoadShowsFirstModule` | app/app/audit/page.tsx:271-274 | the first load of a brand with modules shows its first module |
| `Audit.StaleModuleAfterBrandSwitch` | app/app/audit/page.tsx:349-352 | after switching to a brand whose modules lack the current id, the reload ends in "Selected module not found" |
| `Audit.MissingBrandFaultsBeforeReload` | app/app/audit/page.tsx:294 | switching from a shown module to a brand with no record faults in the next render, before any reload |
| `Audit.ChosenModuleIsShown` | app/app/audit/page.tsx:376-379 | choosing a module from the sidebar shows it, before and after the reload, when module ids are unique |
| `Audit.SidebarEntryOf` | app/app/audit/page.tsx:43-71 | a module's button: active iff its id is selected; tier of the exact percentage; gray badge and primary bar when active, the tier colour on both otherwise |
| `Audit.Sidebar` | app/app/audit/page.tsx:42-45 | one entry per module in order; an entry is active iff its id is selected; its tier is that of the exact percentage; an inactive entry wears its tier colour, an active one the gray badge and primary bar |
| `Audit.HeadlineColour` | app/app/audit/page.tsx:300-301 | the headline colour is the tier colour of the exact percentage |
| `Audit.SidebarMatchesHeadline` | app/app/audit/page.tsx:43-45 | the shown module is the first active sidebar entry, and that entry's tier colour is the headline's colour |
| `Audit.AuditPage.constructor` | app/app/audit/page.tsx:245-249 | the fields start in the initial state |
| `Audit.AuditPage.LoadData` | app/app/audit/page.tsx:254-280 | the fields move from a state to its `Load` |
| `Audit.AuditPage.SelectBrand` | app/app/audit/page.tsx:349-352 | the fields move to `ChooseBrand` of the old state |
| `Audit.AuditPage.SelectModule` | app/app/audit/page.tsx:376-379 | the fields move to `ChooseModule` of the old state |
| `Audit.AuditPage.ToggleSidebar` | app/app/audit/page.tsx:315 | the fields move to `SidebarToggled` of the old state |
| `Audit.AuditPage.CloseSidebar` | app/app/audit/page.tsx:309 | the fields move to `SidebarClosed` of the old state |
| `Audit.AuditPage.Render` | app/app/audit/page.tsx:286-298 | the early returns produce `View` of the current state |
| `Dashboard.NoSnapshotMessage` | app/app/dashboard/page.tsx:142 | the message is longer than the brand id it names |
| `Dashboard.TrendIcon` | app/app/dashboard/page.tsx:26-31 | no icon iff the trend is absent or empty; up gives TrendingUp, down gives TrendingDown, any other value gives Minus |
| `Dashboard.ScoreColour` | app/app/dashboard/page.tsx:33-38 | the card's own percentage chain gives the tier colour of the audit page's classification |
| `Dashboard.Initial` | app/app/dashboard/page.tsx:126-128 | the page starts on the first listed brand, loading, with no error |
| `Dashboard.Load` | app/app/dashboard/page.tsx:132-149 | loading ends with isLoading false; there is no error iff the brand has a snapshot, else "No data found for brand: " + id |
| `Dashboard.ChooseBrand` | app/app/dashboard/page.tsx:195 | only the brand changes |
| `Dashboard.View` | app/app/dashboard/page.tsx:155-168 | the checks in order: error, then loading, then "Brand or snapshot data not found" iff the snapshot or the listed brand is missing, otherwise the overview; an overview holds the first listed brand with the id and its AI-visibility, trust and keyword-coverage scores in that order |
| `Dashboard.Deps` | app/app/dashboard/page.tsx:153 | the dependency list is the selected brand id alone |
| `Dashboard.BrandChangeTriggersReload` | app/app/dashboard/page.tsx:153 | the effect's dependencies change iff the brand does |
| `Dashboard.MissingSnapshotBeforeReload` | app/app/dashboard/page.tsx:163-167 | switching from an overview to a brand with no snapshot shows the render's "not found" error, then the load's message |
| `Dashboard.InitialViewIsSkeleton` | app/app/dashboard/page.tsx:159-161 | the first render is the skeleton |
| `Dashboard.LoadedViewSettles` | app/app/dashboard/page.tsx:139-168 | after a load the view is never the skeleton; a missing snapshot shows the load's error; with a snapshot, the overview is shown iff the brand is listed |
| `Dashboard.ChosenBrandIsShown` | app/app/dashboard/page.tsx:216-218 | choosing a listed brand with a snapshot and reloading shows that brand's three scores, when brand ids are unique |
| `Dashboard.DashboardPage.constructor` | app/app/dashboard/page.tsx:126-128 | the fields start in the initial state of the brand list (which must be non-empty) |
| `Dashboard.DashboardPage.LoadData` | app/app/dashboard/page.tsx:131-150 | the fields move from a state to its `Load` |
| `Dashboard.DashboardPage.SelectBrand` | app/app/dashboard/page.tsx:195 | the fields move to `ChooseBrand` of the old state |
| `Dashboard.DashboardPage.Render` | app/app/dashboard/page.tsx:155-168 | the early returns produce `View` of the current state |

## Left out

- The 500 ms `setTimeout` wait, the async function and `useEffect` scheduling. A load is one atomic step. The intermediate state, with `isLoading` true and the error cleared, is not observable in the model. Which handler triggers a reload is stated through each page's dependency list (`Deps`).
- What follows a `RenderFault`: the framework's error boundary takes over the page. The model still allows `LoadData` after it, which the program never runs.
- The catch-all messages "Failed to load audit data" and "Failed to load dashboard data". Every value the loads throw is an `Error`, so these branches cannot be taken.
- Floating-point rounding in `value / maxValue * 100`. The model uses exact reals and integers. For integer scores the two agree. A ratio that is not exactly 3/5 or 4/5 is at least 20/maxValue percentage points from the threshold (`100*value - 80*maxValue` is a multiple of 20), far beyond rounding error for any realistic `maxValue`. A ratio exactly 4/5 or 3/5 divides to the double nearest 0.8 or 0.6, and multiplying that by 100 rounds to exactly 80.0 or 60.0.
- Behaviour at `maxValue <= 0` (Infinity or NaN in the source). Every tier and colour function requires `maxValue > 0`.
- `ScoreTier.Classify` and the colour functions take `value` and `maxValue` as integers; non-integer scores are not modelled.
- `AuditCards.UpperChar`: covers ASCII `a`-`z` only, not the full Unicode case mapping of `toUpperCase`; the fixture's effort names are ASCII.
- Severities, priorities, efforts and insight types are closed datatypes. A fixture string outside the TypeScript unions would make the source's switches return `undefined`; the shared types file that declares those unions is not part of this model.
- Tailwind class strings are reduced to abstract colour and icon tokens. The skeleton layouts, the card markup, the retry buttons (`window.location.reload()`) and the date formatting of `toLocaleDateString` are not modelled.
- The dashboard's initial `typedBrands[0]` throws on an empty brand list. `Dashboard.Initial` and the page constructor require a non-empty list instead of modelling that exception.
- The fixture contents and the `as` casts. The brand list, audit records and snapshots are parameters.
- The marketing pages, the app layout and the header: markup and menu toggles with no other logic.
