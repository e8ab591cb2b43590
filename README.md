# NSS dashboard — a verified model of its interaction logic

The NSS web dashboard is a React front end for space-enabled pharmaceutical research:
a navigation shell with seven pages, a data hub that searches a dataset catalogue, an
AI copilot chat, a digital-twin simulator of a crystallization experiment, and a
sustainability page for orbital-debris alerts and regulatory compliance. This project
models the logic behind those screens in Dafny and proves what it promises.

The model follows the shape of the code:

- React state updaters (`prev => …`) and pure helpers become Dafny functions; the state a
  component keeps becomes a class whose methods apply them (`DataHub.DataHubPanel`,
  `Copilot.AICopilot`, `DigitalTwin.Simulator`, `Layout.Shell`, `Router.Home`).
- Timer callbacks are explicit step methods: the copilot's delayed answer is
  `DeliverReply`, the simulator's interval is `Tick`, the recording animation is
  `RegenerateWaveform`.
- `Math.random()` is an argument `r` with `0 <= r < 1`; a list of twenty draws for the
  waveform.
- Numbers in the simulator are `real`; `Math.round(x)` is `floor(x + 0.5)`.
- `trim()` removes exactly the ECMAScript white-space and line-terminator characters;
  `toLowerCase()` is modelled for ASCII letters.

Modules: `Wrappers` (an `Option` type), `Badge` (the badge variants shared by the layout
and sustainability screens), `Sustainability`, `Layout`, `Router`, `DataHub`,
`DataHubExample` (the worked search for "protein"), `Copilot`, `DigitalTwin`.

The three longer dataset titles in `DataHub` and the long copilot texts are written as
pieces joined by `+`; the strings are the same.

Two behaviours of the code are worth knowing and are proved as stated:

- The text-to-speech button is disabled while playback is off, playback starts off and
  nothing else turns it on, so playback never starts (`Copilot.PlaybackNeverStarts`). The
  panel's invariant `Copilot.AICopilot.Valid` includes "not playing", and a click on that
  button (`Copilot.AICopilot.TogglePlayback`) leaves the panel unchanged.
- The results shown before the first simulation run (87 %, 18.5 h, 94 %, $245k) are not
  what the formulas give for the initial sliders (94.6 %, 16 h, 98 %, $290k), so the
  first run changes them even with untouched sliders
  (`DigitalTwin.InitialResultsAreNotComputed`).

Simulation progress can pass 100 for one tick (DigitalTwin.tsx:85) before the next tick
pins it to exactly 100 (lines 73-83); the model follows the code here, not the
description of progress as a value that stays within 0–100 (`DigitalTwin.ProgressCanOvershoot`,
`DigitalTwin.Simulator.Valid` bounds it by 115 during a run).

## Model

| member | source | states |
|---|---|---|
| Sustainability.RiskColor | src/components/sustainability/Sustainability.tsx:97-106 | low ↔ success, medium ↔ warning, high ↔ destructive, each as an if-and-only-if |
| Sustainability.RiskColorInjective | src/components/sustainability/Sustainability.tsx:97-106 | different risk levels never share a colour |
| Sustainability.StatusColor | src/components/sustainability/Sustainability.tsx:108-117 | active ↔ success, planned ↔ info, deorbited ↔ secondary |
| Sustainability.StatusColorInjective | src/components/sustainability/Sustainability.tsx:108-117 | different mission statuses never share a colour |
| Sustainability.ComplianceBadge | src/components/sustainability/Sustainability.tsx:451 | for any numeric score, fractions included: default exactly for scores ≥ 95, secondary exactly for 80 ≤ score < 95, destructive exactly below 80 |
| Sustainability.ComplianceBadgeMonotone | src/components/sustainability/Sustainability.tsx:451 | a higher score never gets a lower badge tier |
| Sustainability.ExpiryLabel | src/components/sustainability/Sustainability.tsx:446 | "N/A" reads "Permanent"; any other expiry reads "Expires: " followed by it |
| Sustainability.ExpiryLabelInjective | src/components/sustainability/Sustainability.tsx:446 | distinct dates give distinct labels, and no date reads "Permanent" |
| Sustainability.OverviewAlerts | src/components/sustainability/Sustainability.tsx:268 | the overview shows min(3, n) alerts, the first ones in list order |
| Sustainability.OverviewShowsAllSampleAlerts | src/components/sustainability/Sustainability.tsx:268 | with the three sample alerts the overview shows all of them |
| Sustainability.AlertCardButtons | src/components/sustainability/Sustainability.tsx:409-418 | a card has a "Plan Maneuver" button exactly when a manoeuvre is required and a "Details" button exactly on the alerts tab, no other buttons, one button per caption (from none to two in all), "Details" first and outlined, "Plan Maneuver" outlined on the overview and filled on the alerts tab |
| Sustainability.OverviewCardsAgreeWithAlertsTab | src/components/sustainability/Sustainability.tsx:280-286 | for any alert list, each overview card offers a manoeuvre exactly when the same alert's alerts-tab card does, and has one button fewer |
| Sustainability.SampleManeuverButtons | src/components/sustainability/Sustainability.tsx:40-66 | the first and third sample alerts get the manoeuvre button on the overview, the second none there and only "Details" on the alerts tab |
| Sustainability.SampleComplianceBadges | src/components/sustainability/Sustainability.tsx:435-452 | the first four compliance items get the top-tier badge, the ITU coordination the destructive one, and the UN registration reads "Permanent" |
| Sustainability.SampleMissionsActive | src/components/sustainability/Sustainability.tsx:499-535 | every sample mission has a green status badge and a score inside its progress bar's 0–100 range |
| Sustainability.DebrisDotColor | src/components/sustainability/Sustainability.tsx:360 | dots 0–2 destructive, 3–5 warning, 6 and up success |
| Sustainability.DebrisDots | src/components/sustainability/Sustainability.tsx:356-361 | twelve dots, dot i coloured by the rule above |
| Sustainability.DebrisDotCounts | src/components/sustainability/Sustainability.tsx:356-361 | exactly 3 destructive, 3 warning and 6 success dots |
| Layout.NavigationIds | src/components/Layout.tsx:31-39 | seven ids, the i-th being the i-th navigation item's |
| Layout.NavigationIdsDistinct | src/components/Layout.tsx:31-39 | the navigation ids are pairwise distinct |
| Layout.ActiveCountDistinct | src/components/Layout.tsx:113 | over items with distinct ids at most one is active, and exactly one iff the current page is one of the ids |
| Layout.SidebarActiveItem | src/components/Layout.tsx:113 | one sidebar item is highlighted when the current page is a navigation id, none otherwise |
| Layout.NavClickTarget | src/components/Layout.tsx:118 | clicking item i requests item i's id, which makes exactly that item active |
| Layout.QuickAccessTarget | src/components/Layout.tsx:143 | the quick-access button requests "ai-copilot", the AI copilot item's id |
| Layout.BadgeVariant | src/components/Layout.tsx:127-130 | no badge for a missing or empty badge; default exactly for "AI"; secondary for any other |
| Layout.SidebarBadges | src/components/Layout.tsx:31-39 | Pharma Studio shows a secondary badge, AI Copilot a default one, the rest none |
| Layout.Shell.constructor | src/components/Layout.tsx:42-43 | the sidebar starts open and the theme dark |
| Layout.Shell.ToggleSidebar | src/components/Layout.tsx:61 | the menu button flips the sidebar and leaves the theme |
| Layout.Shell.CloseSidebar | src/components/Layout.tsx:170-174 | the backdrop click closes the sidebar, which hides the backdrop, whatever the state before |
| Layout.Shell.ToggleTheme | src/components/Layout.tsx:45-48 | flips the theme and leaves the sidebar |
| Layout.ToggleTwiceRestores | src/components/Layout.tsx:45-61 | pressing the menu button twice and the theme button twice restores both flags |
| Router.RenderPage | src/app/page.tsx:16-35 | any string outside the seven page ids renders the dashboard, and "dashboard" is the only id that does |
| Router.PageOf | src/app/page.tsx:17-31 | every panel is rendered by some page id |
| Router.KnownPagesRoundTrip | src/app/page.tsx:17-31 | on the seven ids, rendering and then asking for the panel's id gives the id back |
| Router.KnownPagesDistinct | src/app/page.tsx:17-31 | the seven ids render seven different panels |
| Router.UnknownPageFallsBack | src/app/page.tsx:32-33 | an unknown page renders what "dashboard" renders |
| Router.NavigationIdsAreHandled | src/app/page.tsx:17-31 | the sidebar's ids are exactly the router's ids, in the same order |
| Router.Home.constructor | src/app/page.tsx:14 | the first page is "dashboard", which shows the mission-control panel |
| Router.Home.OnPageChange | src/app/page.tsx:14-39 | the shell's page request becomes the current page and decides the panel |
| DataHub.LowerChar | src/components/data-hub/DataHub.tsx:188-189 | ASCII capitals become their lower-case letters, every other character is kept |
| DataHub.ToLower | src/components/data-hub/DataHub.tsx:188-189 | lower-cases character by character, keeping the length |
| DataHub.ToLowerIdempotent | src/components/data-hub/DataHub.tsx:188-189 | lower-casing twice equals lower-casing once |
| DataHub.LowerCharPreimage | src/components/data-hub/DataHub.tsx:188-189 | only a letter and its capital lower-case to that letter |
| DataHub.ToLowerAppend | src/components/data-hub/DataHub.tsx:188-189 | lower-casing distributes over concatenation |
| DataHub.ContainsSelf | src/components/data-hub/DataHub.tsx:188 | every string contains itself (includes) |
| DataHub.NotContainsMissingChar | src/components/data-hub/DataHub.tsx:188 | a query with a character the text lacks is not contained in it |
| DataHub.NotContainsAcross | src/components/data-hub/DataHub.tsx:188 | a query without a separator occurs in a + sep + b only if it occurs in a or in b |
| DataHub.LowerLacks | src/components/data-hub/DataHub.tsx:188 | a text with neither a letter nor its capital lacks the letter once lower-cased |
| DataHub.NotContainsLowerAcross | src/components/data-hub/DataHub.tsx:188 | the separator rule above after lower-casing |
| DataHub.FilterDatasets | src/components/data-hub/DataHub.tsx:186-195 | a dataset is in the result iff it is in the catalogue, matches the query (empty, title or a tag containing it, case-insensitively) and matches the filters (none selected, or one of its tags equals a selected one) |
| DataHub.SubsequenceLength | src/components/data-hub/DataHub.tsx:186 | a subsequence is no longer than its source |
| DataHub.SubsequenceMembers | src/components/data-hub/DataHub.tsx:186 | a subsequence only holds elements of its source |
| DataHub.SubsequenceDistinct | src/components/data-hub/DataHub.tsx:186 | a subsequence of a duplicate-free list is duplicate-free |
| DataHub.FilterIsSubsequence | src/components/data-hub/DataHub.tsx:186-195 | the result keeps the catalogue's order: it is a subsequence |
| DataHub.FilterMonotone | src/components/data-hub/DataHub.tsx:186-195 | a weaker match condition gives a result containing the stronger one's as a subsequence |
| DataHub.SubsequenceSkip | src/components/data-hub/DataHub.tsx:186 | a subsequence stays one when the source gains a head |
| DataHub.FilterSameMatches | src/components/data-hub/DataHub.tsx:186-195 | equivalent match conditions give the same result |
| DataHub.EmptySearchShowsAll | src/components/data-hub/DataHub.tsx:187-191 | an empty query with no filters returns the catalogue unchanged |
| DataHub.QueryNarrows | src/components/data-hub/DataHub.tsx:187-194 | any query returns a subsequence of the empty query's result |
| DataHub.MoreFiltersWiden | src/components/data-hub/DataHub.tsx:191-192 | with a non-empty selection, selecting more tags never removes a result |
| DataHub.SearchIsCaseInsensitive | src/components/data-hub/DataHub.tsx:188-189 | queries equal up to ASCII case give identical results |
| DataHub.FilterDependsOnSelectedSet | src/components/data-hub/DataHub.tsx:191-192 | only the set of selected tags matters, not their order or repetition |
| DataHub.SampleDatasetsDistinct | src/components/data-hub/DataHub.tsx:104-155 | the five catalogue entries are pairwise distinct |
| DataHub.SampleResultsBounded | src/components/data-hub/DataHub.tsx:186-195 | every result on the catalogue has at most 5 entries, keeps catalogue order and has no duplicates |
| DataHub.WordLacks | src/components/data-hub/DataHub.tsx:188-189 | a word lacking one of the query's letters in both cases does not contain the query |
| DataHub.FourTagsLack | src/components/data-hub/DataHub.tsx:189 | four tags each lacking a letter of the query: no tag contains it |
| DataHub.FourWordsLack | src/components/data-hub/DataHub.tsx:188 | a four-word title whose words each lack a letter of a space-free query does not contain it |
| DataHub.RemoveAll | src/components/data-hub/DataHub.tsx:200 | keeps every element except the tag, in order and with its multiplicity; every occurrence of the tag is gone |
| DataHub.Toggle | src/components/data-hub/DataHub.tsx:197-203 | a selected tag disappears and nothing else changes membership; an unselected tag is appended at the end |
| DataHub.RemoveAllAbsent | src/components/data-hub/DataHub.tsx:200 | removing an absent tag changes nothing |
| DataHub.RemoveAllLast | src/components/data-hub/DataHub.tsx:200-201 | removing a tag that was just appended restores the list |
| DataHub.ToggleTwiceAbsent | src/components/data-hub/DataHub.tsx:197-203 | toggling an unselected tag twice gives back the identical list |
| DataHub.ToggleTwiceSameResults | src/components/data-hub/DataHub.tsx:186-203 | toggling any tag twice leaves the search results unchanged |
| DataHub.RemoveAllDistinct | src/components/data-hub/DataHub.tsx:200 | removal keeps a list duplicate-free |
| DataHub.ToggleKeepsDistinct | src/components/data-hub/DataHub.tsx:197-203 | a toggle keeps the selection duplicate-free |
| DataHub.TogglesKeepDistinct | src/components/data-hub/DataHub.tsx:197-203 | any sequence of toggles keeps a duplicate-free selection duplicate-free |
| DataHub.InitialSelectionStaysDistinct | src/components/data-hub/DataHub.tsx:197-203 | from the empty selection, no sequence of tag clicks creates a duplicate |
| DataHub.InitialResultsShowAll | src/components/data-hub/DataHub.tsx:186-195 | the page opens showing all five datasets |
| DataHub.DataHubPanel.constructor | src/components/data-hub/DataHub.tsx:158-159 | empty query, no filters |
| DataHub.DataHubPanel.SetSearchQuery | src/components/data-hub/DataHub.tsx:281 | typing replaces the query and keeps the filters; the listed results become the catalogue filtered by the new query |
| DataHub.DataHubPanel.ToggleFilter | src/components/data-hub/DataHub.tsx:197-203 | the selection becomes its toggle and stays duplicate-free; the listed results become the catalogue filtered by the toggled selection |
| DataHub.PopularTagsFindSamples | src/components/data-hub/DataHub.tsx:205 | each offered tag, clicked alone with an empty search, lists at least one sample dataset |
| DataHubExample.ProteinInTag | src/components/data-hub/DataHub.tsx:104-124 | any dataset tagged "protein" matches the search "protein" |
| DataHubExample.ProteinIsLowerCase | src/components/data-hub/DataHub.tsx:188-189 | "protein" is its own lower case |
| DataHubExample.ThirdDatasetMissesProtein | src/components/data-hub/DataHub.tsx:125-134 | the debris model's title and tags do not contain "protein" |
| DataHubExample.FourthDatasetMissesProtein | src/components/data-hub/DataHub.tsx:135-144 | the manufacturing review's title and tags do not contain "protein" |
| DataHubExample.FifthDatasetMissesProtein | src/components/data-hub/DataHub.tsx:145-154 | the Sentinel coverage's title and tags do not contain "protein" |
| DataHubExample.ThirdTitleLetters | src/components/data-hub/DataHub.tsx:127 | each word of the third title lacks some letter of "protein" |
| DataHubExample.ThirdTitleLacksProtein | src/components/data-hub/DataHub.tsx:127 | the third title does not contain "protein" |
| DataHubExample.FourthTitleLetters | src/components/data-hub/DataHub.tsx:137 | each word of the fourth title lacks some letter of "protein" |
| DataHubExample.FourthTitleLacksProtein | src/components/data-hub/DataHub.tsx:137 | the fourth title does not contain "protein" |
| DataHubExample.FifthTitleLetters | src/components/data-hub/DataHub.tsx:147 | each word of the fifth title lacks some letter of "protein" |
| DataHubExample.FifthTitleLacksProtein | src/components/data-hub/DataHub.tsx:147 | the fifth title does not contain "protein" |
| DataHubExample.ProteinSearchExample | src/components/data-hub/DataHub.tsx:186-195 | searching "protein" with no filters returns exactly datasets 1 and 2, in that order |
| Copilot.TrimStart | src/components/ai-copilot/AICopilot.tsx:80 | drops exactly the leading white space: a suffix, blank before it, starting with a non-white character |
| Copilot.TrimEnd | src/components/ai-copilot/AICopilot.tsx:80 | drops exactly the trailing white space: a prefix, blank after it, ending with a non-white character |
| Copilot.TrimEmptyIffBlank | src/components/ai-copilot/AICopilot.tsx:80 | trim() is empty exactly for blank input; otherwise it neither starts nor ends with white space |
| Copilot.ResponseIndex | src/components/ai-copilot/AICopilot.tsx:117 | a draw in [0, 1) selects position floor(4r), always one of the four |
| Copilot.GenerateAIResponse | src/components/ai-copilot/AICopilot.tsx:110-118 | the answer is always one of the four canned texts |
| Copilot.ResponseIgnoresInput | src/components/ai-copilot/AICopilot.tsx:110-118 | the answer does not depend on the user's text |
| Copilot.EveryResponseReachable | src/components/ai-copilot/AICopilot.tsx:111-117 | each canned text is the answer for the draws in its quarter of [0, 1) |
| Copilot.AppendKeepsWellFormed | src/components/ai-copilot/AICopilot.tsx:89-105 | appending a well-formed message keeps the transcript well formed |
| Copilot.UserMessageWellFormed | src/components/ai-copilot/AICopilot.tsx:80-87 | a user message sent from non-blank input is a well-formed entry |
| Copilot.AssistantReplyWellFormed | src/components/ai-copilot/AICopilot.tsx:95-104 | every reply is a well-formed entry with the two citations |
| Copilot.WithRecordingToggled | src/components/ai-copilot/AICopilot.tsx:120-125 | flips recording only |
| Copilot.WithPlaybackToggled | src/components/ai-copilot/AICopilot.tsx:127-132 | flips playback only |
| Copilot.ToggleRecordingTwice | src/components/ai-copilot/AICopilot.tsx:120-125 | toggling recording twice is the identity |
| Copilot.TogglePlaybackTwice | src/components/ai-copilot/AICopilot.tsx:127-132 | toggling playback twice is the identity |
| Copilot.Waveform | src/components/ai-copilot/AICopilot.tsx:61-72 | twenty bars, bar i being 100 times draw i, each in [0, 100) |
| Copilot.BarHeight | src/components/ai-copilot/AICopilot.tsx:213 | a bar is drawn between 4 and 40 pixels high, at 4 exactly when 0.4·height ≤ 4 |
| Copilot.PlaybackNeverStarts | src/components/ai-copilot/AICopilot.tsx:188-193 | from playback off, no sequence of enabled clicks turns playback on or changes the waveform |
| Copilot.AICopilot.constructor | src/components/ai-copilot/AICopilot.tsx:42-63 | the transcript holds the greeting only, empty input, not typing, voice idle, twenty-bar waveform |
| Copilot.AICopilot.CanSend | src/components/ai-copilot/AICopilot.tsx:325 | sending is possible exactly when the input is not blank |
| Copilot.AICopilot.SetInput | src/components/ai-copilot/AICopilot.tsx:319-320 | typing replaces the input and nothing else |
| Copilot.AICopilot.SendMessage | src/components/ai-copilot/AICopilot.tsx:79-92 | blank input changes nothing; otherwise one user message with the untrimmed input is appended, earlier messages are kept, the input is cleared, typing is shown and a reply is pending |
| Copilot.AICopilot.DeliverReply | src/components/ai-copilot/AICopilot.tsx:94-107 | one canned assistant message with the two citations is appended, earlier messages are kept, typing is cleared |
| Copilot.AICopilot.ToggleRecording | src/components/ai-copilot/AICopilot.tsx:120-125 | the voice state becomes its recording toggle, the same as one record click, nothing else changes |
| Copilot.AICopilot.TogglePlayback | src/components/ai-copilot/AICopilot.tsx:188-193 | the voice state becomes the effect of one playback click, which, with the button disabled while playback is off, is no change at all |
| Copilot.AICopilot.SuggestionClick | src/components/ai-copilot/AICopilot.tsx:134-136 | the suggestion replaces the input and nothing else changes |
| Copilot.AICopilot.RegenerateWaveform | src/components/ai-copilot/AICopilot.tsx:66-77 | while recording, the waveform is replaced by twenty fresh bars in [0, 100) and nothing else changes |
| DigitalTwin.WithParam | src/components/digital-twin/DigitalTwin.tsx:90-95 | the named parameter takes the value; the other five keep theirs |
| DigitalTwin.UpdateParam | src/components/digital-twin/DigitalTwin.tsx:90-95 | the named parameter takes the slider list's first value; the other five keep theirs |
| DigitalTwin.ParamsExtensional | src/components/digital-twin/DigitalTwin.tsx:23-30 | parameters with equal readings for all six keys are equal |
| DigitalTwin.WithParamLaws | src/components/digital-twin/DigitalTwin.tsx:90-95 | writing back a parameter's own value changes nothing; a second write overrides the first |
| DigitalTwin.Min | src/components/digital-twin/DigitalTwin.tsx:78-80 | the smaller argument (Math.min) |
| DigitalTwin.Max | src/components/digital-twin/DigitalTwin.tsx:79 | the larger argument (Math.max) |
| DigitalTwin.Round | src/components/digital-twin/DigitalTwin.tsx:81 | the integer nearest the value, halves upward (Math.round) |
| DigitalTwin.RoundBetween | src/components/digital-twin/DigitalTwin.tsx:81 | rounding stays within integer bounds of its argument |
| DigitalTwin.ComputeResults | src/components/digital-twin/DigitalTwin.tsx:77-82 | success never above 95, time never below 12, quality never above 98, for any parameters |
| DigitalTwin.ResultsWithinBands | src/components/digital-twin/DigitalTwin.tsx:279-361 | with the sliders in range: success in [80, 95], time in [12, 23.2], quality in [75, 98], cost in [205000, 650000] |
| DigitalTwin.RadiationIrrelevant | src/components/digital-twin/DigitalTwin.tsx:78-81 | the radiation slider never changes a result |
| DigitalTwin.OtherParamsMatter | src/components/digital-twin/DigitalTwin.tsx:78-81 | each of the other five sliders changes some result |
| DigitalTwin.InitialResultsAreNotComputed | src/components/digital-twin/DigitalTwin.tsx:44-81 | the formulas give 94.6, 16, 98 and 290000 for the initial sliders, not the initial display |
| DigitalTwin.Advance | src/components/digital-twin/DigitalTwin.tsx:85 | a step adds less than 15 and never decreases progress |
| DigitalTwin.ProgressCanOvershoot | src/components/digital-twin/DigitalTwin.tsx:73-85 | progress can pass 100 before the run ends |
| DigitalTwin.Simulator.constructor | src/components/digital-twin/DigitalTwin.tsx:40-58 | initial sliders and results, not simulating, progress 0 |
| DigitalTwin.Simulator.SetParam | src/components/digital-twin/DigitalTwin.tsx:90-95 | the sliders take the update; a running simulation keeps the parameters it started with |
| DigitalTwin.Simulator.RunSimulation | src/components/digital-twin/DigitalTwin.tsx:66-68 | a run starts at progress 0 and captures the current parameters |
| DigitalTwin.Simulator.Tick | src/components/digital-twin/DigitalTwin.tsx:71-87 | below 100 progress advances and nothing else changes; at or past 100 it is pinned to 100, the run ends and the results are the formulas on the captured parameters |
| DigitalTwin.RunToCompletion | src/components/digital-twin/DigitalTwin.tsx:66-95 | a finished run publishes the formulas on the parameters at its start, whatever sliders move meanwhile, with success in [80, 95], time in [12, 23.2], quality in [75, 98] and cost in [205000, 650000] |

## Left out

- Timer scheduling and cleanup (`setInterval`, `setTimeout`, `clearInterval`): each callback is a step method; when and how often the scheduler calls it is not modelled.
- `Math.random()`: every draw is an argument with its range as a precondition; which values occur is not modelled.
- `Date.now()`-based message ids, timestamps and their display, and the debris time-remaining text.
- Number formatting (`toFixed`, `toLocaleString`, `toUpperCase` of labels) and floating-point rounding: values are exact reals.
- `toLowerCase()` outside ASCII: non-ASCII letters are left unchanged by `DataHub.ToLower`.
- The DOM side effect of the theme toggle (`document.documentElement.classList.toggle`).
- UI-kit primitives, icons, CSS classes, JSX layout, tabs (`activeTab`, `activeScenario`) and buttons without handlers.
- The mission-control dashboard and the pharma studio: static data rendered through lookup tables, with no behaviour to state; `Router.Panel` names them as tags, and the admin panel, which the router renders but which is not defined in these sources, likewise.
- DigitalTwin.UpdateParam: requires a non-empty slider list; with an empty one the code would store `undefined`, which the model does not represent.
- DigitalTwin.Simulator.Tick: says nothing about how many ticks a run takes, because a draw of 0 leaves progress where it is.
- Copilot.AICopilot.DeliverReply: each pending reply is delivered once, in any order relative to other events; the text of the reply is taken from the draw alone, since the code ignores the input it is given.
