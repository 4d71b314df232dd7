# Polish legislative-acts portal, modelled in Dafny

The portal lets citizens, officers and administrators follow Polish legislative
acts through their stages. It lists and filters acts, searches them from the
header, and shows an act's current stage and versions. Citizens comment on open
consultations and subscribe to categories and projects. Officers edit acts and
moderate comments. Administrators manage officer accounts. There is a mock
sign-in and an accessibility cookie. The logic sits inside React components
and two auth contexts, in two revisions of the front end: `src/` and the earlier
`law-road/src/`. It is small, sequential rule code, not an algorithm.

This project models that logic one source file per Dafny module:

- **Data and shared helpers**
  - `MockData`: the seeded data and the `LegislativeAct` record.
  - `Options`, `Text`, `Seqs`: helper modules. `Text` holds case folding, substrings, trimming, splitting and decimal digits. `Seqs` holds stable filtering, subsequences and de-duplication.
- **Lists of acts**
  - `ActFilters`: the filter record and the "has active filters" flag.
  - `AllActsPage`, `LawRoadAllActsPage`, `CategoryPage`: the act lists.
  - `Plurals`: the noun rules.
  - `Header`: the quick search and the login dialog.
- **One act**
  - `ActCard`: the current stage, the badges and the tags.
  - `ActDetailPage`: the act lookup and the compact stage list.
  - `FeaturedActsSection`: the newest-four selection.
  - `Editor`: the stage rows, the PDF check and the submit validation.
  - `ActComments`: comment moderation and visibility.
- **Accounts and subscriptions**
  - `AdminManagementPage`: the officer registry.
  - `OfficerProjectsPage`: "my projects".
  - `CitizenProfilePage`: the citizen's subscriptions.
  - `CategoryCard`, `LawRoadCategoryCard`, `SubscriptionEmailDialog`: the subscribe flows.
  - `Auth`, `LawRoadAuth`: the two sign-in state machines.
- **Browser and server plumbing**
  - `CookieUtils`: the accessibility cookie.
  - `Api`: the REST paths and the precedence of request options.

Pure rules are functions with lemmas. Component state (`useState`) becomes class
fields. Event handlers become methods whose `ensures` give the new state through
the specification functions.

Dates are integers written YYYYMMDD. A `null` date is `None`. Status, progress,
priority and stage status stay strings, as in the source, because fetched data
may carry any string there. Responses from the server, random numbers, the clock
and browser codecs are parameters of the operations that use them.

Where the design description and the code differ, the model follows the code:

- **The current stage.** The design description says it is the first `in_progress` stage, else the last `done` stage, else nothing. The code (src/components/acts/ActCard.tsx:63) takes the first `in_progress` stage, else the *last stage whatever its status*. `ActCard.CurrentStage` and its lemmas follow the code.
- **Comment visibility.** The design description lets citizens see their own pending comments. The code lists only approved comments, and only a citizen's own among them (src/components/acts/ActComments.tsx). `ActComments.VisibleComments` follows the code.
- **Closed variants.** The design description asks for closed variants for statuses. The code compares free strings, so the model keeps strings. Roles are a closed datatype, as the contexts only ever set the three roles.

## Model

| member | source | states |
|---|---|---|
| ActFilters.Filters.With | src/pages/AllActsPage.tsx:56-58 | the updated record holds the new value at the chosen key and every other key keeps its value |
| ActFilters.Filters.Values | src/components/acts/ActFilters.tsx:41 | `Object.values` yields seven values, one per filter field |
| ActFilters.AnySetIff | src/components/acts/ActFilters.tsx:41-43 | the `some` scan is true exactly when some value is neither "" nor "all" |
| ActFilters.HasActiveFiltersIff | src/components/acts/ActFilters.tsx:41-43 | the clear-filters flag holds exactly when one of the seven fields is set |
| ActFilters.InitialInactive | src/pages/AllActsPage.tsx:41-49 | the opening (and reset) filter record shows no clear-filters button |
| ActFilters.TypAktuAloneIsActive | src/components/acts/ActFilters.tsx:41-43 | a legal-act type on its own turns the flag on |
| ActFilters.TitleAllIsInactive | src/components/acts/ActFilters.tsx:41-43 | a title query of exactly "all" does not count as active |
| AllActsPage.Keeps | src/pages/AllActsPage.tsx:72-110 | an act that passes the guards satisfies every field of the filters except the legal-act type |
| AllActsPage.FilteredActs | src/pages/AllActsPage.tsx:72-111 | the list keeps the order of the acts, and every act listed satisfies every field except the legal-act type |
| AllActsPage.KeepsIff | src/pages/AllActsPage.tsx:72-110 | an act passes the guards exactly when every field except the legal-act type is satisfied |
| AllActsPage.InitialKeepsAll | src/pages/AllActsPage.tsx:41-49 | the opening filters list every act in its original order |
| AllActsPage.FilteredOrderAndIdempotence | src/pages/AllActsPage.tsx:72-110 | the list keeps the input order and filtering it again changes nothing |
| AllActsPage.FilteredMembership | src/pages/AllActsPage.tsx:72-110 | an act is listed exactly when it is an input act meeting every field but the legal-act type |
| AllActsPage.TypAktuIgnored | src/pages/AllActsPage.tsx:72-110 | changing the legal-act type never changes the list |
| AllActsPage.TypAktuActiveButInert | src/pages/AllActsPage.tsx:72-110 | a legal-act type alone lights the clear-filters flag while every act stays listed |
| AllActsPage.TitleAllInactiveButFilters | src/pages/AllActsPage.tsx:74-78 | the title "all" is not counted as active, yet drops acts whose title lacks it |
| AllActsPage.Page.constructor | src/pages/AllActsPage.tsx:41-49 | the page opens on the sample acts with the opening filter record |
| AllActsPage.Page.HandleFilterChange | src/pages/AllActsPage.tsx:56-58 | only the chosen field takes the new value |
| AllActsPage.Page.HandleReset | src/pages/AllActsPage.tsx:60-70 | the record returns to the opening one and no filter is active |
| Plurals.ActsNoun | src/pages/AllActsPage.tsx:12-38 | the noun is always one of the Polish, Ukrainian, English or German forms the function spells |
| Plurals.PolishForms | src/pages/AllActsPage.tsx:15-20 | for Polish exactly one form is chosen: "akt" for endings 1 but not 11, "akty" for endings 2-4 but not 12-14, "aktów" otherwise |
| Plurals.PolishExamples | src/pages/AllActsPage.tsx:15-20 | 1 and 21 give "akt", 3 gives "akty", 0, 11 and 13 give "aktów" |
| Plurals.ActsNounIgnoresSign | src/pages/AllActsPage.tsx:13 | a count and its negation get the same noun |
| Plurals.UkrainianMirrorsPolish | src/pages/AllActsPage.tsx:22-27 | the Ukrainian choice is the Polish choice translated word for word |
| Plurals.OtherLanguages | src/pages/AllActsPage.tsx:29-37 | German always gets "Gesetzesvorhaben"; English and unknown languages get "act" exactly for plus or minus one |
| Plurals.ShortActsNoun | law-road/src/pages/AllActsPage.tsx:70 | the inline rule (the same one the law-road category tile writes at law-road/src/components/home/CategoryCard.tsx:57) says "akt" exactly for 1, "akty" below 5 otherwise, "aktów" from 5 |
| Plurals.RulesAgreeUpToThirty | law-road/src/pages/AllActsPage.tsx:70 | up to 30 the inline rule agrees with the full Polish rule exactly for 1-20 and 25-30 |
| Plurals.RulesAgreeFromFive | law-road/src/pages/AllActsPage.tsx:70 | from 5 on the two rules agree exactly when the full rule also says "aktów" |
| LawRoadAllActsPage.FilteredActs | law-road/src/pages/AllActsPage.tsx:37-47 | the list is a subsequence of the acts |
| LawRoadAllActsPage.SameAsCurrentRevision | law-road/src/pages/AllActsPage.tsx:37-47 | this revision lists exactly the acts the current all-acts page lists, for every filter record |
| LawRoadAllActsPage.InitialKeepsAll | law-road/src/pages/AllActsPage.tsx:11-19 | the opening filters list every act in order |
| LawRoadAllActsPage.TypAktuIgnored | law-road/src/pages/AllActsPage.tsx:37-47 | the legal-act type never changes the list |
| LawRoadAllActsPage.HeaderNoun | law-road/src/pages/AllActsPage.tsx:69-70 | the header says "akt" for one listed act, "akty" for 0 and 2-4, "aktów" from 5 |
| LawRoadAllActsPage.Page.constructor | law-road/src/pages/AllActsPage.tsx:11-19 | the page opens on the sample acts with the opening filter record |
| LawRoadAllActsPage.Page.HandleFilterChange | law-road/src/pages/AllActsPage.tsx:21-23 | only the chosen field takes the new value |
| LawRoadAllActsPage.Page.HandleReset | law-road/src/pages/AllActsPage.tsx:25-35 | the record returns to the opening one and every act is listed again |
| CategoryPage.Lookup | src/pages/CategoryPage.tsx:13 | no result exactly when no category has the id; a result is a catalogue category with that id |
| CategoryPage.ResetFilters | src/pages/CategoryPage.tsx:16-24 | the category field is the route id, or "all" when the route gives none; every other field is the all-acts opening value |
| CategoryPage.FilteredActs | src/pages/CategoryPage.tsx:42-52 | the list is a subsequence of the acts |
| CategoryPage.KeepsIsAllActsWithRoute | src/pages/CategoryPage.tsx:42-52 | an act is kept exactly when it is in the route's category and the all-acts page keeps it with the dropdown on "all" |
| CategoryPage.ListedActsAreInRoute | src/pages/CategoryPage.tsx:44 | an act is listed exactly when it is an input act the guards keep, and then it belongs to the route's category |
| CategoryPage.DropdownIgnored | src/pages/CategoryPage.tsx:42-52 | the category dropdown of the panel never changes the list |
| CategoryPage.NoRouteIsAllActs | src/pages/CategoryPage.tsx:42-52 | without a route id the list is the all-acts list with the dropdown on "all" |
| CategoryPage.CategoryIdsAreSet | src/data/mockData.ts:2-15 | no category id is "" or "all" |
| CategoryPage.ResetStaysActive | src/pages/CategoryPage.tsx:30-40 | on a known category's page the reset record still counts as active filters |
| CategoryPage.HeaderNoun | src/pages/CategoryPage.tsx:100-101 | the header says "akt" for one listed act, "akty" for 0 and 2-4, "aktów" from 5 |
| CategoryPage.Page.constructor | src/pages/CategoryPage.tsx:11-24 | the page opens on the route's category with the reset record and no subscription |
| CategoryPage.Page.HandleFilterChange | src/pages/CategoryPage.tsx:26-28 | only the chosen field takes the new value |
| CategoryPage.Page.HandleReset | src/pages/CategoryPage.tsx:30-40 | the record returns to the route's own reset record, not to "all" |
| CategoryPage.Page.HandleSubscribe | src/pages/CategoryPage.tsx:54-63 | the flag flips; the toast announces a subscription when it was off and a cancellation when it was on |
| Auth.Accepts | src/contexts/AuthContext.tsx:29-42 | a login without a role is refused, and an accepted email belongs to no other role's demo account |
| Auth.NoRoleNoLogin | src/contexts/AuthContext.tsx:31-42 | without a role no demo account is selected, so no credentials are accepted |
| Auth.RolesDoNotShareCredentials | src/contexts/AuthContext.tsx:33-42 | credentials accepted for two roles mean the two roles are the same |
| Auth.DemoAccountsWork | src/contexts/AuthContext.tsx:42 | each role's own demo email and password are accepted for it |
| Auth.AuthContext.constructor | src/contexts/AuthContext.tsx:24-27 | the provider starts from the user saved in storage, and storage and state agree |
| Auth.AuthContext.Login | src/contexts/AuthContext.tsx:29-72 | success exactly for the role's demo credentials; then the new user (the account's name, no subscriptions) is held and stored; a refusal changes nothing |
| Auth.AuthContext.Logout | src/contexts/AuthContext.tsx:74-78 | the user and both storage entries are cleared |
| Auth.AuthContext.UpdateSubscriptions | src/contexts/AuthContext.tsx:80-97 | a signed-in user gets the new list and keeps every other field, mirrored to storage; without a user nothing changes |
| LawRoadAuth.DisplayName | law-road/src/contexts/AuthContext.tsx:31 | the name is the longest prefix of the email without "@": all of it when there is no "@" |
| LawRoadAuth.AuthContext.constructor | law-road/src/contexts/AuthContext.tsx:20-23 | the provider starts from the saved user |
| LawRoadAuth.AuthContext.Login | law-road/src/contexts/AuthContext.tsx:25-39 | success exactly when email and password are non-empty; then an editor with id "1" named by the email's local part is held and stored; a refusal changes nothing |
| LawRoadAuth.AuthContext.Logout | law-road/src/contexts/AuthContext.tsx:41-44 | the user and its storage entry are cleared |
| Header.Matches | src/components/layout/Header.tsx:35-37 | the empty query matches every act, and a matching query is no longer than the title or the summary |
| Header.SearchResults | src/components/layout/Header.tsx:34-38 | the results keep the order of the acts and are drawn only from them |
| Header.SearchMembership | src/components/layout/Header.tsx:34-38 | an act is offered exactly when its lower-cased title or summary contains the lower-cased query |
| Header.SearchIgnoresQueryCase | src/components/layout/Header.tsx:36-37 | the search gives the same acts for a query and its lower-case form |
| Header.ActPath | src/components/layout/Header.tsx:102 | the result's path is `/akt/` followed by exactly the act's id |
| Header.Header.constructor | src/components/layout/Header.tsx:23-29 | empty query and results, list closed, login dialog closed with empty fields |
| Header.Header.HandleSearch | src/components/layout/Header.tsx:31-45 | a query of two or more characters lists the matching acts and opens the list; a shorter one empties and closes it; nothing else changes |
| Header.Header.HandleFocus | src/components/layout/Header.tsx:90 | focusing reopens the list exactly when the query is long enough, otherwise leaves it as it was |
| Header.Header.HandleBlur | src/components/layout/Header.tsx:91 | leaving the field closes the list and keeps the query and results |
| Header.Header.SelectResult | src/components/layout/Header.tsx:97-105 | choosing a listed act navigates to its path, closes the list and clears the query |
| Header.Header.FinishLogin | src/components/layout/Header.tsx:49-53 | a successful login closes the dialog and clears both fields; a refusal changes nothing |
| Header.Header.HandleLogin | src/components/layout/Header.tsx:47-54 | the header logs in without a role, which is always refused: no user is signed in and the dialog keeps its fields |
| ActCard.SafeStages | src/components/acts/ActCard.tsx:62 | a missing stage list reads as empty, a present one as itself |
| ActCard.CurrentStage | src/components/acts/ActCard.tsx:62-63 | missing exactly when there are no stages; otherwise one of the stages, and when it is not in progress it is the last stage and no stage is in progress |
| ActCard.FindInProgress | src/components/acts/ActCard.tsx:63 | the index of the first stage in progress, missing exactly when no stage is in progress |
| ActCard.CurrentIsFirstInProgress | src/components/acts/ActCard.tsx:63 | when a stage is in progress the card shows the first such stage |
| ActCard.CurrentFallsBackToLast | src/components/acts/ActCard.tsx:63 | with no stage in progress the card shows the last stage, and nothing only for an empty list |
| ActCard.CurrentStageIsAStage | src/components/acts/ActCard.tsx:62-63 | the current stage is one of the stages, and is missing exactly for an empty list |
| ActCard.CurrentOfShapedStages | src/components/acts/ActCard.tsx:63 | on a list of done, then at most one in progress, then pending stages: the stage in progress, else the last stage |
| ActCard.StatusBadge | src/components/acts/ActCard.tsx:27-38 | a badge is drawn exactly when the status is one of the five declared statuses or a key every object inherits ("toString", "constructor", ...); it carries a label exactly for the five, and is blank for an inherited key |
| ActCard.InheritedStatusDrawsBlank | src/components/acts/ActCard.tsx:36-37 | the statuses "toString" and "constructor" are not declared, yet the card draws a blank badge for them |
| ActCard.ProgressBadge | src/components/acts/ActCard.tsx:14-25 | a progress badge is drawn exactly for the three progress values |
| ActCard.BadgesMatchFilterOptions | src/components/acts/ActCard.tsx:14-38 | every status and progress option of the filter panel gets a badge reading exactly that option's caption |
| ActCard.DisplayTag | src/components/acts/ActCard.tsx:107 | the shown tag has the same length, with every underscore replaced by a space and every other character kept |
| ActCard.DisplayTagFacts | src/components/acts/ActCard.tsx:107 | a shown tag has no underscore, and a tag without one is shown unchanged |
| ActCard.ShownTags | src/components/acts/ActCard.tsx:104-109 | the card shows the first three tags (fewer when there are fewer), each displayed; none when tags are missing |
| ActCard.MoreTags | src/components/acts/ActCard.tsx:110-112 | the "+k" marker appears exactly for more than three tags, and shown plus k is all of them |
| ActCard.Card.constructor | src/components/acts/ActCard.tsx:41-42 | a card starts unsubscribed with its dialog closed |
| ActCard.Card.HandleSubscribe | src/components/acts/ActCard.tsx:44-53 | unsubscribed: the email dialog opens and the card stays unsubscribed; subscribed: it unsubscribes with a notice |
| ActCard.Card.HandleEmailSubscribe | src/components/acts/ActCard.tsx:55-60 | an accepted email subscribes the card |
| ActCard.Card.SetDialogOpen | src/components/acts/ActCard.tsx:135-139 | the dialog follows its open flag and the subscription is untouched |
| ActDetailPage.SampleById | src/pages/ActDetailPage.tsx:53 | the sample act with the id, missing exactly when no sample act has that id |
| ActDetailPage.Settle | src/pages/ActDetailPage.tsx:44-61 | an ok response gives its body; a non-ok or rejected request gives the sample act of that id |
| ActDetailPage.FallbackFindsSample | src/pages/ActDetailPage.tsx:51-61 | after a failed request an act is shown exactly when a sample act has that id, and it is that act |
| ActDetailPage.CompactStages | src/pages/ActDetailPage.tsx:327 | the sidebar shows the first six stages in order (all when fewer) |
| ActDetailPage.MoreStages | src/pages/ActDetailPage.tsx:328-332 | the "more stages" note appears exactly for more than six stages and counts the rest |
| ActDetailPage.Tabs | src/pages/ActDetailPage.tsx:211-236 | summary, timeline and versions come first, the comments tab is there exactly when the act has a consultation, and there is no other tab |
| ActDetailPage.Page.constructor | src/pages/ActDetailPage.tsx:28-31 | the page starts loading, without an act, unsubscribed |
| ActDetailPage.Page.Fetch | src/pages/ActDetailPage.tsx:34-63 | without an id nothing changes; otherwise the settled act is stored and loading ends |
| ActDetailPage.Page.HandleSubscribe | src/pages/ActDetailPage.tsx:90-99 | the subscription flag flips and the act and loading state stay |
| ActDetailPage.NoIdKeepsLoading | src/pages/ActDetailPage.tsx:37-40 | a page opened without an id renders the loading view whatever the response |
| ActDetailPage.SubscribeTwice | src/pages/ActDetailPage.tsx:90-91 | two subscribe clicks restore the flag |
| FeaturedActsSection.SortNewestFirst | src/components/home/FeaturedActs.tsx:46-50 | the array is sorted in place newest first and is a permutation of what it held |
| FeaturedActsSection.InsertNewest | src/components/home/FeaturedActs.tsx:48-50 | one insertion step extends the newest-first prefix by one element and permutes the array |
| FeaturedActsSection.SwapKeepsOrder | src/components/home/FeaturedActs.tsx:48-50 | one exchange moves the single out-of-order place one position down |
| FeaturedActsSection.InsertDone | src/components/home/FeaturedActs.tsx:48-50 | when the insertion stops, the prefix is newest first |
| FeaturedActsSection.PrefixIsNewest | src/components/home/FeaturedActs.tsx:51 | no act after the first k of a newest-first list is newer than one of the first k |
| FeaturedActsSection.FirstFourAreNewest | src/components/home/FeaturedActs.tsx:46-51 | the first k of the sorted list are k acts of the data, newest first, none older than an act left out |
| FeaturedActsSection.FormatDate | src/components/home/FeaturedActs.tsx:26-34 | "-" for a missing or empty date; the rendering of the date when it succeeds; the date itself when rendering fails |
| FeaturedActsSection.Section.constructor | src/components/home/FeaturedActs.tsx:37-38 | the section opens on the first four sample acts, loading |
| FeaturedActsSection.Section.Fetch | src/components/home/FeaturedActs.tsx:40-62 | an ok array body gives its four newest acts newest first; anything else gives the first four sample acts; loading ends |
| MockData.FeaturedActsSpec | src/data/mockData.ts:370 | the featured list has at most four acts, all of high priority, taken in sample order |
| MockData.PlacedAtIncreasing | src/data/mockData.ts:18-57 | stages placed step by step along the stage catalogue are placed in strictly rising catalogue positions |
| MockData.InProgressAtMostOnce | src/data/mockData.ts:127 | a done, in-progress, pending list of stages has at most one stage in progress |
| MockData.SampleActsInvariant | src/data/mockData.ts:146-367 | every sample act takes its stages from the catalogue in catalogue order, shaped done then at most one in progress then pending, dated exactly when not pending; consultation dates exactly when there is a consultation, start not after end; versions numbered 1, 2, ... |
| MockData.Act001Invariant | src/data/mockData.ts:147-187 | PL_2025_001 satisfies the seed invariant |
| MockData.Act002Invariant | src/data/mockData.ts:188-216 | PL_2025_002 satisfies the seed invariant |
| MockData.Act003Invariant | src/data/mockData.ts:217-253 | PL_2025_003 satisfies the seed invariant |
| MockData.Act004Invariant | src/data/mockData.ts:254-280 | PL_2025_004 satisfies the seed invariant |
| MockData.Act005Invariant | src/data/mockData.ts:281-304 | PL_2025_005 satisfies the seed invariant |
| MockData.Act006Invariant | src/data/mockData.ts:305-338 | PL_2025_006 satisfies the seed invariant |
| MockData.Act007Invariant | src/data/mockData.ts:339-366 | PL_2025_007 satisfies the seed invariant |
| MockData.CurrentStagePastStageCount | src/data/mockData.ts:160-318 | the seeded `currentStage` of four acts runs past their number of stages (16 of 14, 8 of 6, 38 of 9, 20 of 6) |
| MockData.CatalogueDistinct | src/data/mockData.ts:18-57 | the stage catalogue has 38 entries and none appears twice |
| Editor.MaxBytesValue | src/pages/EditorPage.tsx:106 | the size limit is 10 MiB, 10485760 bytes |
| Editor.PdfExtensionIgnoresCase | src/pages/EditorPage.tsx:90-95 | a file whose name ends in ".PDF" counts as a PDF whatever its MIME type |
| Editor.PdfVerdict | src/pages/EditorPage.tsx:98-121 | the four outcomes each hold exactly when: accepted for a PDF within the limit, too large above the limit, not a PDF within the limit, nothing picked |
| Editor.SizeCheckedFirst | src/pages/EditorPage.tsx:106-119 | a file too large and not a PDF is refused as too large |
| Editor.StageIdInjective | src/pages/EditorPage.tsx:139 | two different numbers give two different stage ids |
| Editor.AddStage | src/pages/EditorPage.tsx:138-144 | the rows stay and one empty pending row numbered after the length is appended |
| Editor.RemoveStage | src/pages/EditorPage.tsx:146-150 | with one row nothing changes; otherwise exactly the rows with that id go, the rest in order |
| Editor.UpdateStage | src/pages/EditorPage.tsx:152-154 | rows keep their ids, statuses and order; rows with that id get the new name or date and the other rows are unchanged |
| Editor.InitialStageIsFirstInCatalogue | src/pages/EditorPage.tsx:70-77 | the editor opens with one row "s1" named after the first stage of the catalogue |
| Editor.FormId | src/pages/EditorPage.tsx:55 | a drawn id is "PL_2025_" and three digits |
| Editor.Submit | src/pages/EditorPage.tsx:156-171 | refused exactly when title, category or sponsor is empty, else refused exactly when no PDF is attached, else saved under the form's id |
| Editor.Payload | src/pages/EditorPage.tsx:172-185 | the eight fields in order, each consultation date exactly when filled in, the PDF last, and no other entry |
| Editor.EditorPage.constructor | src/pages/EditorPage.tsx:54-77 | the form opens with a drawn id, one stage row and no file |
| Editor.EditorPage.OnPdfChange | src/pages/EditorPage.tsx:98-121 | the outcome is the verdict; an accepted file is stored; a refused one leaves no file on the form and clears the input; the stages stay |
| Editor.EditorPage.ClearPdf | src/pages/EditorPage.tsx:307-313 | the "Usuń plik" button empties the file input and removes the PDF from the form; everything else stays |
| Editor.EditorPage.AddStageRow | src/pages/EditorPage.tsx:138-144 | the rows become the as-written add, the form stays |
| Editor.EditorPage.RemoveStageRow | src/pages/EditorPage.tsx:146-150 | the rows become the as-written remove, the form stays |
| Editor.EditorPage.UpdateStageRow | src/pages/EditorPage.tsx:152-154 | the rows become the update, the form stays |
| Editor.EditorPage.HandleSubmit | src/pages/EditorPage.tsx:156-191 | the outcome is the submit verdict of the current form |
| Editor.IdCollisionEmptiesList | src/pages/EditorPage.tsx:138-150 | remove "s1" from two rows, add a row: both rows are "s2", and removing "s2" empties the list |
| Editor.AddStageCounted | src/pages/EditorPage.tsx:138-144 | corrected add: the new row takes the counter's id and the counter advances |
| Editor.AddStageCountedOk | src/pages/EditorPage.tsx:138-144 | corrected add keeps the ids unique and issued by the counter |
| Editor.RemoveUniqueDropsAtMostOne | src/pages/EditorPage.tsx:146-150 | with unique ids, removing by id drops at most one row and keeps the ids unique |
| Editor.RemoveStageOk | src/pages/EditorPage.tsx:146-150 | with unique issued ids the guarded removal keeps them so and never empties the list |
| Editor.UpdateStageOk | src/pages/EditorPage.tsx:152-154 | updating a name or date keeps the ids unique and issued |
| Editor.InitialStageListOk | src/pages/EditorPage.tsx:70-77 | the opening row with the counter at 2 satisfies the corrected invariant |
| Editor.CountedStages.constructor | src/pages/EditorPage.tsx:70-77 | the corrected rows open valid with the single opening row |
| Editor.CountedStages.Add | src/pages/EditorPage.tsx:138-144 | corrected add on the page state: the invariant holds, the row takes the counter's id |
| Editor.CountedStages.Remove | src/pages/EditorPage.tsx:146-150 | corrected remove on the page state: the invariant holds and at least one row is left |
| Editor.CountedStages.Update | src/pages/EditorPage.tsx:152-154 | the update on the corrected state keeps the invariant |
| ActComments.AddVerdict | src/components/acts/ActComments.tsx:64-78 | the checks in their order: refused exactly when the viewer is no citizen, else when the trimmed draft is empty, else when the consultation is over; accepted otherwise |
| ActComments.NewComment | src/components/acts/ActComments.tsx:84-92 | the new comment is unapproved, by a citizen, with the author's name and email and the draft as content |
| ActComments.Approve | src/components/acts/ActComments.tsx:106-113 | the comments with that id become approved and every other comment is unchanged, in place |
| ActComments.ApproveIdempotent | src/components/acts/ActComments.tsx:106-113 | approving twice is approving once |
| ActComments.Delete | src/components/acts/ActComments.tsx:115-118 | exactly the comments with that id go, the rest keep their order |
| ActComments.ApprovedComments | src/components/acts/ActComments.tsx:120 | exactly the approved comments, in their order |
| ActComments.PendingComments | src/components/acts/ActComments.tsx:121 | exactly the comments not yet approved, in their order |
| ActComments.VisibleComments | src/components/acts/ActComments.tsx:243-251 | the listed comments keep their order and are all approved comments of the act |
| ActComments.ApprovedPendingPartition | src/components/acts/ActComments.tsx:120-121 | every comment is either approved or pending, and the two lists together are all the comments |
| ActComments.ApprovedLeavesPending | src/components/acts/ActComments.tsx:106-121 | after approving an id no comment with that id is pending |
| ActComments.VisibleMembership | src/components/acts/ActComments.tsx:243-251 | a comment is listed exactly when it is approved and, for a citizen viewer, written with the viewer's email |
| ActComments.OthersSeeAllApproved | src/components/acts/ActComments.tsx:249-250 | officers, admins and anonymous visitors see every approved comment, in order |
| ActComments.NoPendingNoList | src/components/acts/ActComments.tsx:183-184 | with every comment approved nobody gets the moderation list |
| ActComments.CommentsPanel.constructor | src/components/acts/ActComments.tsx:35-57 | the panel opens on the two seeded comments with an empty draft, not loading |
| ActComments.CommentsPanel.SetDraft | src/components/acts/ActComments.tsx:56 | the draft follows the text area and nothing else changes |
| ActComments.CommentsPanel.AddComment | src/components/acts/ActComments.tsx:64-104 | the outcome is the verdict for the draft at that time; a refusal changes nothing; an accepted draft is appended as a new unapproved comment and the draft is cleared |
| ActComments.CommentsPanel.ApproveComment | src/components/acts/ActComments.tsx:106-113 | the comments become the approved list, draft and loading stay |
| ActComments.CommentsPanel.DeleteComment | src/components/acts/ActComments.tsx:115-118 | the comments become the list without that id, draft and loading stay |
| AdminManagementPage.AlphabetSize | src/pages/AdminManagementPage.tsx:57-58 | the password alphabet has 67 characters |
| AdminManagementPage.Pick | src/pages/AdminManagementPage.tsx:62 | a draw in [0, 1) always picks a position of the alphabet |
| AdminManagementPage.GeneratePassword | src/pages/AdminManagementPage.tsx:56-65 | the password has the requested length, each character the alphabet character its draw picks |
| AdminManagementPage.ValidEmail | src/pages/AdminManagementPage.tsx:125-126 | an accepted address has at least five characters, no whitespace and a single "@" |
| AdminManagementPage.ValidEmailIff | src/pages/AdminManagementPage.tsx:125-126 | the scan accepts exactly the addresses `^[^\s@]+@[^\s@]+\.[^\s@]+$` matches |
| AdminManagementPage.ScanMatchesPattern | src/pages/AdminManagementPage.tsx:125 | an address the scan accepts matches the pattern |
| AdminManagementPage.PatternPassesScan | src/pages/AdminManagementPage.tsx:125 | an address made of the pattern's three pieces passes the scan |
| AdminManagementPage.LocalPartBeforeAt | src/pages/AdminManagementPage.tsx:125 | the text before the first "@" is the pattern's first piece |
| AdminManagementPage.EmailAccepted | src/pages/AdminManagementPage.tsx:125-129 | a plain address passes the check |
| AdminManagementPage.EmailsRejected | src/pages/AdminManagementPage.tsx:125-129 | no dot after "@", an empty local part or a space is refused |
| AdminManagementPage.SaveVerdict | src/pages/AdminManagementPage.tsx:119-153 | the checks in their order, each outcome exactly when: a field empty, else a malformed email, else an edit, else an email in use, else an addition |
| AdminManagementPage.Edited | src/pages/AdminManagementPage.tsx:131-145 | accounts with that id take the dialog's email, name, password and role, keeping id, status and creation; others unchanged |
| AdminManagementPage.CreatedBy | src/pages/AdminManagementPage.tsx:163 | the signed-in user's email when non-empty, else "System" |
| AdminManagementPage.NewOfficer | src/pages/AdminManagementPage.tsx:155-164 | a new account is active with the dialog's email and the creator's address |
| AdminManagementPage.AddKeepsEmailsUnique | src/pages/AdminManagementPage.tsx:149-166 | an addition that passed the in-use check keeps emails unique |
| AdminManagementPage.EditCanDuplicateEmail | src/pages/AdminManagementPage.tsx:131-145 | an edit is not checked against other accounts: giving one account another's email is saved and breaks uniqueness |
| AdminManagementPage.Deleted | src/pages/AdminManagementPage.tsx:174-178 | exactly the accounts with that id go, the rest in order |
| AdminManagementPage.Toggled | src/pages/AdminManagementPage.tsx:464-475 | the accounts with the clicked row's id take the opposite of its status; nothing else changes |
| AdminManagementPage.ToggleTwice | src/pages/AdminManagementPage.tsx:464-475 | for an account with its own id, two clicks flip its status and then restore the list |
| AdminManagementPage.ActiveCount | src/pages/AdminManagementPage.tsx:373 | the "Aktywni" tile is at most the total, zero exactly when no account is active, and the total exactly when all are |
| AdminManagementPage.InactiveCount | src/pages/AdminManagementPage.tsx:383 | the "Nieaktywni" tile is at most the total, zero exactly when no account is inactive, and the total exactly when all are |
| AdminManagementPage.CountsAddUp | src/pages/AdminManagementPage.tsx:361-383 | the active and inactive tiles add up to the total tile |
| AdminManagementPage.FilteredOfficers | src/pages/AdminManagementPage.tsx:191-195 | the listed accounts keep their order and come from the registry |
| AdminManagementPage.FilteredMembership | src/pages/AdminManagementPage.tsx:191-195 | an account is listed exactly when its lower-cased email or name contains the lower-cased term |
| AdminManagementPage.EmptySearchKeepsAll | src/pages/AdminManagementPage.tsx:191-195 | an empty search lists every account in order |
| AdminManagementPage.Registry.constructor | src/pages/AdminManagementPage.tsx:69-95 | the registry opens with the demo account, no search, dialogs closed and a blank form |
| AdminManagementPage.Registry.RegeneratePassword | src/pages/AdminManagementPage.tsx:109-111 | only the dialog's password changes |
| AdminManagementPage.Registry.Save | src/pages/AdminManagementPage.tsx:119-172 | the outcome is the verdict; a refusal changes nothing; an edit rewrites the account, an addition appends the new one, and both close the dialog on a blank form |
| AdminManagementPage.Registry.DeleteOfficer | src/pages/AdminManagementPage.tsx:174-178 | the accounts become the list without that id and the confirmation closes |
| AdminManagementPage.Registry.AskDelete | src/pages/AdminManagementPage.tsx:517 | the confirmation opens for that account and nothing else changes |
| AdminManagementPage.Registry.SetDeleteDialogOpen | src/pages/AdminManagementPage.tsx:535-537 | closing the confirmation forgets the account |
| AdminManagementPage.Registry.ConfirmDelete | src/pages/AdminManagementPage.tsx:549-551 | the account asked about is deleted; with none nothing changes |
| AdminManagementPage.Registry.SetDialogOpen | src/pages/AdminManagementPage.tsx:226-231 | the dialog follows the flag, and closing it resets the form and ends any edit |
| AdminManagementPage.Registry.EditOfficer | src/pages/AdminManagementPage.tsx:180-189 | the dialog opens on the account's fields, editing its id |
| AdminManagementPage.Registry.ToggleStatus | src/pages/AdminManagementPage.tsx:464-475 | the accounts become the toggled list, the dialog stays |
| AdminManagementPage.Registry.SetSearchTerm | src/pages/AdminManagementPage.tsx:397 | the search term follows the box and the accounts stay |
| OfficerProjectsPage.MyProjects | src/pages/OfficerProjectsPage.tsx:16-18 | the officer's projects are exactly the acts sponsored by one of the two ministries, in order |
| OfficerProjectsPage.Deleted | src/pages/OfficerProjectsPage.tsx:82-85 | exactly the projects with that id go, the rest in order |
| OfficerProjectsPage.InProgressCount | src/pages/OfficerProjectsPage.tsx:120 | the "Procedowane" tile is at most the total, zero exactly when no project is under way, and the total exactly when all are |
| OfficerProjectsPage.PassedCount | src/pages/OfficerProjectsPage.tsx:130 | the "Uchwalone" tile is at most the total, zero exactly when no project is passed, and the total exactly when all are |
| OfficerProjectsPage.ConsultationCount | src/pages/OfficerProjectsPage.tsx:140 | the "W konsultacjach" tile is at most the total, zero exactly when no project has a consultation, and the total exactly when all have |
| OfficerProjectsPage.TilesWithinTotal | src/pages/OfficerProjectsPage.tsx:111-140 | the in-progress and passed tiles together, and the consultation tile, never exceed the total |
| OfficerProjectsPage.ConsultationCountExact | src/pages/OfficerProjectsPage.tsx:140 | the consultation tile counts exactly the projects with a consultation |
| OfficerProjectsPage.StatusColor | src/pages/OfficerProjectsPage.tsx:38-53 | the grey badge is used exactly for statuses other than the four coloured ones |
| OfficerProjectsPage.ProgressColor | src/pages/OfficerProjectsPage.tsx:55-66 | the grey badge is used exactly for progress values other than the three coloured ones |
| OfficerProjectsPage.SeededProgressPastFull | src/pages/OfficerProjectsPage.tsx:204 | two seeded projects have a current stage past their stage count, so their bars are wider than full |
| OfficerProjectsPage.ProjectsPage.constructor | src/pages/OfficerProjectsPage.tsx:20 | the page opens on the officer's projects |
| OfficerProjectsPage.ProjectsPage.Delete | src/pages/OfficerProjectsPage.tsx:82-85 | the projects become the list without that id |
| CitizenProfilePage.Toggle | src/pages/CitizenProfilePage.tsx:33-45 | the id is selected afterwards exactly when it was not before; every other id keeps its state; an absent id is appended |
| CitizenProfilePage.ToggleTwice | src/pages/CitizenProfilePage.tsx:33-45 | toggling an id twice restores which ids are selected |
| CitizenProfilePage.SavedSubscriptions | src/pages/CitizenProfilePage.tsx:47-50 | the saved list has no id twice and holds exactly the selected categories and projects |
| CitizenProfilePage.SavedSubscriptionsSpec | src/pages/CitizenProfilePage.tsx:47-50 | the saved list holds each selected category and project exactly once, categories before the other projects |
| CitizenProfilePage.ConsultationActs | src/pages/CitizenProfilePage.tsx:52-54 | exactly the acts under way with a consultation, in order |
| CitizenProfilePage.Tracked | src/pages/CitizenProfilePage.tsx:179 | exactly the consultation acts whose id is followed, in their order |
| CitizenProfilePage.Available | src/pages/CitizenProfilePage.tsx:205-212 | exactly the consultation acts whose id is not followed, in their order |
| CitizenProfilePage.TrackedAvailablePartition | src/pages/CitizenProfilePage.tsx:178-212 | followed and available split the consultation acts, by whether the act's id is selected |
| CitizenProfilePage.ProfilePage.constructor | src/pages/CitizenProfilePage.tsx:13-14 | both selections start from the user's subscriptions, or empty |
| CitizenProfilePage.ProfilePage.ToggleCategory | src/pages/CitizenProfilePage.tsx:33-38 | the categories become the toggled list and the projects stay |
| CitizenProfilePage.ProfilePage.ToggleProject | src/pages/CitizenProfilePage.tsx:40-45 | the projects become the toggled list and the categories stay |
| CitizenProfilePage.ProfilePage.Save | src/pages/CitizenProfilePage.tsx:47-50 | a signed-in user's subscriptions become the saved list; without a user nothing is saved |
| CategoryCard.IconFor | src/components/home/CategoryCard.tsx:8-23 | a known icon name is drawn as itself; a key every object inherits ("toString", "constructor", ...) is returned as found instead of the fallback; any other name falls back to FileText |
| CategoryCard.InheritedKeyEscapesFallback | src/components/home/CategoryCard.tsx:8-23 | "toString" is no icon of the map, yet the lookup does not fall back to FileText for it |
| CategoryCard.CatalogueIconsKnown | src/components/home/CategoryCard.tsx:23 | every category of the catalogue is drawn with its own Lucide icon |
| CategoryCard.TileNounDiffersFromPage | src/components/home/CategoryCard.tsx:65 | the tile's noun rule disagrees with the list page's Polish plural for 0 and for 21 to 24 |
| CategoryCard.Card.constructor | src/components/home/CategoryCard.tsx:20-21 | a tile starts unsubscribed with its dialog closed |
| CategoryCard.Card.HandleSubscribe | src/components/home/CategoryCard.tsx:25-34 | unsubscribed: the email dialog opens and the tile stays unsubscribed; subscribed: it unsubscribes with a notice |
| CategoryCard.Card.HandleEmailSubscribe | src/components/home/CategoryCard.tsx:36-41 | an accepted email subscribes the tile |
| CategoryCard.Card.SetDialogOpen | src/components/home/CategoryCard.tsx:68-74 | the dialog follows its open flag and the subscription is untouched |
| CategoryCard.SubscribeThroughDialog | src/components/home/CategoryCard.tsx:25-41 | a click then an email subscribes an unsubscribed tile, the dialog still open |
| LawRoadCategoryCard.Card.constructor | law-road/src/components/home/CategoryCard.tsx:19 | a tile starts unsubscribed |
| LawRoadCategoryCard.Card.HandleSubscribe | law-road/src/components/home/CategoryCard.tsx:23-34 | the flag flips, and the notice says subscribed exactly when the tile was not |
| LawRoadCategoryCard.ClickTwice | law-road/src/components/home/CategoryCard.tsx:23-34 | two clicks restore the flag and give the two different notices |
| SubscriptionEmailDialog.AtIsTheWholeCheck | src/components/SubscriptionEmailDialog.tsx:30 | an email is accepted exactly when it contains "@"; "@" alone passes |
| SubscriptionEmailDialog.Dialog.constructor | src/components/SubscriptionEmailDialog.tsx:23-24 | the dialog starts with an empty email, not loading |
| SubscriptionEmailDialog.Dialog.SetEmail | src/components/SubscriptionEmailDialog.tsx:23 | the email follows the field and nothing else changes |
| SubscriptionEmailDialog.Dialog.HandleSubmit | src/components/SubscriptionEmailDialog.tsx:26-50 | a rejected email calls nothing and changes nothing; an accepted one calls the subscriber with it, and only a normal return clears the email and closes; loading ends |
| SubscriptionEmailDialog.Dialog.HandleOpenChange | src/components/SubscriptionEmailDialog.tsx:52-55 | the email is cleared and the new open state passed on |
| CookieUtils.SetCookieString | src/lib/cookieUtils.ts:12-20 | nothing is written exactly when encoding throws; otherwise the text starts with "accessibility=" and ends with the path, one-year Max-Age and SameSite attributes |
| CookieUtils.PrefixFacts | src/lib/cookieUtils.ts:6 | the cookie's name is "accessibility" with no "=" in it, and its pair prefix is 14 characters with no ";" |
| CookieUtils.AttributesStartWithSemicolon | src/lib/cookieUtils.ts:12-52 | the attributes after the pair start a new ";"-separated part, when set and when cleared |
| CookieUtils.MaxAgeIsOneYear | src/lib/cookieUtils.ts:7-16 | the Max-Age written spells 31536000 seconds, one year |
| CookieUtils.PairBeforeAttributes | src/lib/cookieUtils.ts:16 | a pair without ";" followed by the attributes is the first part of the cookie text |
| CookieUtils.EmptyPairSplit | src/lib/cookieUtils.ts:48 | the cleared pair splits into the name and an empty value |
| CookieUtils.ClearCookieString | src/lib/cookieUtils.ts:46-52 | the clearing text starts with "accessibility=" and ends with the path, zero Max-Age and SameSite attributes, with nothing between them |
| CookieUtils.ClearStoresEmptyValue | src/lib/cookieUtils.ts:46-52 | clearing writes the accessibility name with an empty value as the cookie's pair |
| CookieUtils.EntryHasValue | src/lib/cookieUtils.ts:28-34 | a matched entry holds "=", so its value piece exists |
| CookieUtils.RawValue | src/lib/cookieUtils.ts:34 | the value read from a matched entry contains no "=" |
| CookieUtils.GetAccessibilityCookie | src/lib/cookieUtils.ts:25-41 | settings are found only when some entry of the cookie is the accessibility entry |
| CookieUtils.NoEntryNoSettings | src/lib/cookieUtils.ts:28-32 | without an accessibility entry the lookup finds nothing, whatever else the cookie holds |
| CookieUtils.MatchedNameIsExact | src/lib/cookieUtils.ts:28-30 | a matched entry is named exactly "accessibility" once trimmed, never a longer name |
| CookieUtils.ValueBetweenFirstTwoEquals | src/lib/cookieUtils.ts:34 | the value read is the text between the entry's first and second "=" |
| CookieUtils.PairAfterSpaces | src/lib/cookieUtils.ts:27-29 | spaces, the prefix and a value split at the name's "=" |
| CookieUtils.LookupReadsFirstPair | src/lib/cookieUtils.ts:25-41 | behind entries that are not the accessibility cookie, a pair "accessibility=v" is the one read: the result is v decoded and parsed, or nothing when either fails |
| CookieUtils.ReadBackAfterSet | src/lib/cookieUtils.ts:12-41 | reading back what was set, among other cookies, gives the settings written, when decoding and parsing undo encoding and serialising |
| Api.ApiUrl | src/config/api.ts:22 | the configured address unless it is missing or empty, else the local default |
| Api.IntToString | src/config/api.ts:68-71 | a numeral that starts with "-" exactly for a negative number |
| Api.NatFirstIsDigit | src/config/api.ts:68-71 | a decimal numeral starts with a digit |
| Api.Path | src/config/api.ts:25-73 | every endpoint path starts with "/" |
| Api.ActIdReadBack | src/config/api.ts:29 | the act id is exactly what follows "/acts/" in its detail path |
| Api.VersionPathIsJoin | src/config/api.ts:39 | the version path is its five segments joined by "/" |
| Api.VersionPathSegments | src/config/api.ts:39 | with ids free of "/", splitting a version path gives back the resource names and both ids in order |
| Api.TagDetailIsNotItemPath | src/config/api.ts:68-71 | a tag's detail path never equals any tag's update or delete path |
| Api.GetApiUrl | src/config/api.ts:80-82 | the URL is the base address followed by exactly the endpoint |
| Api.DefaultActsListUrl | src/config/api.ts:22-82 | without configuration the acts list is at the local development server |
| Api.MergedHeaders | src/config/api.ts:94-110 | merged headers keep every caller header and always hold Content-Type; Authorization is there with a stored token, and without one only when the caller sent it; nothing else is added |
| Api.MergedHeadersUnique | src/config/api.ts:94-110 | the merge rule fixes every header: two merges of the same inputs are equal |
| Api.ApiFetch | src/config/api.ts:90-111 | the request goes to the joined URL with the caller's method and body, and the headers are the caller's over JSON content and, with a token, its bearer authorization |
| Api.ApiPost | src/config/api.ts:116-126 | POST with the JSON body, whatever the options say, and the merged headers |
| Api.ApiPut | src/config/api.ts:131-141 | PUT with the JSON body, whatever the options say, and the merged headers |
| Api.ApiDelete | src/config/api.ts:146-154 | DELETE, keeping any body of the options, with the merged headers |
| Api.ApiGet | src/config/api.ts:159-167 | GET, keeping any body of the options, with the merged headers |
| Api.ActItemPaths | src/config/api.ts:29-33 | detail, update and delete of an act share "/acts/" + id, and the detail with details appends "/with-details" |
| Api.VersionItemPaths | src/config/api.ts:37-43 | a version has one path for detail, update and delete, below the act's versions; the PDF upload appends "/file" |
| Api.ReadingVoteItemPaths | src/config/api.ts:51-56 | a reading's votes have one path for detail, update and delete, below the act's reading votes |
| Api.StageItemPaths | src/config/api.ts:59-63 | a stage's update and delete share one path below the act's stages |
| Api.TagItemPaths | src/config/api.ts:67-71 | a tag's update and delete share "/tags/" + id |

## Left out

- Rendering: JSX, styling, icons as components, toasts and navigation. Only the values the components compute are modelled.
- Network access: `fetch`, its promises and its errors. A response is an input datatype and the handlers take it as a parameter.
- `localStorage` and the `document.cookie` assignment: the stored user is a field of the auth context, and the cookie text is a value.
- `Math.random`: the signed-in user's id (src/contexts/AuthContext.tsx:44), the comment id (src/components/acts/ActComments.tsx:85), the officer id (src/pages/AdminManagementPage.tsx:156), the editor's act number (src/pages/EditorPage.tsx:55) and each generated password character (src/pages/AdminManagementPage.tsx:62) come in as parameters, with the ranges the source draws from stated as `requires`.
- `new Date()`: the clock read by the consultation-window test (src/components/acts/ActComments.tsx:62) is the parameter `now`, and the `createdAt` stamps of a signed-in user (src/contexts/AuthContext.tsx:49), a new comment (src/components/acts/ActComments.tsx:90) and a new officer (src/pages/AdminManagementPage.tsx:162) are parameters.
- ActComments.CommentsPanel.AddComment: the 500 ms `setTimeout` (src/components/acts/ActComments.tsx:83-103) runs as part of the same step. The loading window is not captured. Neither is the closure over the `comments` and draft of the click, so an approval, deletion or edit made during that half second is overwritten in the source but kept in the model.
- Header.Header.HandleBlur: the 200 ms `setTimeout` (src/components/layout/Header.tsx:91) is not modelled; the list closes at once, so the window in which a result can still be clicked after leaving the field is not captured.
- Date parsing and formatting: dates in the seeded data and the consultation end are integers, so the newest-first sort (src/components/home/FeaturedActs.tsx:49) compares integers. The date-fns `format` with the Polish locale (src/components/home/FeaturedActs.tsx:30) is the `render` parameter of `FeaturedActsSection.FormatDate`. The `Intl.NumberFormat` of the result count (src/pages/AllActsPage.tsx:114) is not modelled.
- i18n lookups: translated captions are not modelled. The plural rules take the language code as a string.
- Floating point: the progress percentage and the rounding of a file's size in KB are not modelled. The PDF size bound is compared on whole bytes.
- String width: `length` counts UTF-16 code units in the source but characters here. `toLowerCase` is modelled over ASCII and the Polish capitals only, and other characters are left as they are.
- `JSON.parse`, `JSON.stringify` of arbitrary values, `encodeURIComponent` and `decodeURIComponent`: parameters that answer `None` where the browser throws. Only the settings' own JSON text is spelled out.
- `Headers` objects and header arrays in `options.headers`: `apiFetch` is modelled for plain header records only.
- Tag ids that are not integers: `API_ENDPOINTS.TAGS` builders take an `int`.
- The undeclared `status` read at src/pages/AdminManagementPage.tsx:82-83 is not modelled, because the source does not say what it holds.
- The PDF preview URL (`URL.createObjectURL`) and the clipboard copy of a generated password: browser services with no logic of their own.
- EditorPage's generic `handleChange` over form fields and its `isAuthenticated` redirect: they only copy values and route.
- The law-road category card's icon lookup is the same table and fallback as `CategoryCard.IconFor` and is not modelled twice.
- CitizenProfilePage.ToggleTwice: states that the set of selected ids is restored, not their order or copies, because a toggle removes every copy and re-appends at the end.
- AdminManagementPage.ToggleTwice: requires that the clicked account is the only one with its id, because with duplicate ids the second click flips the other copies too.
- OfficerProjectsPage.MyProjects: the exact list chosen from the seeded acts is not computed, because filtering the seven literal acts is too costly for the verifier. The lemmas speak about any list.
- Concurrency between React renders: each handler is one step on the state it reads.

## Findings

| source | as written | input that shows it | evidently intended | confidence | as-written member | corrected member |
|---|---|---|---|---|---|---|
| src/pages/EditorPage.tsx:138-150 | a new stage row gets the id "s" + (number of rows + 1), so after a removal it can repeat an id still in the list, and removal by id drops every row with that id | from the opening row add a row ("s2"), remove "s1", add a row (again "s2"), then remove "s2": the list is empty | stage ids stay unique, so a removal takes one row and at least one row always remains | not executed | Editor.IdCollisionEmptiesList | Editor.CountedStages |
