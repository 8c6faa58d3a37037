# Conversation View history — a Dafny model

This project models the client-side logic of the Conversation View history components of a
Salesforce Lightning Web Components package. It also models the utility module they share.

- **Conversation history list.** The server returns a map from group key (a date) to activity
  records: calls, emails, SMS and custom steps. The list turns that map into `{key, values}` groups
  and counts their records. A lower-cased search query narrows the groups. The list also keeps the
  pagination and filter fields (`offSet`, `queryMore`, `hasScrolled`, `isLoading`, `filterType`,
  `filterDate`, `startDate`, `endDate`, `searchKey`, the filter panel's class list). Its event
  handlers update those fields.
- **Scroll monitor.** The monitor records, per component instance, the last scroll position. It
  raises the loading flag after every 500 units scrolled down.
- **Detail modal.** The modal shows one item. It raises the flag of the item's type, copies the
  call fields of the managed package in use (enterprise `DS_Denali__` or standard), re-tags an
  email's items with the record id, and builds the recording page's address. It also decides
  where each navigation link leads.
- **Shared utilities.** The utility module holds:
  - `reduceErrors`, the error-message flattener;
  - the label, component-name, clock-time and ISO date-time formatters;
  - `unformatSnakeCase`;
  - a key-value store whose items expire after a number of hours.

Modules, one per file:

| file | module |
|---|---|
| `js.dfy` | `Js`: optional values, JavaScript values and truthiness |
| `text.dfy` | `Text`: the string built-ins the code calls, on `seq<char>` |
| `constants.dfy` | `Constants` |
| `convodata.dfy` | `ConvoData`: records, the server's group map, groups |
| `helpers.dfy` | `Helpers`: record counts and the email-reply payload |
| `filtersort.dfy` | `FilterSortHelpers`: grouping, search, sort, filter panel |
| `history.dfy` | `ConversationViewHistory`: the list component and the scroll monitor |
| `lwcutils.dfy` | `LwcUtils` |
| `detail.dfy` | `ConversationViewHistoryDetail`: the detail modal |

Modelling choices:

- Components whose handlers assign fields are classes. Their methods carry field-level
  `modifies` frames.
- Pure helpers are functions. Each has lemmas relating it to a partner: an inverse, an invariant
  or a reference definition.
- An object read in `for…in` order is a sequence of key/value pairs.
- A record read through a relationship (`record.Owner?.Name`) is modelled as a map whose keys are
  the dotted paths.
- Dates are UTC day numbers.
- The clock, the local-storage contents and the `getDurationString` import are parameters.

## Model

| member | source | states |
|---|---|---|
| FilterSortHelpers.Grouped | ConversationView/LWC/conversationViewHistory/utilities/filterSortHelpers.js:11-19 | one group per own key of the server map, so as many groups as keys |
| FilterSortHelpers.GroupedRelabels | ConversationView/LWC/conversationViewHistory/utilities/filterSortHelpers.js:11-19 | group i has key i of the map and exactly its record list, in map order; so the groups hold as many records as the map |
| FilterSortHelpers.GroupWiredConvos | ConversationView/LWC/conversationViewHistory/utilities/filterSortHelpers.js:8-25 | the `for…in`/`push` loop builds exactly the grouping of the map |
| FilterSortHelpers.FilterRecords | ConversationView/LWC/conversationViewHistory/utilities/filterSortHelpers.js:38-42 | the filter keeps a sub-list of the records |
| FilterSortHelpers.FilterRecordsKeepsMatches | ConversationView/LWC/conversationViewHistory/utilities/filterSortHelpers.js:38-42 | a record is kept iff it is in the group and its body, subject, phone or email, lower-cased, contains the query |
| FilterSortHelpers.FilterRecordsAppend | ConversationView/LWC/conversationViewHistory/utilities/filterSortHelpers.js:38-42 | filtering distributes over concatenation, so kept records stay in their relative order |
| FilterSortHelpers.Narrow | ConversationView/LWC/conversationViewHistory/utilities/filterSortHelpers.js:35-46 | narrowing never adds groups |
| FilterSortHelpers.Kept | ConversationView/LWC/conversationViewHistory/utilities/filterSortHelpers.js:44-46 | a group yields at most one narrowed group |
| FilterSortHelpers.NarrowKeepsNarrowed | ConversationView/LWC/conversationViewHistory/utilities/filterSortHelpers.js:44-46 | every surviving group is non-empty and is a fresh copy of an input group, keeping its key and holding only its matching records |
| FilterSortHelpers.NarrowKeepsEveryMatch | ConversationView/LWC/conversationViewHistory/utilities/filterSortHelpers.js:44-46 | every input group with a matching record survives |
| FilterSortHelpers.NarrowAppend | ConversationView/LWC/conversationViewHistory/utilities/filterSortHelpers.js:35-46 | narrowing distributes over concatenation, so surviving groups keep their order |
| FilterSortHelpers.NarrowFindsExactlyMatches | ConversationView/LWC/conversationViewHistory/utilities/filterSortHelpers.js:35-46 | a record appears in the result iff it is in some input group and matches the query |
| FilterSortHelpers.NarrowCountZero | ConversationView/LWC/conversationViewHistory/utilities/filterSortHelpers.js:35-46 | the result holds no records iff no input record matches |
| FilterSortHelpers.SearchComparatorOnGroups | ConversationView/LWC/conversationViewHistory/utilities/filterSortHelpers.js:47 | groups carry no `createdDate`, so the comparator returns 1 both ways round |
| FilterSortHelpers.SearchComparatorNeverTies | ConversationView/LWC/conversationViewHistory/utilities/filterSortHelpers.js:47 | the comparator never returns 0 |
| FilterSortHelpers.Insert | ConversationView/LWC/conversationViewHistory/utilities/filterSortHelpers.js:47 | one step of the engine's sort adds exactly the inserted group and its records |
| FilterSortHelpers.InsertCount | ConversationView/LWC/conversationViewHistory/utilities/filterSortHelpers.js:47 | inserting a group anywhere adds its record count |
| FilterSortHelpers.EngineSort | ConversationView/LWC/conversationViewHistory/utilities/filterSortHelpers.js:47 | whatever order the engine picks, the sort is a permutation: the same length, multiset and record count |
| FilterSortHelpers.EngineSortWithoutPlacement | ConversationView/LWC/conversationViewHistory/utilities/filterSortHelpers.js:47 | with no reordering chosen, the groups stay as they are |
| FilterSortHelpers.SearchConversations | ConversationView/LWC/conversationViewHistory/utilities/filterSortHelpers.js:32-54 | the search result is a permutation of the narrowed groups |
| FilterSortHelpers.SearchGroupsMatch | ConversationView/LWC/conversationViewHistory/utilities/filterSortHelpers.js:32-54 | every returned group is non-empty and holds only matching records |
| FilterSortHelpers.SearchFindsExactlyMatches | ConversationView/LWC/conversationViewHistory/utilities/filterSortHelpers.js:32-54 | a record is found iff it is in an input group and matches |
| FilterSortHelpers.SearchCountZero | ConversationView/LWC/conversationViewHistory/utilities/filterSortHelpers.js:32-54 | the search finds no records iff no record matches |
| FilterSortHelpers.Toggled | ConversationView/LWC/conversationViewHistory/utilities/filterSortHelpers.js:94-108 | `toggleFiltersModal`'s class update; its properties are stated by ToggleSwitchesState, ToggledSwapsToken and PanelClassTransitions |
| FilterSortHelpers.Closed | ConversationView/LWC/conversationViewHistory/utilities/filterSortHelpers.js:114-122 | `closeFiltersModal`'s class update; its properties are stated by ClosedSettles and PanelClassTransitions |
| FilterSortHelpers.ReplaceFirstIncludes | ConversationView/LWC/conversationViewHistory/utilities/filterSortHelpers.js:99 | replacing a present token leaves the replacement in the class list |
| FilterSortHelpers.ToggleSwitchesState | ConversationView/LWC/conversationViewHistory/utilities/filterSortHelpers.js:94-108 | a closed list becomes open, an open one closed, and a list with neither token is unchanged |
| FilterSortHelpers.ReplaceLastToken | ConversationView/LWC/conversationViewHistory/utilities/filterSortHelpers.js:99-103 | in a panel class list only the final state token is replaced |
| FilterSortHelpers.ToggledSwapsToken | ConversationView/LWC/conversationViewHistory/utilities/filterSortHelpers.js:94-108 | toggling swaps the state token and keeps the trigger classes |
| FilterSortHelpers.ClosedSettles | ConversationView/LWC/conversationViewHistory/utilities/filterSortHelpers.js:114-122 | closing always ends on the closed token |
| FilterSortHelpers.PanelClassTransitions | ConversationView/LWC/conversationViewHistory/utilities/filterSortHelpers.js:94-122 | toggle and close keep a panel class list; toggling twice restores it; closing is idempotent and leaves a closed list alone; a list holds `slds-is-closed` iff its toggle holds `slds-is-open` |
| Helpers.ItemCount | ConversationView/LWC/conversationViewHistory/utilities/helpers.js:141-143 | `convoArrayItemCount`; its properties are stated by ItemCountZero, ItemCountAppend and ItemCountOfRelabelled |
| Helpers.MapItemCount | ConversationView/LWC/conversationViewHistory/utilities/helpers.js:153-162 | the sum `convoObjectItemCount` computes; ConvoObjectItemCount is proved to return it and ItemCountOfRelabelled ties it to ItemCount |
| Helpers.ItemCountZero | ConversationView/LWC/conversationViewHistory/utilities/helpers.js:141-143 | the count is 0 iff every group is empty (0 for no groups) |
| Helpers.ItemCountAppend | ConversationView/LWC/conversationViewHistory/utilities/helpers.js:141-143 | counting a concatenation adds the two counts |
| Helpers.ConvoObjectItemCount | ConversationView/LWC/conversationViewHistory/utilities/helpers.js:153-162 | the accumulator loop returns the sum of every key's list length |
| Helpers.ItemCountOfRelabelled | ConversationView/LWC/conversationViewHistory/utilities/helpers.js:141-162 | groups carrying the map's lists key for key count as many records as the map |
| Helpers.RemoveFirstCount | ConversationView/LWC/conversationViewHistory/utilities/helpers.js:74 | `replace` with a one-character pattern removes one copy of it when present, and nothing otherwise |
| Helpers.RemoveFirstPresent | ConversationView/LWC/conversationViewHistory/utilities/helpers.js:74 | removing the first `c` takes one copy of it out of the multiset |
| Helpers.RemoveFirstIsFirst | ConversationView/LWC/conversationViewHistory/utilities/helpers.js:74 | a `c` at `i` with no `c` before it is the one cut out, and the rest is kept in order |
| Helpers.RemoveFirstDropsFirst | ConversationView/LWC/conversationViewHistory/utilities/helpers.js:74 | `replace` with a one-character pattern cuts out exactly the first occurrence, keeping every other character in place, and leaves a string without it unchanged |
| Helpers.MultisetWithout | ConversationView/LWC/conversationViewHistory/utilities/helpers.js:74 | cutting one position out removes exactly that character |
| Helpers.FormatEmailData | ConversationView/LWC/conversationViewHistory/utilities/helpers.js:65-83 | the reply payload; its fields are stated by FormatEmailDataIds, FormatEmailDataAddress and FormatEmailDataSubject |
| Helpers.FormatEmailDataSubject | ConversationView/LWC/conversationViewHistory/utilities/helpers.js:77 | the subject is `Re:` followed directly by the original subject, which can be read back |
| Helpers.FormatEmailDataIds | ConversationView/LWC/conversationViewHistory/utilities/helpers.js:72-76 | org id, user id, reply-to id and cadence member id are passed through |
| Helpers.FormatEmailDataAddress | ConversationView/LWC/conversationViewHistory/utilities/helpers.js:74 | the address loses its first `(`, then the first `)` of what remains, each only when present; every other character stays in place, and the multiset loses exactly those two |
| Constants.FilterTablesWellFormed | ConversationView/LWC/conversationViewHistory/utilities/constants.js:5-22 | both option tables have five options, start with `All` and label every option by its value |
| Constants.FilterClassesStartClosed | ConversationView/LWC/conversationViewHistory/utilities/constants.js:27 | the initial class list contains `slds-is-closed` and not `slds-is-open` |
| Constants.TokenIndex | ConversationView/LWC/conversationViewHistory/utilities/constants.js:27 | a state token is found in a panel class list only as its final token |
| Constants.CompareDatesDesc | ConversationView/LWC/conversationViewHistory/utilities/constants.js:37-44 | the result is -1, 0 or 1, and 0 iff neither date is after the other |
| Constants.CompareDatesDescAntisymmetric | ConversationView/LWC/conversationViewHistory/utilities/constants.js:37-44 | `cmp(a, b) == -cmp(b, a)` |
| Constants.CompareDatesDescZero | ConversationView/LWC/conversationViewHistory/utilities/constants.js:37-44 | on present dates, 0 iff the dates are equal |
| Constants.CompareDatesDescInOrder | ConversationView/LWC/conversationViewHistory/utilities/constants.js:37-44 | `a` sorts no later than `b` iff `a` is not older |
| Constants.CompareDatesDescTransitive | ConversationView/LWC/conversationViewHistory/utilities/constants.js:30-44 | the comparator is transitive on present dates |
| Constants.SortedIsNewestFirst | ConversationView/LWC/conversationViewHistory/utilities/constants.js:30-44 | a list sorted with the comparator is newest-first throughout |
| Constants.NewestFirstHead | ConversationView/LWC/conversationViewHistory/utilities/constants.js:30-44 | the head of such a list is not older than any later element |
| Constants.DockedComposerEnabled | ConversationView/LWC/conversationViewHistory/utilities/constants.js:51-53 | the docked-composer setting; its cases are stated by DockedComposerCases |
| Constants.DockedComposerCases | ConversationView/LWC/conversationViewHistory/utilities/constants.js:51-53 | missing settings, a missing field, or any value but `false` itself (even a falsy one) leave the composer off |
| Constants.DetailModalTitle | ConversationView/LWC/conversationViewHistory/utilities/constants.js:61-69 | on mobile a known type is its own title; an unknown type gets `Conversation Details`; no title is empty |
| Constants.DetailModalTitleDesktop | ConversationView/LWC/conversationViewHistory/utilities/constants.js:61-69 | off mobile the titles are `Email Conversation`, `SMS History`, `Call Details`; `Custom` always gets the default |
| ConversationViewHistory.AddLoose | ConversationView/LWC/conversationViewHistory/utilities/helpers.js:50 | `+=` on a never-assigned property gives `NaN`, and on a number adds |
| ConversationViewHistory.ClearedBy | ConversationView/LWC/conversationViewHistory/utilities/filterSortHelpers.js:153-160 | the rendered inputs stay the same; those among the ids are emptied and the rest keep their values |
| ConversationViewHistory.ClearedByStep | ConversationView/LWC/conversationViewHistory/utilities/filterSortHelpers.js:155-160 | one more `forEach` step empties that input only when it is rendered |
| ConversationViewHistory.ClearedInputsIdempotent | ConversationView/LWC/conversationViewHistory/utilities/filterSortHelpers.js:153-160 | clearing the inputs twice clears them once |
| ConversationViewHistory.ExpandableSearchBar.ClearSearch | ConversationView/LWC/conversationViewHistory/utilities/helpers.js:125 | after the child's `clearSearch` the bar is closed and empty |
| ConversationViewHistory.ConversationViewHistory.constructor | ConversationView/LWC/conversationViewHistory/conversationViewHistory.js:52-79 | the field initialisers, which satisfy the component invariant |
| ConversationViewHistory.ConversationViewHistory.ConversationThreads | ConversationView/LWC/conversationViewHistory/conversationViewHistory.js:146-152 | the groups unchanged when there is no key or no record, otherwise a permutation of the narrowed groups |
| ConversationViewHistory.ConversationViewHistory.ShowNoData | ConversationView/LWC/conversationViewHistory/conversationViewHistory.js:158-160 | `showNoData`; what it means is stated by ShowNoDataMeans |
| ConversationViewHistory.ConversationViewHistory.ShowNoDataMeans | ConversationView/LWC/conversationViewHistory/conversationViewHistory.js:158-160 | no data is shown iff no record matches while searching, or every group is empty otherwise |
| ConversationViewHistory.ConversationViewHistory.IsFiltered | ConversationView/LWC/conversationViewHistory/conversationViewHistory.js:415-419 | `isFiltered`; ClearedIsNotFiltered states that clearing every filter makes it false |
| ConversationViewHistory.ConversationViewHistory.CustomDate | ConversationView/LWC/conversationViewHistory/conversationViewHistory.js:371-373 | `customDate`; CustomDateOfOption states which date option makes it true |
| ConversationViewHistory.ConversationViewHistory.CustomDateOfOption | ConversationView/LWC/conversationViewHistory/conversationViewHistory.js:371-373 | of the five date-filter options, exactly `Custom` shows the custom range inputs |
| ConversationViewHistory.ConversationViewHistory.MinEndDate | ConversationView/LWC/conversationViewHistory/conversationViewHistory.js:424-426 | null iff there is no start date, else the start date's day |
| ConversationViewHistory.ConversationViewHistory.MaxStartDate | ConversationView/LWC/conversationViewHistory/conversationViewHistory.js:431-433 | null iff there is no end date, else the end date's day |
| ConversationViewHistory.ConversationViewHistory.DateBoundsOrdered | ConversationView/LWC/conversationViewHistory/conversationViewHistory.js:424-433 | in a valid state the end date's minimum is not after the start date's maximum |
| ConversationViewHistory.ConversationViewHistory.WiredData | ConversationView/LWC/conversationViewHistory/conversationViewHistory.js:114-138 | data rebuilds and counts the groups; a count of 0 ends paging, otherwise `hasScrolled` drops; both end loading; an error only ends loading; neither leaves it loading |
| ConversationViewHistory.ConversationViewHistory.HandleSearchInput | ConversationView/LWC/conversationViewHistory/conversationViewHistory.js:175-180 | the search key becomes the input |
| ConversationViewHistory.ConversationViewHistory.HandleItemClicked | ConversationView/LWC/conversationViewHistory/conversationViewHistory.js:213-227 | the item and its type are remembered and the modal opens under the title for the type |
| ConversationViewHistory.ConversationViewHistory.CloseModal | ConversationView/LWC/conversationViewHistory/conversationViewHistory.js:232-234 | the modal is closed |
| ConversationViewHistory.ConversationViewHistory.ApplyFilters | ConversationView/LWC/conversationViewHistory/conversationViewHistory.js:331-349 | always resets the list and paging; `type` sets only the type filter, `date` only the date filter, any other kind neither |
| ConversationViewHistory.ConversationViewHistory.DateChangeThrows | ConversationView/LWC/conversationViewHistory/utilities/filterSortHelpers.js:68-72 | when `handleDateChange` throws before resetting anything; HandleDateChange states that such a call changes nothing |
| ConversationViewHistory.ConversationViewHistory.HandleDateChange | ConversationView/LWC/conversationViewHistory/utilities/filterSortHelpers.js:62-89 | a start date is stored only while no end date is set; an end date not before the minimum is stored at 23:59:59.999; unless the handler throws, the list and paging reset |
| ConversationViewHistory.ConversationViewHistory.ToggleFiltersModal | ConversationView/LWC/conversationViewHistory/utilities/filterSortHelpers.js:94-108 | the class list is toggled: closed iff the new one is open |
| ConversationViewHistory.ConversationViewHistory.CloseFiltersModal | ConversationView/LWC/conversationViewHistory/utilities/filterSortHelpers.js:114-122 | the class list ends closed, and an already closed list is unchanged |
| ConversationViewHistory.ConversationViewHistory.ClearAndCloseSearch | ConversationView/LWC/conversationViewHistory/utilities/helpers.js:119-131 | the key is empty and the bar closed; a bar already closed, or missing, is untouched |
| ConversationViewHistory.ConversationViewHistory.ClearInputs | ConversationView/LWC/conversationViewHistory/utilities/filterSortHelpers.js:153-160 | each rendered input among the ids is emptied |
| ConversationViewHistory.ConversationViewHistory.ClearedIsNotFiltered | ConversationView/LWC/conversationViewHistory/conversationViewHistory.js:415-419 | once every filter is cleared the list is not filtered |
| ConversationViewHistory.ConversationViewHistory.ClearAllFilters | ConversationView/LWC/conversationViewHistory/utilities/filterSortHelpers.js:142-164 | filters `All`, dates and key empty, paging restarted through `offset` (not `offSet`), panel closed, inputs emptied; a second call changes nothing |
| ConversationViewHistory.ScrollMonitor.constructor | ConversationView/LWC/conversationViewHistory/utilities/helpers.js:14 | no component has a recorded position |
| ConversationViewHistory.ScrollMonitor.HandleScroll | ConversationView/LWC/conversationViewHistory/utilities/helpers.js:21-57 | more than 500 down raises loading and records the bottom; up or still records the top; a smaller scroll down records nothing; at the bottom with more to load and `offSet` below 2000 `hasScrolled` rises and `offset` grows; other components' positions are kept |
| LwcUtils.Messages | lwcUtils.js:69-125 | the messages one error yields, by its shape; ReduceErrorsMembership and ReduceErrorsFieldExample state what it selects |
| LwcUtils.ReduceErrors | lwcUtils.js:58-132 | `reduceErrors`; its properties are stated by ReduceErrorsTruthy, ReduceErrorsMembership, ReduceErrorsAppend and ReduceErrorsSingle |
| LwcUtils.FlattenAppend | lwcUtils.js:128 | flattening a concatenation concatenates the flattenings |
| LwcUtils.FlattenMembership | lwcUtils.js:128 | a message is in the flattening iff some list holds it |
| LwcUtils.CollectFieldMessages | lwcUtils.js:84-92 | the `push` loop collects the field-error messages field by field, in order |
| LwcUtils.FieldMessagesMembership | lwcUtils.js:84-92 | a message is collected iff some field lists it |
| LwcUtils.TruthyOnlyMembership | lwcUtils.js:130 | a message survives iff it is present and truthy |
| LwcUtils.TruthyOnlyAppend | lwcUtils.js:130 | the final filter keeps the order of the messages |
| LwcUtils.ReduceErrorsTruthy | lwcUtils.js:58-132 | no returned message is empty or falsy |
| LwcUtils.ReduceErrorsMembership | lwcUtils.js:58-132 | a message is returned iff it is truthy and some error's shape-selected messages hold it |
| LwcUtils.ReduceErrorsAppend | lwcUtils.js:62-131 | the messages of a concatenated error list are the two lists' messages in input order |
| LwcUtils.MessageListsAppend | lwcUtils.js:67-126 | one message list per error, in input order |
| LwcUtils.ReduceErrorsSingle | lwcUtils.js:58-65 | a single error is treated as a one-element list; a falsy one yields nothing; an error yields its truthy messages |
| LwcUtils.ReduceErrorsFieldExample | lwcUtils.js:80-93 | `{body:{fieldErrors:{Name:[{message:"Required"}]}}}` gives `["Required"]` |
| LwcUtils.GetLabelFromDevName | lwcUtils.js:38-43 | `getLabelFromDevName`; its result is stated by GetLabelFromDevNameSpaced, GetLabelOfWords and GetLabelFromDevNameExample |
| LwcUtils.Capitalize | lwcUtils.js:41 | the first character upper-cased, the rest kept |
| LwcUtils.Words | lwcUtils.js:42 | the split gives at least one piece, and the first starts with the first character |
| LwcUtils.JoinWordsSpaced | lwcUtils.js:42 | splitting before capitals and joining with spaces inserts a space before every later capital |
| LwcUtils.GetLabelFromDevNameSpaced | lwcUtils.js:38-43 | null gives `''`; a name gives its capitalised form with a space before every later capital |
| LwcUtils.WordsConcat | lwcUtils.js:42 | the pieces of the split concatenate back to the string |
| LwcUtils.WordsStartUpper | lwcUtils.js:42 | every piece after the first starts with a capital |
| LwcUtils.WordsOfConcat | lwcUtils.js:42 | capitalised words run together split back into those words |
| LwcUtils.GetLabelOfWords | lwcUtils.js:38-43 | a camel-case name gives its capitalised words separated by spaces |
| LwcUtils.GetLabelFromDevNameExample | lwcUtils.js:38-43 | `cadenceActions` gives `Cadence Actions` |
| LwcUtils.CapitalizeAppend | lwcUtils.js:41 | capitalising only touches the first character |
| LwcUtils.JoinExtendHead | lwcUtils.js:42 | extending the first word extends the joined label |
| LwcUtils.GetCmpName | lwcUtils.js:46-51 | `getCmpName`; its result is stated by GetCmpNameThrows, GetCmpNameOfTag and GetCmpNameExample |
| LwcUtils.SplitAtSeparator | lwcUtils.js:48 | a dashed name splits into at least two segments |
| LwcUtils.GetCmpNameThrows | lwcUtils.js:46-51 | the name throws (reduce of an empty array) iff it has no `-` |
| LwcUtils.CapitalizeNoDash | lwcUtils.js:50 | capitalising adds no `-` |
| LwcUtils.CamelCaseNoDash | lwcUtils.js:50 | the camel-cased name has no `-` |
| LwcUtils.GetCmpNameOfTag | lwcUtils.js:46-51 | a tag `ns-seg-…` gives the camel-cased segments after the namespace, with no `-` |
| LwcUtils.GetCmpNameExample | lwcUtils.js:46-51 | `c-test-component` gives `testComponent` |
| LwcUtils.UnformatSnakeCase | lwcUtils.js:261-267 | `unformatSnakeCase`; its result is stated by UnformatSnakeCaseResult |
| LwcUtils.UnderscoresToSpaces | lwcUtils.js:263 | every `_` becomes a space, every other character stays |
| LwcUtils.UnformatSnakeCaseResult | lwcUtils.js:261-267 | a non-string (the caught `TypeError`) gives `undefined`; a string gives one of the same length, with no `_`, other characters kept; applying it twice is applying it once |
| LwcUtils.FormatAmPm | lwcUtils.js:160-170 | `formatAMPM`; FormatAmPmRoundTrip states that its result reads back as the hour and minute |
| LwcUtils.PadTwoDigits | lwcUtils.js:175-178 | below 100, the pad is two digits that read back as the number |
| LwcUtils.FormatAmPmRoundTrip | lwcUtils.js:160-170 | the formatted time parses back to the hour and minute: the hour is `h mod 12` or 12, `PM` iff h ≥ 12, minutes zero-padded |
| LwcUtils.ParseClock | lwcUtils.js:168 | a clock string of hour, `:`, two-digit minutes, space and suffix reads back |
| LwcUtils.ParseClockAt | lwcUtils.js:168 | the clock string is split at its `:` |
| LwcUtils.ClockHour | lwcUtils.js:165-166 | the 12-hour clock value and the suffix determine the 24-hour hour |
| LwcUtils.ClockPieces | lwcUtils.js:168 | the pieces of the clock string sit where the parser looks |
| LwcUtils.LocalIsoDatetime | lwcUtils.js:172-188 | `localIsoDatetime`; LocalIsoDatetimeRoundTrip states that its result reads back as the date-time |
| LwcUtils.DecodeFields | lwcUtils.js:181-187 | each field is three characters: separator and two digits |
| LwcUtils.YearRoundTrip | lwcUtils.js:180 | the year's decimal form reads back as the year |
| LwcUtils.FieldsRoundTrip | lwcUtils.js:181-187 | separator-plus-two-digit fields read back as the separators and values |
| LwcUtils.LocalIsoDatetimeRoundTrip | lwcUtils.js:172-188 | `Y-MM-DDTHH:MM:SS±HH:MM` reads back as the date-time: month + 1, sign `+` iff the negated offset is ≥ 0, offset split into `div 60` and `mod 60` |
| LwcUtils.ParseLocalIsoDatetimeAt | lwcUtils.js:172-188 | year part and fields decode to the date-time |
| LwcUtils.Stored | lwcUtils.js:229-240 | the store after `setStorageItem`; SetThenGet and SetLeavesOtherKeys state its effect on later lookups |
| LwcUtils.Lookup | lwcUtils.js:242-258 | the result and the store after `getStorageItem`; LookupResult and SetThenGet state them |
| LwcUtils.LocalStorage.constructor | lwcUtils.js:239 | the store starts empty |
| LwcUtils.LocalStorage.SetStorageItem | lwcUtils.js:229-240 | stores the value under the key with expiry now + ttl × 3600000 |
| LwcUtils.LocalStorage.GetStorageItem | lwcUtils.js:242-258 | returns the stored value until expiry; after it, null and the key removed |
| LwcUtils.SetThenGet | lwcUtils.js:229-258 | a set then a get returns the value while now ≤ t + ttl × 3600000, else null with only that key removed |
| LwcUtils.SetLeavesOtherKeys | lwcUtils.js:229-258 | setting one key changes no other key's lookup |
| LwcUtils.LookupResult | lwcUtils.js:242-258 | a lookup finds a value iff the key is present and unexpired; other keys are untouched |
| ConversationViewHistoryDetail.Get | ConversationView/LWC/conversationViewHistoryDetail/conversationViewHistoryDetail.js:70-94 | a field the record lacks reads as `undefined` |
| ConversationViewHistoryDetail.StringOf | ConversationView/LWC/conversationViewHistoryDetail/conversationViewHistoryDetail.js:183 | a string converts to itself |
| ConversationViewHistoryDetail.KindOf | ConversationView/LWC/conversationViewHistoryDetail/conversationViewHistoryDetail.js:97-114 | the layout a type names under `===`; KindOfName states it |
| ConversationViewHistoryDetail.KindOfName | ConversationView/LWC/conversationViewHistoryDetail/conversationViewHistoryDetail.js:97-114 | a type selects a layout iff it is exactly that layout's name |
| ConversationViewHistoryDetail.WithConvoType | ConversationView/LWC/conversationViewHistoryDetail/conversationViewHistoryDetail.js:97-114 | the flags after `setConvoType`; WithConvoTypeFlags and WithConvoTypeRaisesOne state them |
| ConversationViewHistoryDetail.WithConvoTypeFlags | ConversationView/LWC/conversationViewHistoryDetail/conversationViewHistoryDetail.js:97-114 | a flag is up afterwards iff it was up or the type names its layout; `isZoom` never changes |
| ConversationViewHistoryDetail.WithConvoTypeRaisesOne | ConversationView/LWC/conversationViewHistoryDetail/conversationViewHistoryDetail.js:97-114 | exactly the flag of a known type goes up, unless it was up already; an unknown type raises none |
| ConversationViewHistoryDetail.Retagged | ConversationView/LWC/conversationViewHistoryDetail/conversationViewHistoryDetail.js:51-53 | one item out per item in |
| ConversationViewHistoryDetail.RetaggedItems | ConversationView/LWC/conversationViewHistoryDetail/conversationViewHistoryDetail.js:51-53 | in order, each item gets `id` = the record id and keeps every other property and value |
| ConversationViewHistoryDetail.DurationArgument | ConversationView/LWC/conversationViewHistoryDetail/conversationViewHistoryDetail.js:81-85 | the package's duration field, or 0 when it is null or undefined; never null |
| ConversationViewHistoryDetail.CallPhone | ConversationView/LWC/conversationViewHistoryDetail/conversationViewHistoryDetail.js:89 | the standard package's phone holds digits only |
| ConversationViewHistoryDetail.PhoneOfDescription | ConversationView/LWC/conversationViewHistoryDetail/conversationViewHistoryDetail.js:89 | a description of a 7-character label, the number and a line break gives the number |
| ConversationViewHistoryDetail.PhoneWithoutLineBreak | ConversationView/LWC/conversationViewHistoryDetail/conversationViewHistoryDetail.js:89 | with no line break the slice ends one character before the end |
| ConversationViewHistoryDetail.CallFields | ConversationView/LWC/conversationViewHistoryDetail/conversationViewHistoryDetail.js:66-95 | the call object `mapCallData` builds; StandardCallPhone, CallFieldsCommon and DurationArgument state its fields |
| ConversationViewHistoryDetail.StandardCallPhone | ConversationView/LWC/conversationViewHistoryDetail/conversationViewHistoryDetail.js:89-93 | outside the enterprise package the phone is a digit string and the notes are the description |
| ConversationViewHistoryDetail.CallFieldsCommon | ConversationView/LWC/conversationViewHistoryDetail/conversationViewHistoryDetail.js:69-78 | the common fields do not depend on the package, and the call's parent comes from the payload |
| ConversationViewHistoryDetail.ConversationViewHistoryDetailComponent.constructor | ConversationView/LWC/conversationViewHistoryDetail/conversationViewHistoryDetail.js:9-28 | the field initialisers: no flag set, enterprise and loading |
| ConversationViewHistoryDetail.ConversationViewHistoryDetailComponent.CustomStepTitle | ConversationView/LWC/conversationViewHistoryDetail/conversationViewHistoryDetail.js:34-36 | the title ends in ` Details` after the record type's name as a string |
| ConversationViewHistoryDetail.ConversationViewHistoryDetailComponent.SetConvoType | ConversationView/LWC/conversationViewHistoryDetail/conversationViewHistoryDetail.js:97-114 | the flags become the type's flags as set by `setConvoType` |
| ConversationViewHistoryDetail.ConversationViewHistoryDetailComponent.MapCallData | ConversationView/LWC/conversationViewHistoryDetail/conversationViewHistoryDetail.js:66-95 | the package flag is copied and every call field is taken from the package in use |
| ConversationViewHistoryDetail.ConversationViewHistoryDetailComponent.ReceiveRecord | ConversationView/LWC/conversationViewHistoryDetail/conversationViewHistoryDetail.js:44-57 | the record replaces the previous one; a call is mapped, an email's items re-tagged, otherwise both kept; the type flag goes up |
| ConversationViewHistoryDetail.ConversationViewHistoryDetailComponent.WiredGetRecordInfo | ConversationView/LWC/conversationViewHistoryDetail/conversationViewHistoryDetail.js:39-63 | loading ends after any response; a response without a record changes nothing else |
| ConversationViewHistoryDetail.ConversationViewHistoryDetailComponent.NavigateToOwner | ConversationView/LWC/conversationViewHistoryDetail/conversationViewHistoryDetail.js:116-124 | the call's owner if set, else the record's owner if set, as a `User`; nowhere when neither is set |
| ConversationViewHistoryDetail.ConversationViewHistoryDetailComponent.NavigateToCallObj | ConversationView/LWC/conversationViewHistoryDetail/conversationViewHistoryDetail.js:137-146 | closes the modal iff the record on screen is the call's parent, else opens that parent |
| ConversationViewHistoryDetail.ConversationViewHistoryDetailComponent.RecordingUrl | ConversationView/LWC/conversationViewHistoryDetail/conversationViewHistoryDetail.js:182-184 | `/apex/`, then `DS_Denali__` for an enterprise org or `DialSource__` otherwise, then `PlayRecording?id=` and the record id |

## Left out

- Platform plumbing: wire adapters, `refreshApex`, the message channel, toasts (`handleError`),
  navigation, the workspace-API events and their promises.
- The remote reply-information call and the `postData` request of `sendEmailReply`. Only the
  reply payload mapping is modelled.
- Timers: the delayed clear of the loading flag in `handleScroll`, `mockLoading`, `createTimer`,
  `delay`, `refreshWires`. Only the raise of the loading flag is modelled.
- JavaScript `Date`:
  - Date inputs and stored dates are UTC day numbers.
  - `formatAMPM` and `localIsoDatetime` take their fields as integers.
  - `timeWithoutSeconds` and locale formatting are not part of this model.
- Floating point: numbers are integers. `NaN` appears only for `offset += …` on a property never
  assigned. A `NaN` or fractional `ttl` is not modelled.
- DOM access: the rendered inputs are a map from data-id to value, and the search bar is an
  optional object.
- The child search bar's own `clearSearch` is modelled only as closing and emptying the bar.
- `textSearch`, `checkDateValidity`/`reportDateRangeValidity`, `getDurationString` and the other
  imported modules (`c/dateTimeUtilities`, `c/httpMethods`) are not part of this model.
  `getDurationString` is a function parameter of the call mapping.
- `durationUnit` compares the string returned by `getDurationString` with 60. That function is
  not part of this model, so the getter is left out.
- `navigateToRecord`, `navigateToCadence`, `navigateToCreatedBy` and `navigateToLastModifiedBy`
  each pass one fixed field to `navigate`, which is platform navigation. They are left out.
- ConversationViewHistoryDetail.ConversationViewHistoryDetailComponent.MapCallData: the model
  does not capture these source throws:
  - a missing `CreatedBy` or `LastModifiedBy` record, which throws in the source, reads as
    `undefined`;
  - a non-string `Description` outside the enterprise package throws in the source; the model
    requires a string.
- ConversationViewHistoryDetail.ConversationViewHistoryDetailComponent.WiredGetRecordInfo:
  `data.items` is taken to be an array; a missing one makes the source throw.
- The order of an object's own keys after the spread `{...item, id}` is not modelled. Items are
  maps.
- Strict equality on values is structural equality in the model. Object identity is not
  modelled, and ids are strings.
- Case mapping is ASCII-only.
- The JSON round trip of stored items is not modelled. Stored values are kept as they are.
- Error arrays are not modelled beyond this:
  - a `null`/`undefined` entry is `Falsy`;
  - messages are JavaScript values, so a missing `message` reads as `undefined`;
  - non-array `body`/`pageErrors` shapes outside the modelled cases are not covered.
- The group sort uses `createdDate`, which groups do not have. The comments on `searchConversations`
  (filterSortHelpers.js:27) and on `conversationThreads` (conversationViewHistory.js:141-143)
  promise a sort by created date, newest first. The code compares an undefined date, so its comparator always
  returns 1 and the order is whatever the engine's sort produces. The model follows the code:
  - `SearchConversations` takes the engine's insertion choices as a parameter;
  - it promises a permutation of the surviving groups, not a date order.
- Constants.DetailModalTitle: a type named after a property every object inherits
  (`constructor`, `toString`, `valueOf`, `__proto__`) makes `titles[type]` return that inherited,
  truthy value in the source. The model gives `Conversation Details` for every type other than
  the three keys, so these names are not modelled.
- Helpers.FormatEmailData: the reply information has plain string fields. A missing or null
  `From_Address__c`, or a missing `Conversation__r`, makes the source throw and re-throw. A missing
  subject gives `Re:undefined`. Neither case is modelled.
- FilterSortHelpers.SearchConversations: record fields are strings or absent. A field that holds a
  non-string makes `toLowerCase` throw in the source, and the caught error makes the search
  return `undefined`. That case is not modelled.
