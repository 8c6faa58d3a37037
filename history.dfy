/**
 * The conversation-history component: its pagination and filter fields, the
 * getters the template reads, and the event handlers that change the fields —
 * its own (`wiredData`, `applyFilters`, …) and those it delegates to the
 * helper modules (`handleDateChange`, `clearAllFilters`, `handleScroll`, …),
 * which take the component and assign its fields.
 */
module ConversationViewHistory {
  import opened Js
  import opened Text
  import opened ConvoData
  import opened Constants
  import opened Helpers
  import opened FilterSortHelpers

  /**
   * A numeric property that may never have been assigned. `offset` (lower-case
   * `s`) is not declared by the component, so it starts `undefined`, and
   * `undefined + n` is `NaN`.
   */
  datatype LooseNumber = Absent | NaN | Finite(n: int)

  /** `x += k` on a property that may be `undefined` or `NaN`. */
  function AddLoose(x: LooseNumber, k: int): (r: LooseNumber)
    ensures x.Finite? <==> r.Finite?
    ensures x.Finite? ==> r.n == x.n + k
  {
    match x
    case Finite(n) => Finite(n + k)
    case _ => NaN
  }

  /**
   * A date filter field: `''` or the ISO string of an instant, kept as its UTC
   * day number (days since 1970-01-01) and the milliseconds into that day.
   */
  datatype IsoDate = Unset | At(day: int, msOfDay: int)

  /** The value of a date input: cleared (`''`) or a `YYYY-MM-DD` day, as its day number. */
  datatype DateInput = Cleared | Picked(day: int)

  /** The last millisecond of a UTC day, `setUTCHours(23, 59, 59, 999)`. */
  const END_OF_DAY: int := 86399999

  /**
   * A custom date range as the date handlers leave it: a start date at
   * midnight, an end date at the last millisecond of its day, and an end day
   * not before the start day.
   */
  predicate DateRange(startDate: IsoDate, endDate: IsoDate)
  {
    (startDate.At? ==> startDate.msOfDay == 0)
    && (endDate.At? ==> endDate.msOfDay == END_OF_DAY)
    && (startDate.At? && endDate.At? ==> startDate.day <= endDate.day)
  }

  /** The value a wire adapter delivers: the server's group map, an error, or neither yet. */
  datatype WireResponse = WireResponse(data: Option<ConvoMap>, error: bool)

  /** The scrollable section's geometry. */
  datatype Section = Section(scrollTop: int, clientHeight: int, scrollHeight: int)

  /** Scroll distance after which the loading indicator is raised. */
  const SCROLL_THRESHOLD: int := 500

  /** `offSet` below which reaching the bottom asks for more records. */
  const MAX_OFFSET: int := 2000

  /** The data-ids of the inputs `clearAllFilters` empties. */
  const CLEARED_INPUTS: seq<string> := ["endDate", "startDate", "date-filters"]

  /** The inputs with every rendered input among `ids` emptied. */
  function ClearedBy(m: map<string, string>, ids: seq<string>): (r: map<string, string>)
    ensures r.Keys == m.Keys
    ensures forall k | k in r :: r[k] == (if k in ids then "" else m[k])
  {
    map k | k in m :: if k in ids then "" else m[k]
  }

  /** Emptying one more id, when it is rendered, extends the cleared ids by it. */
  lemma ClearedByStep(m: map<string, string>, ids: seq<string>, id: string)
    ensures ClearedBy(m, ids + [id])
         == if id in m then ClearedBy(m, ids)[id := ""] else ClearedBy(m, ids)
  {
  }

  /** The inputs with every cleared data-id emptied. */
  function ClearedInputs(m: map<string, string>): map<string, string>
  {
    ClearedBy(m, CLEARED_INPUTS)
  }

  /** Clearing the inputs twice clears them once. */
  lemma ClearedInputsIdempotent(m: map<string, string>)
    ensures ClearedInputs(ClearedInputs(m)) == ClearedInputs(m)
  {
  }

  /**
   * The child search bar. Its `clearSearch` is not part of this model; it is
   * taken to empty and close the bar, as the component's comments describe it.
   */
  class ExpandableSearchBar {
    var searchIsOpen: bool
    var value: string

    constructor (searchIsOpen: bool, value: string)
      ensures this.searchIsOpen == searchIsOpen && this.value == value
    {
      this.searchIsOpen := searchIsOpen;
      this.value := value;
    }

    method ClearSearch()
      modifies this
      ensures !searchIsOpen && value == ""
    {
      searchIsOpen := false;
      value := "";
    }
  }

  class ConversationViewHistory {
    /** The device's form factor (`FORM_FACTOR`). */
    const formFactor: string

    var convoData: ConvoMap
    var conversations: seq<Group>

    // scroll pagination
    var offSet: int
    var offset: LooseNumber
    var limitSize: int
    var queryMore: bool
    var isLoading: bool
    var hasScrolled: bool

    // filters
    var endDate: IsoDate
    var startDate: IsoDate
    var searchKey: string
    var filterType: string
    var filterDate: string

    var totalConvoEntries: int
    var filterClass: string

    // drill-down detail modal
    var recId: Option<string>
    var itemType: Option<string>
    var detailHeaderTitle: Option<string>
    var openRecordDetail: bool

    /** The rendered search bar, or null when the template has none. */
    const searchBar: ExpandableSearchBar?

    /** The values of the rendered inputs, by data-id; an absent id is an input not rendered. */
    var inputs: map<string, string>

    /**
     * The invariant the handlers keep: the filter panel carries one of its two
     * class lists, and a custom date range starts at midnight, ends at the last
     * millisecond of a day, and does not end before it starts.
     */
    predicate Valid()
      reads this`filterClass, this`startDate, this`endDate
    {
      PanelClass(filterClass) && DateRange(startDate, endDate)
    }

    /** The field initialisers. */
    constructor (formFactor: string, searchBar: ExpandableSearchBar?, inputs: map<string, string>)
      ensures Valid()
      ensures this.formFactor == formFactor && this.searchBar == searchBar && this.inputs == inputs
      ensures convoData == [] && conversations == []
      ensures offSet == 0 && offset == Absent && limitSize == 10
      ensures queryMore && isLoading && !hasScrolled
      ensures endDate == Unset && startDate == Unset && searchKey == ""
      ensures filterType == "All" && filterDate == "All"
      ensures totalConvoEntries == 0 && filterClass == FILTER_CLASSES
      ensures recId == None && itemType == None && detailHeaderTitle == None && !openRecordDetail
    {
      this.formFactor := formFactor;
      convoData := [];
      conversations := [];
      offSet := 0;
      offset := Absent;
      limitSize := 10;
      queryMore := true;
      isLoading := true;
      hasScrolled := false;
      endDate := Unset;
      startDate := Unset;
      searchKey := "";
      filterType := "All";
      filterDate := "All";
      totalConvoEntries := 0;
      filterClass := FILTER_CLASSES;
      recId := None;
      itemType := None;
      detailHeaderTitle := None;
      openRecordDetail := false;
      this.searchBar := searchBar;
      this.inputs := inputs;
    }

    // -------------------------------------------------------------------------
    // Getters

    /** `isMobile`: the form factor, lower-cased, is `small`. */
    predicate IsMobile()
    {
      ToLower(formFactor) == "small"
    }

    /** The lower-cased search key, the query `conversationThreads` searches with. */
    function Query(): string
      reads this`searchKey
    {
      ToLower(searchKey)
    }

    /** The thread list is searched only when there is a key and there are records. */
    predicate Searching()
      reads this`totalConvoEntries, this`searchKey
    {
      totalConvoEntries != 0 && Query() != ""
    }

    /**
     * `conversationThreads`: the groups as they are, or, while searching, the
     * search result (in the order `placement` stands for).
     */
    function ConversationThreads(placement: seq<nat>): (r: seq<Group>)
      reads this`totalConvoEntries, this`searchKey, this`conversations
      ensures !Searching() ==> r == conversations
      ensures Searching() ==> multiset(r) == multiset(Narrow(conversations, Query()))
    {
      if totalConvoEntries == 0 || Query() == "" then conversations
      else SearchConversations(conversations, Query(), placement)
    }

    /** `showNoData`: the threads shown hold no record. */
    predicate ShowNoData(placement: seq<nat>)
      reads this`totalConvoEntries, this`searchKey, this`conversations
    {
      ItemCount(ConversationThreads(placement)) == 0
    }

    /**
     * While searching, no data is shown exactly when no record of the groups
     * matches the query, whatever order the sort leaves; otherwise exactly when
     * every group is empty.
     */
    lemma ShowNoDataMeans(placement: seq<nat>)
      ensures Searching() ==>
        (ShowNoData(placement) <==> forall g, v | g in conversations && v in g.values :: !Matches(v, Query()))
      ensures !Searching() ==>
        (ShowNoData(placement) <==> forall g | g in conversations :: g.values == [])
    {
      if Searching() {
        assert ConversationThreads(placement) == SearchConversations(conversations, Query(), placement);
        SearchCountZero(conversations, Query(), placement);
      } else {
        ItemCountZero(conversations);
      }
    }

    /** `isFiltered`: a type, a date or a search filter is applied. */
    predicate IsFiltered()
      reads this`filterType, this`filterDate, this`searchKey
    {
      filterType != "All" || filterDate != "All" || |searchKey| > 0
    }

    /** `customDate`: the date filter, lower-cased, is `custom`. */
    predicate CustomDate()
      reads this`filterDate
    {
      ToLower(filterDate) == "custom"
    }

    /**
     * Of the date filter's options, exactly the last one, `Custom`, shows the
     * custom range inputs.
     */
    lemma CustomDateOfOption(i: int)
      requires 0 <= i < |DATE_FILTERS| && filterDate == DATE_FILTERS[i].value
      ensures CustomDate() <==> i == |DATE_FILTERS| - 1
    {
    }

    /** `minEndDate`: the start date's day, or null when there is no start date. */
    function MinEndDate(): (r: Option<int>)
      reads this`startDate
      ensures r.None? <==> startDate.Unset?
      ensures r.Some? ==> r.value == startDate.day
    {
      if startDate.Unset? then None else Some(startDate.day)
    }

    /** `maxStartDate`: the end date's day, or null when there is no end date. */
    function MaxStartDate(): (r: Option<int>)
      reads this`endDate
      ensures r.None? <==> endDate.Unset?
      ensures r.Some? ==> r.value == endDate.day
    {
      if endDate.Unset? then None else Some(endDate.day)
    }

    /** In a valid state the date bounds the inputs offer never cross. */
    lemma DateBoundsOrdered()
      requires Valid()
      ensures MinEndDate().Some? && MaxStartDate().Some? ==> MinEndDate().value <= MaxStartDate().value
    {
    }

    // -------------------------------------------------------------------------
    // The component's own handlers

    /**
     * `wiredData`: with data, the groups are rebuilt and counted; no records end
     * the paging, otherwise the scroll flag is lowered. An error only lowers the
     * loading flag; a response with neither leaves the component loading.
     */
    method WiredData(value: WireResponse)
      modifies this`convoData, this`conversations, this`totalConvoEntries, this`queryMore, this`hasScrolled
      modifies this`isLoading
      ensures value.data.Some? ==> convoData == value.data.value && conversations == Grouped(convoData)
      ensures value.data.Some? ==> totalConvoEntries == ItemCount(conversations) && !isLoading
      ensures value.data.Some? && totalConvoEntries == 0 ==> !queryMore && hasScrolled == old(hasScrolled)
      ensures value.data.Some? && totalConvoEntries != 0 ==> !hasScrolled && queryMore == old(queryMore)
      ensures value.data.None? ==>
        convoData == old(convoData) && conversations == old(conversations)
        && totalConvoEntries == old(totalConvoEntries)
        && queryMore == old(queryMore) && hasScrolled == old(hasScrolled)
        && isLoading == !value.error
    {
      isLoading := true;
      if value.data.Some? {
        var data := value.data.value;
        var grouped := GroupWiredConvos(data);
        var count := ItemCount(grouped);
        var more, scrolled := queryMore, hasScrolled;
        if count == 0 {
          more := false;
        } else {
          scrolled := false;
        }
        convoData, conversations, totalConvoEntries := data, grouped, count;
        queryMore, hasScrolled, isLoading := more, scrolled, false;
      } else if value.error {
        isLoading := false;
      }
    }

    /** `handleSearchInput`: the search key becomes the input. */
    method HandleSearchInput(input: string)
      modifies this`searchKey
      ensures searchKey == input
    {
      searchKey := input;
    }

    /**
     * `handleItemClicked` on anything but a reply button: remember the item and
     * open the detail modal under the title for its type.
     */
    method HandleItemClicked(id: Option<string>, itemType: Option<string>)
      modifies this`recId, this`itemType, this`detailHeaderTitle, this`openRecordDetail
      ensures recId == id && this.itemType == itemType && openRecordDetail
      ensures detailHeaderTitle == Some(DetailModalTitle(Display(itemType), IsMobile()))
    {
      recId := id;
      this.itemType := itemType;
      detailHeaderTitle := Some(DetailModalTitle(Display(itemType), IsMobile()));
      openRecordDetail := true;
    }

    /** `closeModal`. */
    method CloseModal()
      modifies this`openRecordDetail
      ensures !openRecordDetail
    {
      openRecordDetail := false;
    }

    /**
     * `applyFilters`: the list is emptied and paging restarts; a `type` filter
     * sets only the type, a `date` filter only the date, any other kind neither.
     */
    method ApplyFilters(filterKind: string, selectedValue: string)
      modifies this`conversations, this`hasScrolled, this`queryMore, this`isLoading, this`offSet
      modifies this`filterType, this`filterDate
      ensures conversations == [] && !hasScrolled && queryMore && isLoading && offSet == 0
      ensures filterType == (if filterKind == "type" then selectedValue else old(filterType))
      ensures filterDate == (if filterKind == "date" then selectedValue else old(filterDate))
    {
      conversations := [];
      hasScrolled := false;
      queryMore := true;
      isLoading := true;
      if filterKind == "type" {
        filterType := selectedValue;
      } else if filterKind == "date" {
        filterDate := selectedValue;
      }
      offSet := 0;
    }

    // -------------------------------------------------------------------------
    // Handlers delegated to the filter and sort helpers

    /**
     * Whether `handleDateChange` throws before it resets anything: a cleared
     * start date is turned into an invalid date whose `toISOString` throws,
     * unless the comparison with the end date fails first (an end date before
     * 1970, where `'' <= date` compares 0 with a negative number).
     */
    predicate DateChangeThrows(property: string, value: DateInput)
      reads this`endDate
    {
      property == "startDate" && value.Cleared? && (endDate.Unset? || endDate.day >= 0)
    }

    /**
     * `handleDateChange`. A start date is taken only while there is no end date:
     * with an end date, a picked `YYYY-MM-DD` string compares with a `Date` as
     * `NaN`, which is never `<=`. An end date is taken when it is not before the
     * start date's day (or, with no start date, not before 1970-01-01, the date
     * `new Date(null)` gives) and is moved to the day's last millisecond. Unless
     * the handler throws, the list is emptied and paging restarts.
     */
    method HandleDateChange(property: string, value: DateInput)
      requires Valid()
      modifies this`startDate, this`endDate, this`conversations, this`queryMore, this`hasScrolled, this`offSet
      ensures Valid()
      ensures old(DateChangeThrows(property, value)) ==>
        conversations == old(conversations) && startDate == old(startDate) && endDate == old(endDate)
        && queryMore == old(queryMore) && hasScrolled == old(hasScrolled) && offSet == old(offSet)
      ensures !old(DateChangeThrows(property, value)) ==>
        conversations == [] && queryMore && !hasScrolled && offSet == 0
      ensures startDate ==
        if property == "startDate" && value.Picked? && old(endDate).Unset? then At(value.day, 0)
        else old(startDate)
      ensures endDate ==
        if property == "endDate" && value.Picked?
           && value.day >= (if old(startDate).Unset? then 0 else old(startDate).day)
        then At(value.day, END_OF_DAY)
        else old(endDate)
    {
      if DateChangeThrows(property, value) {
        return;
      }
      if property == "startDate" {
        if endDate.Unset? && value.Picked? {
          startDate := At(value.day, 0);
        }
      } else if property == "endDate" {
        var minDay := if startDate.Unset? then 0 else startDate.day;
        if value.Picked? && value.day >= minDay {
          endDate := At(value.day, END_OF_DAY);
        }
      }
      conversations := [];
      queryMore := true;
      hasScrolled := false;
      offSet := 0;
    }

    /** `toggleFiltersModal`: the panel's class list is toggled. */
    method ToggleFiltersModal()
      requires Valid()
      modifies this`filterClass
      ensures Valid()
      ensures filterClass == Toggled(old(filterClass))
      ensures Includes(old(filterClass), CLOSED_TOKEN) <==> Includes(filterClass, OPEN_TOKEN)
    {
      PanelClassTransitions(filterClass);
      filterClass := Toggled(filterClass);
    }

    /** `closeFiltersModal`: the panel ends closed. */
    method CloseFiltersModal()
      requires Valid()
      modifies this`filterClass
      ensures Valid()
      ensures filterClass == Closed(old(filterClass)) == TRIGGER_CLASSES + CLOSED_TOKEN
      ensures old(filterClass) == TRIGGER_CLASSES + CLOSED_TOKEN ==> filterClass == old(filterClass)
    {
      PanelClassTransitions(filterClass);
      filterClass := Closed(filterClass);
    }

    // -------------------------------------------------------------------------
    // Handlers delegated to the view helpers

    /** The search bar, if rendered, is closed. */
    predicate SearchBarClosed()
      reads searchBar
    {
      searchBar != null ==> !searchBar.searchIsOpen
    }

    /**
     * `clearAndCloseSearch`: the key is emptied, and the search bar's
     * `clearSearch` is called only when the bar is rendered and open.
     */
    method ClearAndCloseSearch()
      modifies this`searchKey, searchBar
      ensures searchKey == "" && SearchBarClosed()
      ensures old(SearchBarClosed()) ==> searchBar == null || unchanged(searchBar)
    {
      searchKey := "";
      if searchBar != null {
        if searchBar.searchIsOpen {
          searchBar.ClearSearch();
        }
      }
    }

    /**
     * The `forEach` of `clearAllFilters` over data-ids: each of those inputs
     * that is rendered is emptied.
     */
    method ClearInputs(elementIds: seq<string>)
      modifies this`inputs
      ensures inputs == ClearedBy(old(inputs), elementIds)
    {
      var i := 0;
      while i < |elementIds|
        invariant 0 <= i <= |elementIds|
        invariant inputs == ClearedBy(old(inputs), elementIds[..i])
      {
        var id := elementIds[i];
        ClearedByStep(old(inputs), elementIds[..i], id);
        assert elementIds[..i + 1] == elementIds[..i] + [id];
        if id in inputs {
          inputs := inputs[id := ""];
        }
        i := i + 1;
      }
      assert elementIds[..i] == elementIds;
    }

    /** Every filter at its cleared value. */
    predicate AllCleared()
      reads this`filterType, this`filterDate, this`startDate, this`endDate, this`searchKey, this`queryMore
      reads this`hasScrolled, this`offset, this`filterClass, searchBar, this`inputs
    {
      filterType == "All" && filterDate == "All" && startDate == Unset && endDate == Unset
      && searchKey == "" && queryMore && !hasScrolled && offset == Finite(0)
      && filterClass == FILTER_CLASSES && SearchBarClosed()
      && inputs == ClearedInputs(inputs)
    }

    /** With every filter cleared, nothing counts as filtered. */
    lemma ClearedIsNotFiltered()
      ensures AllCleared() ==> !IsFiltered()
    {
    }

    /**
     * `clearAllFilters`: every filter is cleared and the panel closed. The
     * handler writes `offset`, not `offSet`, so the paging offset and the list
     * are left as they were. Clearing a cleared component changes nothing.
     */
    method ClearAllFilters()
      requires Valid()
      modifies this`filterClass, this`searchKey, searchBar, this`offset, this`queryMore, this`hasScrolled
      modifies this`startDate, this`endDate, this`filterDate, this`filterType, this`inputs
      ensures Valid()
      ensures filterType == "All" && filterDate == "All" && startDate == Unset && endDate == Unset
      ensures searchKey == "" && queryMore && !hasScrolled && offset == Finite(0)
      ensures filterClass == FILTER_CLASSES && SearchBarClosed()
      ensures inputs == ClearedInputs(old(inputs))
      ensures old(AllCleared()) ==> unchanged(this) && (searchBar == null || unchanged(searchBar))
    {
      CloseFiltersModal();
      ClearAndCloseSearch();
      offset := Finite(0);
      queryMore := true;
      hasScrolled := false;
      startDate := Unset;
      endDate := Unset;
      filterDate := "All";
      filterType := "All";
      ClearInputs(CLEARED_INPUTS);
      ClearedInputsIdempotent(old(inputs));
    }
  }

  /**
   * The scroll positions last recorded for every component on the page, keyed
   * by component, and `handleScroll`.
   */
  class ScrollMonitor {
    var positions: map<ConversationViewHistory, int>

    constructor ()
      ensures positions == map[]
    {
      positions := map[];
    }

    /** The last recorded position of a component; one never recorded counts as 0. */
    function LastPosition(cmp: ConversationViewHistory): int
      reads this`positions
    {
      if cmp in positions then positions[cmp] else 0
    }

    /**
     * `handleScroll`. With no scrollable section it throws and changes nothing.
     * A downward scroll of more than 500 raises the loading flag and records the
     * new bottom; a scroll up, or none, records the new top; a smaller downward
     * scroll records nothing. At the bottom, with more to load and `offSet`
     * below 2000, the scroll flag is raised and `offset` (not `offSet`) grows by
     * the page size. Other components' positions are untouched.
     */
    method HandleScroll(cmp: ConversationViewHistory, section: Option<Section>)
      modifies this`positions, cmp`isLoading, cmp`offset, cmp`hasScrolled
      ensures section.None? ==> positions == old(positions) && unchanged(cmp)
      ensures section.Some? ==>
        var current := section.value.scrollTop + section.value.clientHeight;
        var last := old(LastPosition(cmp));
        && (current > last && current - last > SCROLL_THRESHOLD ==>
              positions == old(positions)[cmp := current] && cmp.isLoading)
        && (current > last && current - last <= SCROLL_THRESHOLD ==>
              positions == old(positions) && cmp.isLoading == old(cmp.isLoading))
        && (current <= last ==>
              positions == old(positions)[cmp := section.value.scrollTop]
              && cmp.isLoading == old(cmp.isLoading))
        && (old(cmp.queryMore) && current >= section.value.scrollHeight && old(cmp.offSet) < MAX_OFFSET ==>
              cmp.hasScrolled && cmp.offset == AddLoose(old(cmp.offset), old(cmp.limitSize)))
        && (!(old(cmp.queryMore) && current >= section.value.scrollHeight && old(cmp.offSet) < MAX_OFFSET) ==>
              cmp.hasScrolled == old(cmp.hasScrolled) && cmp.offset == old(cmp.offset))
      ensures forall other | other in old(positions) && other != cmp :: other in positions && positions[other] == old(positions)[other]
    {
      if section.None? {
        return;
      }
      var mainDiv := section.value;
      var lastScrollPosition := LastPosition(cmp);
      var currentScroll := mainDiv.scrollTop + mainDiv.clientHeight;
      var isScrollingDown := currentScroll > lastScrollPosition;

      if isScrollingDown && currentScroll - lastScrollPosition > SCROLL_THRESHOLD {
        cmp.isLoading := true;
        positions := positions[cmp := currentScroll];
      } else if !isScrollingDown {
        positions := positions[cmp := currentScroll - mainDiv.clientHeight];
      }

      if cmp.queryMore && currentScroll >= mainDiv.scrollHeight && cmp.offSet < MAX_OFFSET {
        cmp.offset := AddLoose(cmp.offset, cmp.limitSize);
        cmp.hasScrolled := true;
      }
    }
  }
}
