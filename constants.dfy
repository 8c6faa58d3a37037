/**
 * The constants and small lookup functions the conversation-history view
 * shares: the filter option tables, the CSS classes of the filter panel, the
 * newest-first date comparator, the docked-composer setting and the title of
 * the detail modal.
 */
module Constants {
  import opened Js
  import opened Text

  /** One option of a filter picklist. */
  datatype FilterOption = FilterOption(labelText: string, value: string)

  /** Options of the item-type filter. */
  const TYPE_FILTERS: seq<FilterOption> := [
    FilterOption("All", "All"),
    FilterOption("Call", "Call"),
    FilterOption("Email", "Email"),
    FilterOption("SMS", "SMS"),
    FilterOption("Custom", "Custom")
  ]

  /** Options of the created-date filter. */
  const DATE_FILTERS: seq<FilterOption> := [
    FilterOption("All", "All"),
    FilterOption("Today", "Today"),
    FilterOption("This Week", "This Week"),
    FilterOption("This Month", "This Month"),
    FilterOption("Custom", "Custom")
  ]

  /** A picklist whose first option is `All` and whose labels are their values. */
  predicate WellFormedOptions(options: seq<FilterOption>)
  {
    |options| == 5 && options[0] == FilterOption("All", "All")
    && forall i | 0 <= i < |options| :: options[i].labelText == options[i].value
  }

  /** Both filter tables have five options, start with `All` and label each option by its value. */
  lemma FilterTablesWellFormed()
    ensures WellFormedOptions(TYPE_FILTERS) && WellFormedOptions(DATE_FILTERS)
  {
  }

  // ---------------------------------------------------------------------------
  // CSS classes of the filter panel

  /** The prefix shared by the two dropdown classes. */
  const DROPDOWN_PREFIX: string := "slds-dropdown-"

  /**
   * The dropdown classes every state of the panel carries, ending with a space:
   * `slds-dropdown-trigger slds-dropdown-trigger_click `.
   */
  const TRIGGER_CLASSES: string := DROPDOWN_PREFIX + "trigger " + DROPDOWN_PREFIX + "trigger_click "
  const CLOSED_TOKEN: string := "slds-is-closed"
  const OPEN_TOKEN: string := "slds-is-open"

  /** The initial class list of the filter panel: the closed panel. */
  const FILTER_CLASSES: string := TRIGGER_CLASSES + CLOSED_TOKEN

  /** The two class lists the panel can carry: closed or open. */
  predicate PanelClass(c: string)
  {
    c == TRIGGER_CLASSES + CLOSED_TOKEN || c == TRIGGER_CLASSES + OPEN_TOKEN
  }

  predicate IsToken(t: string)
  {
    t == CLOSED_TOKEN || t == OPEN_TOKEN
  }

  /** No `-` is directly followed by `i` in `s`. */
  ghost predicate NoDashI(s: string)
  {
    forall j | 0 <= j < |s| - 1 :: !(s[j] == '-' && s[j + 1] == 'i')
  }

  /** A prefix that neither contains a `-i` pair nor can start one across its end. */
  ghost predicate InertPrefix(p: string)
  {
    NoDashI(p) && (|p| > 0 ==> p[|p| - 1] != '-')
  }

  /** Joining two pieces keeps `NoDashI` when no `-i` pair straddles the seam. */
  lemma NoDashIJoin(a: string, b: string)
    requires NoDashI(a) && NoDashI(b)
    requires |a| > 0 && |b| > 0 ==> !(a[|a| - 1] == '-' && b[0] == 'i')
    ensures NoDashI(a + b)
  {
    var s := a + b;
    forall j | 0 <= j < |s| - 1
      ensures !(s[j] == '-' && s[j + 1] == 'i')
    {
      if j + 1 < |a| {
        assert s[j] == a[j] && s[j + 1] == a[j + 1];
      } else if j == |a| - 1 {
        assert s[j] == a[|a| - 1] && s[j + 1] == b[0];
      } else {
        assert s[j] == b[j - |a|] && s[j + 1] == b[j + 1 - |a|];
      }
    }
  }

  /** A piece without `-`, or without `i`, holds no `-i` pair. */
  lemma NoDashIOfPiece(s: string)
    requires '-' !in s || 'i' !in s
    ensures NoDashI(s)
  {
    forall j | 0 <= j < |s| - 1
      ensures !(s[j] == '-' && s[j + 1] == 'i')
    {
      assert s[j] in s && s[j + 1] in s;
    }
  }

  /** Which of `-` and `i` each piece of the dropdown classes lacks. */
  lemma TriggerClassesPieceChars()
    ensures 'i' !in DROPDOWN_PREFIX && '-' !in "trigger " && '-' !in "trigger_click "
  {
  }

  /** The characters on either side of each cut. */
  lemma TriggerClassesSeams()
    ensures DROPDOWN_PREFIX[0] == 's' && DROPDOWN_PREFIX[13] == '-'
    ensures "trigger "[0] == 't' && "trigger "[7] == ' '
    ensures "trigger_click "[0] == 't' && "trigger_click "[13] == ' '
  {
  }

  /** The dropdown classes are an inert prefix. */
  lemma TriggerClassesInert()
    ensures InertPrefix(TRIGGER_CLASSES)
  {
    var a, b, c := DROPDOWN_PREFIX, "trigger ", "trigger_click ";
    TriggerClassesPieceChars();
    TriggerClassesSeams();
    NoDashIOfPiece(a);
    NoDashIOfPiece(b);
    NoDashIOfPiece(c);
    NoDashIJoin(a, b);
    assert (a + b)[|a + b| - 1] == b[7];
    NoDashIJoin(a + b, a);
    assert (a + b + a)[|a + b + a| - 1] == a[13];
    NoDashIJoin(a + b + a, c);
    assert TRIGGER_CLASSES[|TRIGGER_CLASSES| - 1] == c[13];
  }

  /** In a token, the only `-i` pair is the one at index 4. */
  lemma TokenDashI(t: string, j: int)
    requires IsToken(t)
    requires 0 <= j < |t| - 1 && t[j] == '-' && t[j + 1] == 'i'
    ensures j == 4
  {
  }

  /** In an inert prefix followed by a token, the only `-i` pair is the token's own. */
  lemma DashIAfterPrefix(p: string, t: string, j: int)
    requires InertPrefix(p) && IsToken(t)
    requires 0 <= j < |p + t| - 1 && (p + t)[j] == '-' && (p + t)[j + 1] == 'i'
    ensures j == |p| + 4
  {
    var s := p + t;
    if j >= |p| {
      assert s[j] == t[j - |p|] && s[j + 1] == t[j + 1 - |p|];
      TokenDashI(t, j - |p|);
    }
  }

  /** Neither token is a prefix of the other. */
  lemma TokensDiffer(t: string, u: string)
    requires IsToken(t) && IsToken(u) && t != u
    ensures !(u <= t)
  {
    assert t[8] != u[8];
  }

  /** A token found in an inert prefix followed by a token starts right after the prefix. */
  lemma TokenOnlyAfterPrefix(p: string, t: string, u: string, k: int)
    requires InertPrefix(p) && IsToken(t) && IsToken(u)
    requires 0 <= k <= |p + t| && u <= (p + t)[k..]
    ensures k == |p|
  {
    var s := p + t;
    assert u[4] == '-' && u[5] == 'i';
    assert s[k + 4] == u[4] && s[k + 5] == u[5];
    DashIAfterPrefix(p, t, k + 4);
  }

  /**
   * In an inert prefix followed by a token, a token can only be found right after
   * the prefix, and it is found there exactly when it is the token that follows.
   */
  lemma TokenIndex(p: string, t: string, u: string)
    requires InertPrefix(p) && IsToken(t) && IsToken(u)
    ensures IndexOf(p + t, u) == if t == u then |p| else -1
  {
    var s := p + t;
    var r := IndexOf(s, u);
    assert s[|p|..] == t;
    if r >= 0 {
      TokenOnlyAfterPrefix(p, t, u, r);
      if t != u {
        TokensDiffer(t, u);
      }
    }
  }

  /** The panel starts closed: its classes hold `slds-is-closed` and not `slds-is-open`. */
  lemma FilterClassesStartClosed()
    ensures Includes(FILTER_CLASSES, CLOSED_TOKEN)
    ensures !Includes(FILTER_CLASSES, OPEN_TOKEN)
  {
    TriggerClassesInert();
    TokenIndex(TRIGGER_CLASSES, CLOSED_TOKEN, CLOSED_TOKEN);
    TokenIndex(TRIGGER_CLASSES, CLOSED_TOKEN, OPEN_TOKEN);
  }

  // ---------------------------------------------------------------------------
  // Newest-first comparator on `createdDate`

  /**
   * `a.createdDate > b.createdDate` on two possibly missing date strings: a
   * missing date compares false against anything.
   */
  predicate DateAfter(a: Option<string>, b: Option<string>)
  {
    a.Some? && b.Some? && StrLess(b.value, a.value)
  }

  /** The comparator: -1 when `a` is newer, 1 when `b` is newer, 0 otherwise. */
  function CompareDatesDesc(a: Option<string>, b: Option<string>): (r: int)
    ensures r == -1 || r == 0 || r == 1
    ensures r == 0 <==> !DateAfter(a, b) && !DateAfter(b, a)
  {
    if DateAfter(a, b) then -1
    else if DateAfter(b, a) then 1
    else 0
  }

  /** Swapping the arguments negates the result. */
  lemma CompareDatesDescAntisymmetric(a: Option<string>, b: Option<string>)
    ensures CompareDatesDesc(a, b) == -CompareDatesDesc(b, a)
  {
    if DateAfter(a, b) {
      StrLessAsymmetric(b.value, a.value);
    }
  }

  /** Two present dates compare equal exactly when they are the same string. */
  lemma CompareDatesDescZero(a: string, b: string)
    ensures CompareDatesDesc(Some(a), Some(b)) == 0 <==> a == b
  {
    if a == b {
      StrLessIrreflexive(a);
    } else {
      StrLessTotal(a, b);
    }
  }

  /** On present dates, "in order" means the first is not earlier than the second. */
  lemma CompareDatesDescInOrder(a: string, b: string)
    ensures CompareDatesDesc(Some(a), Some(b)) <= 0 <==> !StrLess(a, b)
  {
    if StrLess(a, b) {
      StrLessAsymmetric(a, b);
    }
  }

  /** On present dates the comparator is transitive. */
  lemma CompareDatesDescTransitive(a: string, b: string, c: string)
    requires CompareDatesDesc(Some(a), Some(b)) <= 0
    requires CompareDatesDesc(Some(b), Some(c)) <= 0
    ensures CompareDatesDesc(Some(a), Some(c)) <= 0
  {
    CompareDatesDescInOrder(a, b);
    CompareDatesDescInOrder(b, c);
    CompareDatesDescInOrder(a, c);
    if a != b && b != c {
      StrLessTotal(a, b);
      StrLessTotal(b, c);
      StrLessTransitive(c, b, a);
      StrLessAsymmetric(c, a);
    }
  }

  /** Every neighbouring pair is in order according to the comparator. */
  predicate AdjacentSorted(dates: seq<string>)
  {
    forall i | 0 <= i < |dates| - 1 :: CompareDatesDesc(Some(dates[i]), Some(dates[i + 1])) <= 0
  }

  /** A list sorted by the comparator is newest first: no date precedes a later one. */
  lemma {:induction false} SortedIsNewestFirst(dates: seq<string>)
    requires AdjacentSorted(dates)
    ensures forall i, j | 0 <= i < j < |dates| :: !StrLess(dates[i], dates[j])
  {
    if |dates| > 1 {
      SortedIsNewestFirst(dates[1..]);
      forall j | 0 < j < |dates|
        ensures CompareDatesDesc(Some(dates[0]), Some(dates[j])) <= 0
      {
        NewestFirstHead(dates, j);
      }
      forall i, j | 0 <= i < j < |dates|
        ensures !StrLess(dates[i], dates[j])
      {
        if i == 0 {
          CompareDatesDescInOrder(dates[0], dates[j]);
        } else {
          assert dates[i] == dates[1..][i - 1] && dates[j] == dates[1..][j - 1];
        }
      }
    }
  }

  /** In an adjacent-sorted list the head is in order with every later element. */
  lemma {:induction false} NewestFirstHead(dates: seq<string>, j: int)
    requires AdjacentSorted(dates) && 0 < j < |dates|
    ensures CompareDatesDesc(Some(dates[0]), Some(dates[j])) <= 0
  {
    if j > 1 {
      NewestFirstHead(dates, j - 1);
      CompareDatesDescTransitive(dates[0], dates[j - 1], dates[j]);
    }
  }

  // ---------------------------------------------------------------------------
  // Org settings and modal title

  const DOCKED_COMPOSER_FIELD: string := "DS_Packages__Disable_Docked_Email_Composer__c"

  /**
   * The docked composer is on when the org settings hold the disabling field
   * with the value `false` itself (strict comparison).
   */
  predicate DockedComposerEnabled(orgSettings: Option<map<string, JsValue>>)
  {
    orgSettings.Some? && DOCKED_COMPOSER_FIELD in orgSettings.value
    && orgSettings.value[DOCKED_COMPOSER_FIELD] == Bool(false)
  }

  /**
   * Missing settings, a missing field, or any value other than `false` (even a
   * falsy one such as `null`, `0` or `''`) leave the composer disabled.
   */
  lemma DockedComposerCases(orgSettings: Option<map<string, JsValue>>)
    ensures orgSettings.None? ==> !DockedComposerEnabled(orgSettings)
    ensures orgSettings.Some? && DOCKED_COMPOSER_FIELD !in orgSettings.value ==> !DockedComposerEnabled(orgSettings)
    ensures DockedComposerEnabled(orgSettings) ==> !Truthy(orgSettings.value[DOCKED_COMPOSER_FIELD])
    ensures orgSettings.Some? && DOCKED_COMPOSER_FIELD in orgSettings.value
      && orgSettings.value[DOCKED_COMPOSER_FIELD] in {Null, Undefined, Num(0), Str(""), Bool(true)}
      ==> !DockedComposerEnabled(orgSettings)
  {
  }

  const DEFAULT_TITLE: string := "Conversation Details"

  /** The detail modal's title for an item type: the bare type on a phone, a longer one elsewhere. */
  function DetailModalTitle(itemType: string, isMobile: bool): (r: string)
    ensures itemType in {"Email", "SMS", "Call"} && isMobile ==> r == itemType
    ensures itemType !in {"Email", "SMS", "Call"} ==> r == DEFAULT_TITLE
    ensures r != ""
  {
    if itemType == "Email" then (if isMobile then "Email" else "Email Conversation")
    else if itemType == "SMS" then (if isMobile then "SMS" else "SMS History")
    else if itemType == "Call" then (if isMobile then "Call" else "Call Details")
    else DEFAULT_TITLE
  }

  /** Off mobile, each known type gets its long title, and `Custom` gets the default. */
  lemma DetailModalTitleDesktop()
    ensures DetailModalTitle("Email", false) == "Email Conversation"
    ensures DetailModalTitle("SMS", false) == "SMS History"
    ensures DetailModalTitle("Call", false) == "Call Details"
    ensures forall m: bool :: DetailModalTitle("Custom", m) == DEFAULT_TITLE
  {
  }
}
