/**
 * The list transforms and class-string updates behind the filter bar:
 * grouping the server's map into `{key, values}` groups, narrowing the groups
 * by a search query, the sort that follows the search, and opening and closing
 * the filter panel by swapping its `slds-is-closed`/`slds-is-open` class.
 */
module FilterSortHelpers {
  import opened Js
  import opened Text
  import opened ConvoData
  import opened Constants
  import opened Helpers

  // ---------------------------------------------------------------------------
  // Grouping

  /** One group per entry of the server's map, keeping its key and its record list. */
  function Grouped(convoData: ConvoMap): (groups: seq<Group>)
    ensures |groups| == |convoData|
  {
    if convoData == [] then []
    else Grouped(convoData[..|convoData| - 1])
         + [Group(convoData[|convoData| - 1].0, convoData[|convoData| - 1].1)]
  }

  /**
   * The groups relabel the map entry for entry, in order, and so hold as many
   * records as the map.
   */
  lemma {:induction false} GroupedRelabels(convoData: ConvoMap)
    ensures forall i | 0 <= i < |convoData| ::
      Grouped(convoData)[i].key == convoData[i].0 && Grouped(convoData)[i].values == convoData[i].1
    ensures ItemCount(Grouped(convoData)) == MapItemCount(convoData)
  {
    if convoData != [] {
      GroupedRelabels(convoData[..|convoData| - 1]);
    }
    ItemCountOfRelabelled(Grouped(convoData), convoData);
  }

  /**
   * `groupWiredConvos`: one group per own key of the server's map, in `for…in`
   * order, whose `values` is that key's record list itself.
   */
  method GroupWiredConvos(convoData: ConvoMap) returns (conversations: seq<Group>)
    ensures conversations == Grouped(convoData)
  {
    conversations := [];
    var i := 0;
    while i < |convoData|
      invariant 0 <= i <= |convoData|
      invariant conversations == Grouped(convoData[..i])
    {
      var (key, valuesArray) := convoData[i];
      assert convoData[..i + 1][..i] == convoData[..i];
      conversations := conversations + [Group(key, valuesArray)];
      i := i + 1;
    }
    assert convoData[..i] == convoData;
  }

  // ---------------------------------------------------------------------------
  // Search

  /** `val[prop]?.toLowerCase()?.includes(query)` for one property. */
  predicate FieldMatches(field: Option<string>, query: string)
  {
    field.Some? && Includes(ToLower(field.value), query)
  }

  /** A record matches when its body, subject, phone or email contains the query. */
  predicate Matches(r: ConvoRecord, query: string)
  {
    FieldMatches(r.body, query) || FieldMatches(r.subject, query)
    || FieldMatches(r.phone, query) || FieldMatches(r.email, query)
  }

  /** The records of a group that match the query, in their order. */
  function FilterRecords(values: seq<ConvoRecord>, query: string): (kept: seq<ConvoRecord>)
    ensures |kept| <= |values|
  {
    if values == [] then []
    else (if Matches(values[0], query) then [values[0]] else []) + FilterRecords(values[1..], query)
  }

  /** A record is kept exactly when it is one of the group's records and matches. */
  lemma {:induction false} FilterRecordsKeepsMatches(values: seq<ConvoRecord>, query: string, v: ConvoRecord)
    ensures v in FilterRecords(values, query) <==> v in values && Matches(v, query)
  {
    if values != [] {
      FilterRecordsKeepsMatches(values[1..], query, v);
      assert values == [values[0]] + values[1..];
    }
  }

  /** Filtering distributes over concatenation, so kept records keep their relative order. */
  lemma {:induction false} FilterRecordsAppend(a: seq<ConvoRecord>, b: seq<ConvoRecord>, query: string)
    ensures FilterRecords(a + b, query) == FilterRecords(a, query) + FilterRecords(b, query)
  {
    if a == [] {
      assert a + b == b;
    } else {
      var head := if Matches(a[0], query) then [a[0]] else [];
      assert (a + b)[1..] == a[1..] + b;
      assert (a + b)[0] == a[0];
      calc {
        FilterRecords(a + b, query);
        head + FilterRecords(a[1..] + b, query);
        { FilterRecordsAppend(a[1..], b, query); }
        head + (FilterRecords(a[1..], query) + FilterRecords(b, query));
        FilterRecords(a, query) + FilterRecords(b, query);
      }
    }
  }

  /** `{ ...convo, values }`: a fresh group with the same key and the matching records. */
  function Narrowed(g: Group, query: string): Group
  {
    Group(g.key, FilterRecords(g.values, query))
  }

  /** The groups narrowed to their matching records, groups left empty dropped. */
  function Narrow(groups: seq<Group>, query: string): (r: seq<Group>)
    ensures |r| <= |groups|
  {
    if groups == [] then []
    else Kept(groups[0], query) + Narrow(groups[1..], query)
  }

  /** One group's contribution to the narrowing: itself narrowed, unless that leaves it empty. */
  function Kept(g: Group, query: string): (r: seq<Group>)
    ensures |r| <= 1
  {
    var n := Narrowed(g, query);
    if n.values != [] then [n] else []
  }

  /** Every group the narrowing keeps is non-empty and is an input group, narrowed. */
  lemma {:induction false} NarrowKeepsNarrowed(groups: seq<Group>, query: string, g: Group)
    requires g in Narrow(groups, query)
    ensures g.values != []
    ensures exists h | h in groups :: g == Narrowed(h, query)
  {
    var first := Narrowed(groups[0], query);
    if !(first.values != [] && g == first) {
      NarrowKeepsNarrowed(groups[1..], query, g);
      var h :| h in groups[1..] && g == Narrowed(h, query);
      assert h in groups;
    }
  }

  /** Every input group with a matching record is kept, narrowed. */
  lemma {:induction false} NarrowKeepsEveryMatch(groups: seq<Group>, query: string, h: Group)
    requires h in groups && Narrowed(h, query).values != []
    ensures Narrowed(h, query) in Narrow(groups, query)
  {
    if h != groups[0] {
      assert h in groups[1..];
      NarrowKeepsEveryMatch(groups[1..], query, h);
    }
  }

  /** Narrowing distributes over concatenation, so kept groups keep their relative order. */
  lemma {:induction false} NarrowAppend(a: seq<Group>, b: seq<Group>, query: string)
    ensures Narrow(a + b, query) == Narrow(a, query) + Narrow(b, query)
  {
    if a == [] {
      assert a + b == b;
    } else {
      var head := Kept(a[0], query);
      assert (a + b)[1..] == a[1..] + b;
      assert (a + b)[0] == a[0];
      calc {
        Narrow(a + b, query);
        head + Narrow(a[1..] + b, query);
        { NarrowAppend(a[1..], b, query); }
        head + (Narrow(a[1..], query) + Narrow(b, query));
        Narrow(a, query) + Narrow(b, query);
      }
    }
  }

  /** A record is in some narrowed group exactly when it is in some input group and matches. */
  lemma NarrowFindsExactlyMatches(groups: seq<Group>, query: string, v: ConvoRecord)
    ensures (exists g | g in Narrow(groups, query) :: v in g.values)
      <==> Matches(v, query) && exists h | h in groups :: v in h.values
  {
    if exists h | h in groups :: v in h.values && Matches(v, query) {
      var h :| h in groups && v in h.values && Matches(v, query);
      FilterRecordsKeepsMatches(h.values, query, v);
      NarrowKeepsEveryMatch(groups, query, h);
    }
    if exists g | g in Narrow(groups, query) :: v in g.values {
      var g :| g in Narrow(groups, query) && v in g.values;
      NarrowKeepsNarrowed(groups, query, g);
      var h :| h in groups && g == Narrowed(h, query);
      FilterRecordsKeepsMatches(h.values, query, v);
    }
  }

  /** Narrowing leaves no record exactly when no record of any group matches. */
  lemma NarrowCountZero(groups: seq<Group>, query: string)
    ensures ItemCount(Narrow(groups, query)) == 0
      <==> forall g, v | g in groups && v in g.values :: !Matches(v, query)
  {
    var r := Narrow(groups, query);
    ItemCountZero(r);
    if exists g, v | g in groups && v in g.values :: Matches(v, query) {
      var g, v :| g in groups && v in g.values && Matches(v, query);
      NarrowFindsExactlyMatches(groups, query, v);
    } else {
      forall g | g in r ensures g.values == [] {
        if g.values != [] {
          NarrowFindsExactlyMatches(groups, query, g.values[0]);
        }
      }
    }
  }

  // ---------------------------------------------------------------------------
  // The sort after the search

  /** The sort's comparator `(a.createdDate > b.createdDate) ? -1 : 1` on two dates. */
  function SearchComparator(a: Option<string>, b: Option<string>): int
  {
    if DateAfter(a, b) then -1 else 1
  }

  /** The `createdDate` property of a group: groups do not carry one. */
  function GroupCreatedDate(g: Group): Option<string>
  {
    None
  }

  /**
   * On groups the comparator answers 1 both ways round, so it reports every pair
   * as out of order in both directions and never as a tie: it is not a
   * consistent order, and the order the engine's sort produces is not defined.
   */
  lemma SearchComparatorOnGroups(a: Group, b: Group)
    ensures SearchComparator(GroupCreatedDate(a), GroupCreatedDate(b)) == 1
    ensures SearchComparator(GroupCreatedDate(b), GroupCreatedDate(a)) == 1
  {
  }

  /** Even between dated items the comparator never answers 0. */
  lemma SearchComparatorNeverTies(a: Option<string>, b: Option<string>)
    ensures SearchComparator(a, b) != 0
  {
  }

  /** Inserting a group adds its records to the count. */
  lemma InsertCount(s: seq<Group>, i: nat, x: Group)
    requires i <= |s|
    ensures ItemCount(s[..i] + [x] + s[i..]) == ItemCount(s) + |x.values|
  {
    ItemCountAppend(s[..i], [x]);
    ItemCountAppend(s[..i] + [x], s[i..]);
    ItemCountAppend(s[..i], s[i..]);
    assert s == s[..i] + s[i..];
    assert ItemCount([x]) == ItemCount([]) + |x.values|;
  }

  /** `s` with `x` inserted at position `i`. */
  function Insert(s: seq<Group>, i: nat, x: Group): (r: seq<Group>)
    requires i <= |s|
    ensures |r| == |s| + 1
    ensures multiset(r) == multiset(s) + multiset{x}
    ensures ItemCount(r) == ItemCount(s) + |x.values|
  {
    InsertCount(s, i, x);
    assert s == s[..i] + s[i..];
    s[..i] + [x] + s[i..]
  }

  /**
   * `Array.prototype.sort` under a comparator that is not a consistent order:
   * the result is some permutation chosen by the engine. `placement[n]` is the
   * position (clamped) at which the engine's sort places the `n`-th element
   * among those before it; every permutation arises from some placement, and
   * the empty placement keeps the input order.
   */
  function EngineSort(groups: seq<Group>, placement: seq<nat>): (r: seq<Group>)
    ensures |r| == |groups|
    ensures multiset(r) == multiset(groups)
    ensures ItemCount(r) == ItemCount(groups)
  {
    if groups == [] then []
    else
      var n := |groups| - 1;
      var rest := EngineSort(groups[..n], placement);
      var i := if n < |placement| then Min(placement[n], n) else n;
      assert groups == groups[..n] + [groups[n]];
      ItemCountAppend(groups[..n], [groups[n]]);
      Insert(rest, i, groups[n])
  }

  /** With no placement the engine's sort keeps the input order. */
  lemma {:induction false} EngineSortWithoutPlacement(groups: seq<Group>)
    ensures EngineSort(groups, []) == groups
  {
    if groups != [] {
      var n := |groups| - 1;
      EngineSortWithoutPlacement(groups[..n]);
      assert groups == groups[..n] + [groups[n]];
    }
  }

  /**
   * `searchConversations`: the narrowed groups, in the order the engine's sort
   * leaves them. Every group keeps at least one record and only matching ones.
   */
  function SearchConversations(conversations: seq<Group>, query: string, placement: seq<nat>): (r: seq<Group>)
    ensures multiset(r) == multiset(Narrow(conversations, query))
  {
    EngineSort(Narrow(conversations, query), placement)
  }

  /** Every group of the search result is non-empty and holds only matching records. */
  lemma SearchGroupsMatch(conversations: seq<Group>, query: string, placement: seq<nat>, g: Group)
    requires g in SearchConversations(conversations, query, placement)
    ensures g.values != []
    ensures forall v | v in g.values :: Matches(v, query)
  {
    assert g in multiset(SearchConversations(conversations, query, placement));
    NarrowKeepsNarrowed(conversations, query, g);
    var h :| h in conversations && g == Narrowed(h, query);
    forall v | v in g.values ensures Matches(v, query) {
      FilterRecordsKeepsMatches(h.values, query, v);
    }
  }

  /** A record is found by the search exactly when it is a record of the input that matches. */
  lemma SearchFindsExactlyMatches(conversations: seq<Group>, query: string, placement: seq<nat>, v: ConvoRecord)
    ensures (exists g | g in SearchConversations(conversations, query, placement) :: v in g.values)
      <==> Matches(v, query) && exists h | h in conversations :: v in h.values
  {
    var r := SearchConversations(conversations, query, placement);
    var narrowed := Narrow(conversations, query);
    NarrowFindsExactlyMatches(conversations, query, v);
    if exists g | g in narrowed :: v in g.values {
      var g :| g in narrowed && v in g.values;
      assert g in multiset(r);
    }
    if exists g | g in r :: v in g.values {
      var g :| g in r && v in g.values;
      assert g in multiset(narrowed);
    }
  }

  /** The search result holds no record exactly when no record of the input matches. */
  lemma SearchCountZero(conversations: seq<Group>, query: string, placement: seq<nat>)
    ensures ItemCount(SearchConversations(conversations, query, placement)) == 0
      <==> forall g, v | g in conversations && v in g.values :: !Matches(v, query)
  {
    NarrowCountZero(conversations, query);
  }

  // ---------------------------------------------------------------------------
  // The filter panel's class list

  /** `toggleFiltersModal`: swap the first closed token for open, or else the first open token for closed. */
  function Toggled(filterClass: string): string
  {
    if Includes(filterClass, CLOSED_TOKEN) then ReplaceFirst(filterClass, CLOSED_TOKEN, OPEN_TOKEN)
    else if Includes(filterClass, OPEN_TOKEN) then ReplaceFirst(filterClass, OPEN_TOKEN, CLOSED_TOKEN)
    else filterClass
  }

  /** `closeFiltersModal`: swap the first open token for closed, if there is one. */
  function Closed(filterClass: string): string
  {
    if Includes(filterClass, OPEN_TOKEN) then ReplaceFirst(filterClass, OPEN_TOKEN, CLOSED_TOKEN)
    else filterClass
  }

  /** The other token. */
  function Flip(t: string): string
  {
    if t == CLOSED_TOKEN then OPEN_TOKEN else CLOSED_TOKEN
  }

  /** Replacing the first occurrence of `u` puts the replacement where `u` was found. */
  lemma ReplaceFirstIncludes(s: string, u: string, w: string)
    requires Includes(s, u)
    ensures Includes(ReplaceFirst(s, u, w), w)
  {
    var i := IndexOf(s, u);
    var r := ReplaceFirst(s, u, w);
    assert r[i..] == w + s[i + |u|..];
    IncludesAt(r, w, i);
  }

  /**
   * On any class list, toggling a closed list makes it hold the open token, and
   * toggling an open one (without a closed token) makes it hold the closed token.
   */
  lemma ToggleSwitchesState(filterClass: string)
    ensures Includes(filterClass, CLOSED_TOKEN) ==> Includes(Toggled(filterClass), OPEN_TOKEN)
    ensures !Includes(filterClass, CLOSED_TOKEN) && Includes(filterClass, OPEN_TOKEN)
      ==> Includes(Toggled(filterClass), CLOSED_TOKEN)
    ensures !Includes(filterClass, CLOSED_TOKEN) && !Includes(filterClass, OPEN_TOKEN)
      ==> Toggled(filterClass) == filterClass
  {
    if Includes(filterClass, CLOSED_TOKEN) {
      ReplaceFirstIncludes(filterClass, CLOSED_TOKEN, OPEN_TOKEN);
    } else if Includes(filterClass, OPEN_TOKEN) {
      ReplaceFirstIncludes(filterClass, OPEN_TOKEN, CLOSED_TOKEN);
    }
  }

  /** Replacing the token that ends a class list with an inert prefix swaps just that token. */
  lemma ReplaceLastToken(p: string, t: string, w: string)
    requires InertPrefix(p) && IsToken(t)
    ensures ReplaceFirst(p + t, t, w) == p + w
  {
    TokenIndex(p, t, t);
    var s := p + t;
    assert s[..|p|] == p && s[|p| + |t|..] == [];
  }

  /** On an inert prefix and a token, toggling swaps the token and keeps the prefix. */
  lemma ToggledSwapsToken(p: string, t: string)
    requires InertPrefix(p) && IsToken(t)
    ensures Toggled(p + t) == p + Flip(t)
  {
    TokenIndex(p, t, CLOSED_TOKEN);
    TokenIndex(p, t, OPEN_TOKEN);
    ReplaceLastToken(p, t, Flip(t));
  }

  /** On an inert prefix and a token, closing yields the closed token and keeps the prefix. */
  lemma ClosedSettles(p: string, t: string)
    requires InertPrefix(p) && IsToken(t)
    ensures Closed(p + t) == p + CLOSED_TOKEN
  {
    TokenIndex(p, t, OPEN_TOKEN);
    if t == OPEN_TOKEN {
      ReplaceLastToken(p, t, CLOSED_TOKEN);
    }
  }

  /**
   * The panel's own class lists: toggling keeps a panel class and undoes itself,
   * closing keeps a panel class, is idempotent and leaves a closed panel alone.
   */
  lemma PanelClassTransitions(filterClass: string)
    requires PanelClass(filterClass)
    ensures PanelClass(Toggled(filterClass)) && PanelClass(Closed(filterClass))
    ensures Toggled(Toggled(filterClass)) == filterClass
    ensures Closed(Closed(filterClass)) == Closed(filterClass)
    ensures Closed(filterClass) == TRIGGER_CLASSES + CLOSED_TOKEN
    ensures filterClass == TRIGGER_CLASSES + CLOSED_TOKEN ==> Closed(filterClass) == filterClass
    ensures Includes(filterClass, CLOSED_TOKEN) <==> Includes(Toggled(filterClass), OPEN_TOKEN)
  {
    var p := TRIGGER_CLASSES;
    var t := if filterClass == p + CLOSED_TOKEN then CLOSED_TOKEN else OPEN_TOKEN;
    TriggerClassesInert();
    ToggledSwapsToken(p, t);
    ToggledSwapsToken(p, Flip(t));
    ClosedSettles(p, t);
    ClosedSettles(p, CLOSED_TOKEN);
    TokenIndex(p, t, CLOSED_TOKEN);
    TokenIndex(p, Flip(t), OPEN_TOKEN);
  }
}
