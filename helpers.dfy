/**
 * The pure helpers of the conversation-history view: counting the records of
 * a group list and of the server's group map, and building the payload of an
 * email reply from the reply information the server returns.
 */
module Helpers {
  import opened Js
  import opened Text
  import opened ConvoData

  /**
   * `convoArrayItemCount`: the number of records over all groups, summed from
   * the left as `reduce` does.
   */
  function ItemCount(groups: seq<Group>): (n: nat)
  {
    if groups == [] then 0
    else ItemCount(groups[..|groups| - 1]) + |groups[|groups| - 1].values|
  }

  /** The count is zero exactly when every group is empty. */
  lemma {:induction false} ItemCountZero(groups: seq<Group>)
    ensures ItemCount(groups) == 0 <==> forall g | g in groups :: g.values == []
  {
    if groups != [] {
      var n := |groups| - 1;
      ItemCountZero(groups[..n]);
      assert groups == groups[..n] + [groups[n]];
    }
  }

  /** Counting a concatenation adds the counts of its parts. */
  lemma {:induction false} ItemCountAppend(a: seq<Group>, b: seq<Group>)
    ensures ItemCount(a + b) == ItemCount(a) + ItemCount(b)
    decreases |b|
  {
    if b == [] {
      assert a + b == a;
    } else {
      ItemCountAppend(a, b[..|b| - 1]);
      assert (a + b)[..|a + b| - 1] == a + b[..|b| - 1];
    }
  }

  /** The number of records over all keys of the server's group map. */
  function MapItemCount(convos: ConvoMap): nat
  {
    if convos == [] then 0
    else MapItemCount(convos[..|convos| - 1]) + |convos[|convos| - 1].1|
  }

  /** `convoObjectItemCount`: adds up the length of every key's record list. */
  method ConvoObjectItemCount(convos: ConvoMap) returns (totalCount: nat)
    ensures totalCount == MapItemCount(convos)
  {
    totalCount := 0;
    var i := 0;
    while i < |convos|
      invariant 0 <= i <= |convos|
      invariant totalCount == MapItemCount(convos[..i])
    {
      assert convos[..i + 1][..i] == convos[..i];
      totalCount := totalCount + |convos[i].1|;
      i := i + 1;
    }
    assert convos[..i] == convos;
  }

  /**
   * Groups that carry, key for key and in order, the record lists of a group
   * map hold the same number of records as the map.
   */
  lemma {:induction false} ItemCountOfRelabelled(groups: seq<Group>, convos: ConvoMap)
    requires |groups| == |convos|
    requires forall i | 0 <= i < |groups| :: groups[i].values == convos[i].1
    ensures ItemCount(groups) == MapItemCount(convos)
  {
    if groups != [] {
      ItemCountOfRelabelled(groups[..|groups| - 1], convos[..|convos| - 1]);
    }
  }

  // ---------------------------------------------------------------------------
  // Email reply payload

  /** The reply information the server returns for an email message. */
  datatype ReplyInfo = ReplyInfo(
    fromAddress: string,
    externalConquerId: string,
    cadenceMemberId: string,
    subject: string)

  /** The payload of an email reply. */
  datatype EmailData = EmailData(
    aid: string,
    uid: string,
    emailAddress: string,
    replyToEmailId: string,
    cadenceMemberId: string,
    subject: string)

  /** `s.replace(c, '')` for a one-character pattern: the first `c` is dropped. */
  function RemoveFirst(s: string, c: char): (r: string)
  {
    ReplaceFirst(s, [c], "")
  }

  /**
   * `r` is `s` with its first `c` cut out, every other character kept in
   * place; `s` itself when it holds no `c`.
   */
  ghost predicate DropsFirst(s: string, c: char, r: string)
  {
    (c !in s ==> r == s)
    && (c in s ==> exists i | 0 <= i < |s| :: s[i] == c && c !in s[..i] && r == s[..i] + s[i + 1..])
  }

  /** `replace` with a one-character pattern drops exactly the first occurrence. */
  lemma RemoveFirstDropsFirst(s: string, c: char)
    ensures DropsFirst(s, c, RemoveFirst(s, c))
  {
    IndexOfChar(s, c);
    if c in s {
      var i := FirstIndex(s, c);
      RemoveFirstIsFirst(s, c, i);
    }
  }

  /** The position of the first `c` in `s`. */
  lemma FirstIndex(s: string, c: char) returns (i: int)
    requires c in s
    ensures 0 <= i < |s| && s[i] == c && c !in s[..i]
  {
    IndexOfChar(s, c);
    i := IndexOf(s, [c]);
    forall k | 0 <= k < i ensures s[k] != c {
      assert !([c] <= s[k..]) && s[k..][0] == s[k];
    }
  }

  /**
   * Dropping the first `c` removes exactly one `c` when there is one (a
   * multiset difference with a missing element removes nothing), and leaves
   * the string as it was when there is none.
   */
  lemma RemoveFirstCount(s: string, c: char)
    ensures multiset(RemoveFirst(s, c)) == multiset(s) - multiset{c}
    ensures c !in s ==> RemoveFirst(s, c) == s
  {
    IndexOfChar(s, c);
    if c in s {
      var i := FirstIndex(s, c);
      RemoveFirstPresent(s, c, i);
    } else {
      assert c !in multiset(s);
      assert multiset(s) - multiset{c} == multiset(s);
    }
  }

  /** Removing the first `c`, found at `i`, removes one copy of it from the multiset. */
  lemma RemoveFirstPresent(s: string, c: char, i: int)
    requires 0 <= i < |s| && s[i] == c && c !in s[..i]
    ensures multiset(RemoveFirst(s, c)) == multiset(s) - multiset{c}
  {
    RemoveFirstIsFirst(s, c, i);
    MultisetWithout(s, i);
  }

  /** The first `c`, at `i`, is the one cut out. */
  lemma RemoveFirstIsFirst(s: string, c: char, i: int)
    requires 0 <= i < |s| && s[i] == c && c !in s[..i]
    ensures RemoveFirst(s, c) == s[..i] + s[i + 1..]
  {
    assert s == s[..i] + [c] + s[i + 1..];
    ReplaceFirstAfter(s[..i], [c], s[i + 1..], "");
  }

  /** Cutting out position `i` takes one copy of `s[i]` out of the multiset. */
  lemma MultisetWithout(s: string, i: int)
    requires 0 <= i < |s|
    ensures multiset(s[..i] + s[i + 1..]) == multiset(s) - multiset{s[i]}
  {
    var before, after := s[..i], s[i + 1..];
    assert s == before + [s[i]] + after;
    assert multiset(s) == multiset(before) + multiset{s[i]} + multiset(after);
  }

  /** The reply payload: addressing from the reply information, subject prefixed with `Re:`. */
  function FormatEmailData(info: ReplyInfo, orgId: string, userId: string): EmailData
  {
    EmailData(
      orgId,
      userId,
      RemoveFirst(RemoveFirst(info.fromAddress, '('), ')'),
      info.externalConquerId,
      info.cadenceMemberId,
      "Re:" + info.subject)
  }

  /** The subject is `Re:` then the original subject, with no space, so it can be read back. */
  lemma FormatEmailDataSubject(info: ReplyInfo, orgId: string, userId: string)
    ensures var d := FormatEmailData(info, orgId, userId);
      d.subject[..3] == "Re:" && d.subject[3..] == info.subject
  {
  }

  /** The ids are passed through unchanged. */
  lemma FormatEmailDataIds(info: ReplyInfo, orgId: string, userId: string)
    ensures var d := FormatEmailData(info, orgId, userId);
      d.aid == orgId && d.uid == userId && d.replyToEmailId == info.externalConquerId
      && d.cadenceMemberId == info.cadenceMemberId
  {
  }

  /**
   * The address loses its first `(`, then the first `)` of what is left, each
   * when present, and keeps every other character in place.
   */
  lemma FormatEmailDataAddress(info: ReplyInfo, orgId: string, userId: string)
    ensures var withoutOpen := RemoveFirst(info.fromAddress, '(');
      DropsFirst(info.fromAddress, '(', withoutOpen)
      && DropsFirst(withoutOpen, ')', FormatEmailData(info, orgId, userId).emailAddress)
    ensures multiset(FormatEmailData(info, orgId, userId).emailAddress)
        == multiset(info.fromAddress) - multiset{'('} - multiset{')'}
  {
    var withoutOpen := RemoveFirst(info.fromAddress, '(');
    RemoveFirstDropsFirst(info.fromAddress, '(');
    RemoveFirstDropsFirst(withoutOpen, ')');
    RemoveFirstCount(info.fromAddress, '(');
    RemoveFirstCount(withoutOpen, ')');
  }

}
