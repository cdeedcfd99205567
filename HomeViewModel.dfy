/**
 * The home screen's channel list and its search filter.
 *
 * The view model keeps the full channel list, the search text as the user
 * typed it, and the list shown on screen. The shown list is always the
 * channels whose lower-cased name contains the lower-cased search text, in
 * their original order; an empty search text shows every channel.
 */
module Home {
  import opened Text
  import opened ChannelModel

  // ---------------------------------------------------------------------------
  // The filter as pure functions
  // ---------------------------------------------------------------------------

  /**
   * Does channel `c` match the already lower-cased query `q`, that is, does
   * `q` occur somewhere in the lower-cased name?
   */
  predicate Matches(c: Channel, q: string)
    ensures Matches(c, q) <==> IsSubstring(LowerStr(c.name), q)
  {
    ContainsIsSubstring(LowerStr(c.name), q);
    Contains(LowerStr(c.name), q)
  }

  /** The channels of `cs` that match the lower-cased query `q`, in their original order. */
  function Keep(cs: seq<Channel>, q: string): (r: seq<Channel>)
    ensures |r| <= |cs|
    ensures forall c :: c in r ==> c in cs && Matches(c, q)
  {
    if cs == [] then []
    else if Matches(cs[0], q) then [cs[0]] + Keep(cs[1..], q)
    else Keep(cs[1..], q)
  }

  /**
   * The list shown for channels `cs` and search text `query`: the search text
   * is lower-cased; when it is then empty every channel is shown as it is,
   * otherwise only the matching ones.
   */
  function Filter(cs: seq<Channel>, query: string): (r: seq<Channel>)
    ensures |r| <= |cs|
    ensures forall c :: c in r ==> c in cs
  {
    var q := LowerStr(query);
    if q == [] then cs else Keep(cs, q)
  }

  // ---------------------------------------------------------------------------
  // What the filter promises
  // ---------------------------------------------------------------------------

  /** `xs` is obtained from `ys` by deleting elements, keeping the order of the rest. */
  ghost predicate IsSubsequence(xs: seq<Channel>, ys: seq<Channel>)
    decreases |ys|
  {
    xs == [] ||
    (ys != [] &&
     ((xs[0] == ys[0] && IsSubsequence(xs[1..], ys[1..])) || IsSubsequence(xs, ys[1..])))
  }

  /** A subsequence is never longer than the sequence it is taken from. */
  lemma {:induction false} SubsequenceNoLonger(xs: seq<Channel>, ys: seq<Channel>)
    requires IsSubsequence(xs, ys)
    ensures |xs| <= |ys|
    decreases |ys|
  {
    if xs != [] {
      if xs[0] == ys[0] && IsSubsequence(xs[1..], ys[1..]) {
        SubsequenceNoLonger(xs[1..], ys[1..]);
      } else {
        SubsequenceNoLonger(xs, ys[1..]);
      }
    }
  }

  /** Filtering keeps the surviving channels in their original relative order. */
  lemma {:induction false} KeepIsSubsequence(cs: seq<Channel>, q: string)
    ensures IsSubsequence(Keep(cs, q), cs)
    decreases |cs|
  {
    if cs != [] {
      KeepIsSubsequence(cs[1..], q);
      if Matches(cs[0], q) {
        assert Keep(cs, q)[1..] == Keep(cs[1..], q);
      }
    }
  }

  /**
   * Filtering keeps every occurrence of every matching channel, duplicates
   * included, and drops every occurrence of every other channel.
   */
  lemma {:induction false} KeepCounts(cs: seq<Channel>, q: string)
    ensures forall c :: multiset(Keep(cs, q))[c] == if Matches(c, q) then multiset(cs)[c] else 0
    decreases |cs|
  {
    if cs != [] {
      KeepCounts(cs[1..], q);
      assert cs == [cs[0]] + cs[1..];
      assert multiset(cs) == multiset{cs[0]} + multiset(cs[1..]);
    }
  }

  /** With an empty query every channel matches, so the general filter keeps the whole list. */
  lemma {:induction false} KeepEmptyQuery(cs: seq<Channel>)
    ensures Keep(cs, "") == cs
    decreases |cs|
  {
    if cs != [] {
      ContainsEmpty(LowerStr(cs[0].name));
      KeepEmptyQuery(cs[1..]);
      assert cs == [cs[0]] + cs[1..];
    }
  }

  /**
   * The empty-query shortcut agrees with the general filter: for every search
   * text the shown list is the general filter on the lower-cased text.
   */
  lemma FilterIsKeep(cs: seq<Channel>, query: string)
    ensures Filter(cs, query) == Keep(cs, LowerStr(query))
  {
    if LowerStr(query) == [] {
      KeepEmptyQuery(cs);
    }
  }

  /** An empty search text shows the full list, same order and same duplicates. */
  lemma FilterEmptyQuery(cs: seq<Channel>, query: string)
    ensures query == "" <==> LowerStr(query) == ""
    ensures query == "" ==> Filter(cs, query) == cs
  {
    LowerStrEmpty(query);
  }

  /**
   * The shown list is exactly the channels whose lower-cased name contains the
   * lower-cased search text: every occurrence of each such channel, no other
   * channel, in the original order, and never more channels than the full list.
   */
  lemma FilterSpec(cs: seq<Channel>, query: string)
    ensures IsSubsequence(Filter(cs, query), cs)
    ensures |Filter(cs, query)| <= |cs|
    ensures forall c :: multiset(Filter(cs, query))[c] ==
              if IsSubstring(LowerStr(c.name), LowerStr(query)) then multiset(cs)[c] else 0
    ensures forall c :: c in Filter(cs, query) <==>
              c in cs && IsSubstring(LowerStr(c.name), LowerStr(query))
  {
    var q := LowerStr(query);
    FilterIsKeep(cs, query);
    KeepIsSubsequence(cs, q);
    SubsequenceNoLonger(Keep(cs, q), cs);
    KeepCounts(cs, q);
    forall c: Channel
      ensures c in Filter(cs, query) <==> c in cs && IsSubstring(LowerStr(c.name), q)
    {
      assert c in Filter(cs, query) <==> multiset(Filter(cs, query))[c] > 0;
    }
  }

  /**
   * Matching ignores case: search texts that lower-case alike show the same
   * list, and searching for the lower-cased text shows what the original does.
   */
  lemma FilterIgnoresCase(cs: seq<Channel>, query1: string, query2: string)
    requires LowerStr(query1) == LowerStr(query2)
    ensures Filter(cs, query1) == Filter(cs, query2)
    ensures Filter(cs, LowerStr(query1)) == Filter(cs, query1)
  {
    LowerStrIdempotent(query1);
  }

  // ---------------------------------------------------------------------------
  // Building the channel list from a database snapshot
  // ---------------------------------------------------------------------------

  /**
   * The channel list built from the children of a snapshot, in snapshot
   * order; `stamps[i]` is the clock reading taken when the i-th channel is built.
   */
  method ChannelsFromSnapshot(children: seq<Child>, stamps: seq<int>) returns (list: seq<Channel>)
    requires |stamps| == |children|
    ensures |list| == |children|
    ensures forall i :: 0 <= i < |children| ==>
              list[i].id == children[i].key &&
              list[i].name == ValueToString(children[i].value) &&
              list[i].createdAt == stamps[i]
  {
    list := [];
    var i := 0;
    while i < |children|
      invariant 0 <= i <= |children|
      invariant |list| == i
      invariant forall k :: 0 <= k < i ==> list[k] == ChannelOf(children[k], stamps[k])
    {
      list := list + [ChannelOf(children[i], stamps[i])];
      i := i + 1;
    }
  }

  // ---------------------------------------------------------------------------
  // The view model
  // ---------------------------------------------------------------------------

  /** The home screen's state: the full list, the search text and the shown list. */
  class HomeViewModel {
    var channels: seq<Channel>
    var searchQuery: string
    var filteredChannels: seq<Channel>

    /** The shown list is always the filter of the full list by the search text. */
    ghost predicate Valid()
      reads this
    {
      filteredChannels == Filter(channels, searchQuery)
    }

    /** Starts with no channels, an empty search text and nothing shown. */
    constructor ()
      ensures channels == [] && searchQuery == "" && filteredChannels == []
      ensures Valid()
    {
      channels := [];
      searchQuery := "";
      filteredChannels := [];
    }

    /**
     * A new snapshot of the channel list arrived: replace the full list by the
     * snapshot's channels, in snapshot order, and recompute the shown list.
     */
    method OnDataChange(children: seq<Child>, stamps: seq<int>)
      requires |stamps| == |children|
      modifies this
      ensures |channels| == |children|
      ensures forall i :: 0 <= i < |children| ==> channels[i] == ChannelOf(children[i], stamps[i])
      ensures searchQuery == old(searchQuery)
      ensures Valid()
    {
      var list := ChannelsFromSnapshot(children, stamps);
      channels := list;
      FilterChannels();
    }

    /**
     * Store the search text exactly as typed and recompute the shown list.
     * Searching again for the text already in force changes nothing.
     */
    method UpdateSearchQuery(query: string)
      modifies this
      ensures searchQuery == query
      ensures channels == old(channels)
      ensures Valid()
      ensures old(Valid()) && old(searchQuery) == query ==> filteredChannels == old(filteredChannels)
    {
      searchQuery := query;
      FilterChannels();
    }

    /** Recompute the shown list from the full list and the search text; nothing else changes. */
    method FilterChannels()
      modifies this`filteredChannels
      ensures channels == old(channels) && searchQuery == old(searchQuery)
      ensures Valid()
    {
      var query := LowerStr(searchQuery);
      if query == [] {
        filteredChannels := channels;
      } else {
        filteredChannels := Keep(channels, query);
      }
    }
  }
}
