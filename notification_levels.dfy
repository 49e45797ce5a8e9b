/** The low-credit notification levels of the billing API: the configured
    percentages, the dense lookup list that `TransactionResource` builds from
    them once, and the lookup of the level a balance percentage falls under. */
module NotificationLevels {

  import opened Options

  predicate Distinct(s: seq<int>) {
    forall i, j :: 0 <= i < j < |s| ==> s[i] != s[j]
  }

  predicate StrictlyAscending(s: seq<int>) {
    forall i, j :: 0 <= i < j < |s| ==> s[i] < s[j]
  }

  /** A level below every entry of an ascending list may be put in front. */
  lemma PrependAscending(a: int, t: seq<int>)
    requires StrictlyAscending(t)
    requires forall y :: y in t ==> a < y
    ensures StrictlyAscending([a] + t)
  {
    forall i, j | 0 <= i < j < |[a] + t| ensures ([a] + t)[i] < ([a] + t)[j] {
      assert t[j - 1] in t;
      if i > 0 {
        assert ([a] + t)[i] == t[i - 1];
      }
    }
  }

  /** Places `x` in an ascending list that does not hold it yet. */
  function Insert(x: int, s: seq<int>): (r: seq<int>)
    requires StrictlyAscending(s) && x !in s
    ensures StrictlyAscending(r)
    ensures multiset(r) == multiset(s) + multiset{x}
  {
    if s == [] || x < s[0] then
      assert forall y :: y in s ==> x < y by {
        forall y | y in s ensures x < y {
          var k :| 0 <= k < |s| && s[k] == y;
          assert k == 0 || s[0] < s[k];
        }
      }
      PrependAscending(x, s);
      [x] + s
    else
      assert s == [s[0]] + s[1..];
      var rest := Insert(x, s[1..]);
      assert forall y :: y in rest ==> s[0] < y by {
        forall y | y in rest ensures s[0] < y {
          assert y in multiset(rest);
          assert y in s[1..] || y == x;
          if y in s[1..] {
            var k :| 1 <= k < |s| && s[k] == y;
          }
        }
      }
      PrependAscending(s[0], rest);
      [s[0]] + rest
  }

  /** The configured percentages in ascending order, as Python's `sorted`
      returns them; with distinct percentages the order is strict. */
  function SortLevels(s: seq<int>): (r: seq<int>)
    requires Distinct(s)
    ensures StrictlyAscending(r)
    ensures multiset(r) == multiset(s)
  {
    if s == [] then []
    else
      assert s == [s[0]] + s[1..];
      var rest := SortLevels(s[1..]);
      assert s[0] !in multiset(s[1..]);
      Insert(s[0], rest)
  }

  /** The smallest configured level at or above `p`, if there is one: the
      step function the notification mapping tabulates. */
  function LeastAtOrAbove(levels: seq<int>, p: int): (r: Option<int>)
    ensures r.None? <==> forall l :: l in levels ==> l < p
    ensures r.Some? ==> r.value in levels && r.value >= p
    ensures r.Some? ==> forall l :: l in levels && l >= p ==> r.value <= l
  {
    if levels == [] then None
    else
      assert levels == [levels[0]] + levels[1..];
      assert levels[0] in levels;
      assert forall l :: l in levels <==> l == levels[0] || l in levels[1..];
      var rest := LeastAtOrAbove(levels[1..], p);
      if levels[0] >= p && (rest.None? || levels[0] <= rest.value) then Some(levels[0])
      else rest
  }

  /** `mapping` covers every percentage from the lowest configured level to the
      highest, entry `k` holding the smallest level at or above `levels[0] + k`;
      nothing configured gives the empty mapping. */
  predicate IsNotificationMapping(levels: seq<int>, mapping: seq<int>) {
    if levels == [] then mapping == []
    else
      |mapping| == levels[|levels| - 1] - levels[0] + 1 &&
      forall k {:trigger mapping[k]} :: 0 <= k < |mapping| ==> LeastAtOrAbove(levels, levels[0] + k) == Some(mapping[k])
  }

  /** One entry per percentage between the first and the last entry. */
  predicate Dense(mapping: seq<int>) {
    mapping == [] || |mapping| == mapping[|mapping| - 1] - mapping[0] + 1
  }

  /** In a strictly ascending list, the entry at `j` is the least level at or
      above `p` when it reaches `p` and its predecessor does not. */
  lemma LeastAtIndex(levels: seq<int>, p: int, j: int)
    requires StrictlyAscending(levels)
    requires 0 <= j < |levels| && levels[j] >= p
    requires j > 0 ==> levels[j - 1] < p
    ensures LeastAtOrAbove(levels, p) == Some(levels[j])
  {
    var r := LeastAtOrAbove(levels, p);
    assert levels[j] in levels;
    var m :| 0 <= m < |levels| && levels[m] == r.value;
  }

  /** Appending the level the cursor points at keeps every entry of the
      mapping equal to the step function. */
  lemma ExtendMapping(levels: seq<int>, mapping: seq<int>, i: int, levelIdx: int, extended: seq<int>)
    requires StrictlyAscending(levels) && levels != []
    requires |mapping| == i - levels[0]
    requires forall k {:trigger mapping[k]} :: 0 <= k < |mapping| ==> LeastAtOrAbove(levels, levels[0] + k) == Some(mapping[k])
    requires 0 <= levelIdx < |levels| && levels[levelIdx] >= i
    requires levelIdx > 0 ==> levels[levelIdx - 1] < i
    requires extended == mapping + [levels[levelIdx]]
    ensures forall k {:trigger extended[k]} :: 0 <= k < |extended| ==>
      LeastAtOrAbove(levels, levels[0] + k) == Some(extended[k])
  {
    LeastAtIndex(levels, i, levelIdx);
  }

  /** `_create_notification_mapping`: sorts the configured percentages and
      walks every percentage from the lowest to the highest, appending the
      level the cursor points at and advancing the cursor past a level once
      the walk reaches it. */
  method CreateNotificationMapping(percentages: seq<int>) returns (mapping: seq<int>)
    requires Distinct(percentages)
    ensures IsNotificationMapping(SortLevels(percentages), mapping)
  {
    var levels := SortLevels(percentages);
    if levels == [] {
      return [];
    }
    mapping := [];
    var levelIdx := 0;
    for i := levels[0] to levels[|levels| - 1] + 1
      invariant |mapping| == i - levels[0]
      invariant forall k {:trigger mapping[k]} :: 0 <= k < |mapping| ==> LeastAtOrAbove(levels, levels[0] + k) == Some(mapping[k])
      invariant 0 <= levelIdx <= |levels|
      invariant levelIdx < |levels| ==> levels[levelIdx] >= i
      invariant levelIdx > 0 ==> levels[levelIdx - 1] < i
    {
      ExtendMapping(levels, mapping, i, levelIdx, mapping + [levels[levelIdx]]);
      mapping := mapping + [levels[levelIdx]];
      if mapping[i - levels[0]] == i {
        levelIdx := levelIdx + 1;
      }
    }
    assert |mapping| == levels[|levels| - 1] - levels[0] + 1;
    assert IsNotificationMapping(levels, mapping);
  }

  /** `_get_notification_level`: None when nothing is configured, the lowest
      level below it, None above the highest level, and the mapping's entry
      in between. */
  function GetNotificationLevel(mapping: seq<int>, percentage: int): Option<int>
    requires Dense(mapping)
  {
    if mapping == [] then None
    else
      var minimum := mapping[0];
      if percentage < minimum then Some(minimum)
      else if percentage > mapping[|mapping| - 1] then None
      else Some(mapping[percentage - minimum])
  }

  /** The mapping starts at the lowest configured level and ends at the
      highest. */
  lemma MappingEnds(levels: seq<int>, mapping: seq<int>)
    requires StrictlyAscending(levels) && IsNotificationMapping(levels, mapping) && levels != []
    ensures mapping != [] && mapping[0] == levels[0] && mapping[|mapping| - 1] == levels[|levels| - 1]
  {
    LeastAtIndex(levels, levels[0], 0);
    assert mapping[0] == levels[0];
    LeastAtIndex(levels, levels[|levels| - 1], |levels| - 1);
  }

  /** Above the highest configured level there is no level. */
  lemma NoneAboveLast(levels: seq<int>, p: int)
    requires StrictlyAscending(levels) && levels != [] && p > levels[|levels| - 1]
    ensures LeastAtOrAbove(levels, p) == None
  {
    forall l | l in levels ensures l < p {
      var m :| 0 <= m < |levels| && levels[m] == l;
      assert m == |levels| - 1 || levels[m] < levels[|levels| - 1];
    }
  }

  /** Looking a percentage up in the built mapping gives exactly the smallest
      configured level at or above it. */
  lemma LookupIsStepFunction(levels: seq<int>, mapping: seq<int>, p: int)
    requires StrictlyAscending(levels) && IsNotificationMapping(levels, mapping)
    ensures Dense(mapping)
    ensures GetNotificationLevel(mapping, p) == LeastAtOrAbove(levels, p)
  {
    if levels != [] {
      MappingEnds(levels, mapping);
      if p < levels[0] {
        LeastAtIndex(levels, p, 0);
      } else if p > levels[|levels| - 1] {
        NoneAboveLast(levels, p);
      } else {
        var k := p - levels[0];
        assert LeastAtOrAbove(levels, levels[0] + k) == Some(mapping[k]);
      }
    }
  }

  /** The four cases of the lookup: nothing configured gives no level, below
      the lowest level gives the lowest, above the highest gives no level,
      and in between a configured level at or above the percentage. */
  lemma LookupCases(levels: seq<int>, mapping: seq<int>, p: int)
    requires StrictlyAscending(levels) && IsNotificationMapping(levels, mapping)
    ensures Dense(mapping)
    ensures levels == [] ==> GetNotificationLevel(mapping, p) == None
    ensures levels != [] && p < levels[0] ==> GetNotificationLevel(mapping, p) == Some(levels[0])
    ensures levels != [] && p > levels[|levels| - 1] ==> GetNotificationLevel(mapping, p) == None
    ensures levels != [] && levels[0] <= p <= levels[|levels| - 1] ==>
      GetNotificationLevel(mapping, p).Some? &&
      GetNotificationLevel(mapping, p).value in levels &&
      GetNotificationLevel(mapping, p).value >= p
  {
    LookupIsStepFunction(levels, mapping, p);
    if levels != [] {
      var last := |levels| - 1;
      if p < levels[0] {
        LeastAtIndex(levels, p, 0);
      } else if p <= levels[last] {
        assert levels[last] in levels;
      }
    }
  }

  /** The step function never decreases: a higher percentage that has a level
      implies a lower one has a level no higher. */
  lemma StepMonotone(levels: seq<int>, p: int, q: int)
    requires p <= q && LeastAtOrAbove(levels, q).Some?
    ensures LeastAtOrAbove(levels, p).Some?
    ensures LeastAtOrAbove(levels, p).value <= LeastAtOrAbove(levels, q).value
  {
    var v := LeastAtOrAbove(levels, q).value;
    assert v in levels && v >= p;
  }

}
