/** Grouping the forecast list by calendar date: the `dailyMap` pass of `getWeatherByCoords`. */
module DailyGrouping {
  import opened Payloads

  /** One entry of `Array.from(dailyMap.entries())`: a date key and its samples. */
  type DayGroup = (DateKey, seq<ForecastSample>)

  predicate Distinct<T(==)>(s: seq<T>)
  {
    forall a, b :: 0 <= a < b < |s| ==> s[a] != s[b]
  }

  /** The distinct date keys of `list`, in order of first occurrence
      (the insertion order of the map's keys). */
  function DateKeys(list: seq<ForecastSample>, dateKey: int -> DateKey): (keys: seq<DateKey>)
    ensures |keys| <= |list|
    ensures keys == [] <==> list == []
  {
    if list == [] then []
    else
      var keys := DateKeys(list[..|list| - 1], dateKey);
      var k := dateKey(list[|list| - 1].dt);
      if k in keys then keys else keys + [k]
  }

  /** The samples of `list` dated `k`, in input order. */
  function SamplesOn(list: seq<ForecastSample>, dateKey: int -> DateKey, k: DateKey): (g: seq<ForecastSample>)
    ensures forall s :: s in g ==> dateKey(s.dt) == k
    ensures |g| <= |list|
  {
    if list == [] then []
    else
      var last := list[|list| - 1];
      SamplesOn(list[..|list| - 1], dateKey, k) + if dateKey(last.dt) == k then [last] else []
  }

  /** The position of the first sample of `list` dated `k`, or |list| when there is none. */
  function FirstIndex(list: seq<ForecastSample>, dateKey: int -> DateKey, k: DateKey): (p: nat)
    ensures p <= |list|
    ensures p < |list| ==> dateKey(list[p].dt) == k
    ensures forall j :: 0 <= j < p ==> dateKey(list[j].dt) != k
  {
    if list == [] then 0
    else if dateKey(list[0].dt) == k then 0
    else 1 + FirstIndex(list[1..], dateKey, k)
  }

  /** The groups in key order: what the map holds once the pass is over. */
  function DayGroups(list: seq<ForecastSample>, dateKey: int -> DateKey): (groups: seq<DayGroup>)
    ensures |groups| == |DateKeys(list, dateKey)|
    ensures forall i :: 0 <= i < |groups| ==>
      groups[i].0 == DateKeys(list, dateKey)[i] && |groups[i].1| > 0
  {
    var keys := DateKeys(list, dateKey);
    GroupsNonEmpty(list, dateKey);
    seq(|keys|, i requires 0 <= i < |keys| => (keys[i], SamplesOn(list, dateKey, keys[i])))
  }

  /** All samples of the groups, group after group. */
  function Flatten(groups: seq<DayGroup>): seq<ForecastSample>
  {
    if groups == [] then [] else groups[0].1 + Flatten(groups[1..])
  }

  /** The grouping pass: one walk over the list that opens a group the first time a
      date key is seen and appends every sample to the group of its key. */
  method GroupByDate(list: seq<ForecastSample>, dateKey: int -> DateKey) returns (groups: seq<DayGroup>)
    ensures groups == DayGroups(list, dateKey)
    ensures Distinct(seq(|groups|, i requires 0 <= i < |groups| => groups[i].0))
    ensures multiset(Flatten(groups)) == multiset(list)
  {
    var keys: seq<DateKey> := [];
    var dailyMap: map<DateKey, seq<ForecastSample>> := map[];
    var i := 0;
    while i < |list|
      invariant 0 <= i <= |list|
      invariant keys == DateKeys(list[..i], dateKey)
      invariant forall k :: k in dailyMap <==> k in keys
      invariant forall k :: k in dailyMap ==> dailyMap[k] == SamplesOn(list[..i], dateKey, k)
    {
      var item := list[i];
      var k := dateKey(item.dt);
      PrefixStep(list, i, dateKey);
      if k !in dailyMap {
        GroupNonEmptyIff(list[..i], dateKey, k);
        dailyMap := dailyMap[k := []];
        keys := keys + [k];
      }
      dailyMap := dailyMap[k := dailyMap[k] + [item]];
      i := i + 1;
    }
    assert list[..i] == list;
    groups := seq(|keys|, j requires 0 <= j < |keys| => (keys[j], dailyMap[keys[j]]));
    assert groups == DayGroups(list, dateKey);
    DayGroupsKeysDistinct(list, dateKey);
    GroupsPartitionSamples(list, dateKey);
  }

  /** The keys of the groups are the distinct date keys. */
  lemma DayGroupsKeysDistinct(list: seq<ForecastSample>, dateKey: int -> DateKey)
    ensures var groups := DayGroups(list, dateKey);
            Distinct(seq(|groups|, i requires 0 <= i < |groups| => groups[i].0))
  {
    var groups := DayGroups(list, dateKey);
    DateKeysDistinct(list, dateKey);
    assert seq(|groups|, i requires 0 <= i < |groups| => groups[i].0) == DateKeys(list, dateKey);
  }

  /** What one more sample of the walk does to the keys and to every group. */
  lemma PrefixStep(list: seq<ForecastSample>, i: nat, dateKey: int -> DateKey)
    requires i < |list|
    ensures var k := dateKey(list[i].dt);
      DateKeys(list[..i + 1], dateKey) ==
        if k in DateKeys(list[..i], dateKey) then DateKeys(list[..i], dateKey)
        else DateKeys(list[..i], dateKey) + [k]
    ensures forall k :: SamplesOn(list[..i + 1], dateKey, k) ==
                        SamplesOn(list[..i], dateKey, k) + if dateKey(list[i].dt) == k then [list[i]] else []
  {
    assert list[..i + 1][..i] == list[..i];
    assert list[..i + 1][i] == list[i];
  }

  /** No date key is listed twice. */
  lemma {:induction false} DateKeysDistinct(list: seq<ForecastSample>, dateKey: int -> DateKey)
    ensures Distinct(DateKeys(list, dateKey))
  {
    if list != [] {
      DateKeysDistinct(list[..|list| - 1], dateKey);
    }
  }

  /** Taking one more sample keeps the first position of every key already present. */
  lemma FirstIndexExtend(pre: seq<ForecastSample>, x: ForecastSample, dateKey: int -> DateKey, k: DateKey)
    ensures FirstIndex(pre + [x], dateKey, k) ==
      if FirstIndex(pre, dateKey, k) < |pre| then FirstIndex(pre, dateKey, k)
      else if dateKey(x.dt) == k then |pre| else |pre| + 1
  {
    var list := pre + [x];
    assert forall j :: 0 <= j < |pre| ==> list[j] == pre[j];
    assert list[|pre|] == x;
  }

  /** A key is listed exactly when some sample carries it. */
  lemma {:induction false} KeysAreTheDates(list: seq<ForecastSample>, dateKey: int -> DateKey, k: DateKey)
    ensures k in DateKeys(list, dateKey) <==> FirstIndex(list, dateKey, k) < |list|
    ensures k in DateKeys(list, dateKey) <==> exists i :: 0 <= i < |list| && dateKey(list[i].dt) == k
  {
    if list != [] {
      var pre, x := list[..|list| - 1], list[|list| - 1];
      assert list == pre + [x];
      KeysAreTheDates(pre, dateKey, k);
      FirstIndexExtend(pre, x, dateKey, k);
    }
    if exists i :: 0 <= i < |list| && dateKey(list[i].dt) == k {
      var i :| 0 <= i < |list| && dateKey(list[i].dt) == k;
      assert FirstIndex(list, dateKey, k) <= i;
    }
  }

  /** Keys come in the order in which their dates first appear in the list. */
  lemma {:induction false} KeysInFirstOccurrenceOrder(list: seq<ForecastSample>, dateKey: int -> DateKey, a: nat, b: nat)
    requires a < b < |DateKeys(list, dateKey)|
    ensures FirstIndex(list, dateKey, DateKeys(list, dateKey)[a])
          < FirstIndex(list, dateKey, DateKeys(list, dateKey)[b])
          < |list|
  {
    var pre, x := list[..|list| - 1], list[|list| - 1];
    assert list == pre + [x];
    var keys := DateKeys(pre, dateKey);
    FirstIndexExtend(pre, x, dateKey, DateKeys(list, dateKey)[a]);
    FirstIndexExtend(pre, x, dateKey, DateKeys(list, dateKey)[b]);
    if b < |keys| {
      KeysInFirstOccurrenceOrder(pre, dateKey, a, b);
    } else {
      KeysAreTheDates(pre, dateKey, keys[a]);
      KeysAreTheDates(pre, dateKey, dateKey(x.dt));
    }
  }

  /** A date has a non-empty group exactly when it is one of the keys. */
  lemma {:induction false} GroupNonEmptyIff(list: seq<ForecastSample>, dateKey: int -> DateKey, k: DateKey)
    ensures |SamplesOn(list, dateKey, k)| > 0 <==> k in DateKeys(list, dateKey)
  {
    if list != [] {
      GroupNonEmptyIff(list[..|list| - 1], dateKey, k);
    }
  }

  /** Every listed key has at least one sample. */
  lemma GroupsNonEmpty(list: seq<ForecastSample>, dateKey: int -> DateKey)
    ensures forall k :: k in DateKeys(list, dateKey) ==> |SamplesOn(list, dateKey, k)| > 0
  {
    forall k | k in DateKeys(list, dateKey) {
      GroupNonEmptyIff(list, dateKey, k);
    }
  }

  /** Grouping keeps input order: the samples of an earlier stretch of the list come
      before those of a later one in every group. */
  lemma {:induction false} SamplesOnConcat(a: seq<ForecastSample>, b: seq<ForecastSample>, dateKey: int -> DateKey, k: DateKey)
    ensures SamplesOn(a + b, dateKey, k) == SamplesOn(a, dateKey, k) + SamplesOn(b, dateKey, k)
  {
    if b == [] {
      assert a + b == a;
    } else {
      var b', y := b[..|b| - 1], b[|b| - 1];
      var ab := a + b;
      assert ab[..|ab| - 1] == a + b';
      assert ab[|ab| - 1] == y;
      var tail := if dateKey(y.dt) == k then [y] else [];
      assert SamplesOn(ab, dateKey, k) == SamplesOn(a + b', dateKey, k) + tail;
      assert SamplesOn(b, dateKey, k) == SamplesOn(b', dateKey, k) + tail;
      calc {
        SamplesOn(ab, dateKey, k);
        SamplesOn(a + b', dateKey, k) + tail;
        { SamplesOnConcat(a, b', dateKey, k); }
        SamplesOn(a, dateKey, k) + SamplesOn(b', dateKey, k) + tail;
        SamplesOn(a, dateKey, k) + (SamplesOn(b', dateKey, k) + tail);
      }
    }
  }

  /** The groups of the listed keys, in key order. */
  function GroupsOf(keys: seq<DateKey>, list: seq<ForecastSample>, dateKey: int -> DateKey): seq<ForecastSample>
  {
    if keys == [] then [] else SamplesOn(list, dateKey, keys[0]) + GroupsOf(keys[1..], list, dateKey)
  }

  lemma {:induction false} GroupsOfAppendKey(keys: seq<DateKey>, k: DateKey, list: seq<ForecastSample>, dateKey: int -> DateKey)
    ensures GroupsOf(keys + [k], list, dateKey) == GroupsOf(keys, list, dateKey) + SamplesOn(list, dateKey, k)
  {
    if keys != [] {
      assert (keys + [k])[1..] == keys[1..] + [k];
      GroupsOfAppendKey(keys[1..], k, list, dateKey);
    }
  }

  lemma {:induction false} GroupsOfAppendSample(keys: seq<DateKey>, pre: seq<ForecastSample>, x: ForecastSample, dateKey: int -> DateKey)
    requires Distinct(keys)
    ensures multiset(GroupsOf(keys, pre + [x], dateKey)) ==
      multiset(GroupsOf(keys, pre, dateKey)) + if dateKey(x.dt) in keys then multiset{x} else multiset{}
  {
    if keys != [] {
      var list := pre + [x];
      assert list[..|list| - 1] == pre;
      assert Distinct(keys[1..]);
      assert dateKey(x.dt) in keys <==> dateKey(x.dt) == keys[0] || dateKey(x.dt) in keys[1..];
      assert keys[0] !in keys[1..];
      GroupsOfAppendSample(keys[1..], pre, x, dateKey);
    }
  }

  lemma {:induction false} GroupsOfPartition(list: seq<ForecastSample>, dateKey: int -> DateKey)
    ensures multiset(GroupsOf(DateKeys(list, dateKey), list, dateKey)) == multiset(list)
  {
    if list != [] {
      var pre, x := list[..|list| - 1], list[|list| - 1];
      assert list == pre + [x];
      var keys := DateKeys(pre, dateKey);
      var kx := dateKey(x.dt);
      GroupsOfPartition(pre, dateKey);
      DateKeysDistinct(pre, dateKey);
      GroupsOfAppendSample(keys, pre, x, dateKey);
      if kx !in keys {
        GroupsOfAppendKey(keys, kx, list, dateKey);
        GroupNonEmptyIff(pre, dateKey, kx);
      }
    }
  }

  lemma {:induction false} FlattenDayGroups(keys: seq<DateKey>, list: seq<ForecastSample>, dateKey: int -> DateKey)
    ensures Flatten(seq(|keys|, i requires 0 <= i < |keys| => (keys[i], SamplesOn(list, dateKey, keys[i]))))
         == GroupsOf(keys, list, dateKey)
  {
    var groups := seq(|keys|, i requires 0 <= i < |keys| => (keys[i], SamplesOn(list, dateKey, keys[i])));
    if keys != [] {
      FlattenDayGroups(keys[1..], list, dateKey);
      assert groups[1..] == seq(|keys[1..]|, i requires 0 <= i < |keys[1..]| => (keys[1..][i], SamplesOn(list, dateKey, keys[1..][i])));
    }
  }

  /** Every sample lands in exactly one group: laying the groups end to end gives back
      the input list up to order. */
  lemma GroupsPartitionSamples(list: seq<ForecastSample>, dateKey: int -> DateKey)
    ensures multiset(Flatten(DayGroups(list, dateKey))) == multiset(list)
  {
    FlattenDayGroups(DateKeys(list, dateKey), list, dateKey);
    GroupsOfPartition(list, dateKey);
  }

  /** Every sample lands in the group of its own date key. */
  lemma {:induction false} SampleInOwnGroup(list: seq<ForecastSample>, dateKey: int -> DateKey, i: nat)
    requires i < |list|
    ensures list[i] in SamplesOn(list, dateKey, dateKey(list[i].dt))
  {
    var pre, k := list[..|list| - 1], dateKey(list[i].dt);
    var tail := if dateKey(list[|list| - 1].dt) == k then [list[|list| - 1]] else [];
    assert SamplesOn(list, dateKey, k) == SamplesOn(pre, dateKey, k) + tail;
    if i < |pre| {
      SampleInOwnGroup(pre, dateKey, i);
      assert pre[i] == list[i];
    }
  }

  /** The first key is the date of the first sample: the one labelled "Today". */
  lemma {:induction false} FirstKeyIsFirstDate(list: seq<ForecastSample>, dateKey: int -> DateKey)
    requires list != []
    ensures |DateKeys(list, dateKey)| > 0 && DateKeys(list, dateKey)[0] == dateKey(list[0].dt)
  {
    var pre := list[..|list| - 1];
    if pre != [] {
      FirstKeyIsFirstDate(pre, dateKey);
      assert pre[0] == list[0];
    }
  }

  /** A sample of a group is a sample of the list. */
  lemma {:induction false} SamplesMembers(list: seq<ForecastSample>, dateKey: int -> DateKey, k: DateKey, s: ForecastSample)
    requires s in SamplesOn(list, dateKey, k)
    ensures s in list
  {
    var pre := list[..|list| - 1];
    if s in SamplesOn(pre, dateKey, k) {
      SamplesMembers(pre, dateKey, k, s);
      assert list == pre + [list[|list| - 1]];
    }
  }
}
