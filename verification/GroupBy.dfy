/** SQL's GROUP BY over keyed amounts: the groups, listed in any order, partition the rows. */
module GroupBy {
  import opened Common

  datatype Item = Item(key: string, value: real)

  function CountOf(items: seq<Item>, key: string): nat {
    if items == [] then 0
    else CountOf(items[..|items| - 1], key) + (if items[|items| - 1].key == key then 1 else 0)
  }

  function SumOf(items: seq<Item>, key: string): real {
    if items == [] then 0.0
    else SumOf(items[..|items| - 1], key) + (if items[|items| - 1].key == key then items[|items| - 1].value else 0.0)
  }

  /** The largest value of the group; values are magnitudes, so an empty group has zero. */
  function MaxOf(items: seq<Item>, key: string): real {
    if items == [] then 0.0
    else
      var m := MaxOf(items[..|items| - 1], key);
      if items[|items| - 1].key == key then Larger(m, items[|items| - 1].value) else m
  }

  function Total(items: seq<Item>): real {
    if items == [] then 0.0 else Total(items[..|items| - 1]) + items[|items| - 1].value
  }

  function MaxAll(items: seq<Item>): real {
    if items == [] then 0.0 else Larger(MaxAll(items[..|items| - 1]), items[|items| - 1].value)
  }

  /** The keys of the groups: each key that occurs, once. */
  ghost predicate IsGrouping(keys: seq<string>, items: seq<Item>) {
    Distinct(keys) && forall k :: k in keys <==> CountOf(items, k) > 0
  }

  function CountOver(keys: seq<string>, items: seq<Item>): nat {
    if keys == [] then 0 else CountOver(keys[..|keys| - 1], items) + CountOf(items, keys[|keys| - 1])
  }

  function SumOver(keys: seq<string>, items: seq<Item>): real {
    if keys == [] then 0.0 else SumOver(keys[..|keys| - 1], items) + SumOf(items, keys[|keys| - 1])
  }

  function MaxOver(keys: seq<string>, items: seq<Item>): real {
    if keys == [] then 0.0 else Larger(MaxOver(keys[..|keys| - 1], items), MaxOf(items, keys[|keys| - 1]))
  }

  predicate Magnitudes(items: seq<Item>) {
    forall i :: 0 <= i < |items| ==> items[i].value >= 0.0
  }

  lemma {:induction false} OverNothing(keys: seq<string>)
    ensures CountOver(keys, []) == 0 && SumOver(keys, []) == 0.0 && MaxOver(keys, []) == 0.0
  {
    if keys != [] {
      OverNothing(keys[..|keys| - 1]);
    }
  }

  /** One more row changes exactly the group it belongs to. */
  lemma {:induction false} OneRowMore(keys: seq<string>, items: seq<Item>)
    requires Distinct(keys) && items != []
    ensures var it, rest := items[|items| - 1], items[..|items| - 1];
            && CountOver(keys, items) == CountOver(keys, rest) + (if it.key in keys then 1 else 0)
            && SumOver(keys, items) == SumOver(keys, rest) + (if it.key in keys then it.value else 0.0)
            && MaxOver(keys, items)
               == (if it.key in keys then Larger(MaxOver(keys, rest), it.value) else MaxOver(keys, rest))
  {
    if keys != [] {
      OneRowMore(keys[..|keys| - 1], items);
      var k := keys[|keys| - 1];
      assert k !in keys[..|keys| - 1];
      assert keys == keys[..|keys| - 1] + [k];
    }
  }

  /** Summing, counting and taking the maximum by group, then over the groups, agrees with
      doing so over all rows, for any list of distinct keys that misses none. */
  lemma {:induction false} GroupsPartition(keys: seq<string>, items: seq<Item>)
    requires Distinct(keys) && forall i :: 0 <= i < |items| ==> items[i].key in keys
    ensures CountOver(keys, items) == |items|
    ensures SumOver(keys, items) == Total(items)
    ensures MaxOver(keys, items) == MaxAll(items)
  {
    if items == [] {
      OverNothing(keys);
    } else {
      GroupsPartition(keys, items[..|items| - 1]);
      OneRowMore(keys, items);
    }
  }

  lemma {:induction false} OccursIsCounted(items: seq<Item>, i: nat)
    requires i < |items|
    ensures CountOf(items, items[i].key) > 0
  {
    if i < |items| - 1 {
      OccursIsCounted(items[..|items| - 1], i);
    }
  }

  lemma GroupingPartitions(keys: seq<string>, items: seq<Item>)
    requires IsGrouping(keys, items)
    ensures CountOver(keys, items) == |items|
    ensures SumOver(keys, items) == Total(items)
    ensures MaxOver(keys, items) == MaxAll(items)
  {
    forall i | 0 <= i < |items| ensures items[i].key in keys {
      OccursIsCounted(items, i);
    }
    GroupsPartition(keys, items);
  }

  /** A grouping of any rows exists. */
  function KeysOf(items: seq<Item>): seq<string> {
    if items == [] then []
    else
      var keys := KeysOf(items[..|items| - 1]);
      if items[|items| - 1].key in keys then keys else keys + [items[|items| - 1].key]
  }

  lemma {:induction false} KeysAreGrouping(items: seq<Item>)
    ensures IsGrouping(KeysOf(items), items)
  {
    if items != [] {
      KeysAreGrouping(items[..|items| - 1]);
    }
  }

  predicate IsOf(it: Item, key: string) { it.key == key }

  lemma {:induction false} NoneOfGroup(items: seq<Item>, key: string)
    requires CountOf(items, key) == 0
    ensures MaxOf(items, key) == 0.0
  {
    if items != [] {
      NoneOfGroup(items[..|items| - 1], key);
    }
  }

  /** The maximum of a group of magnitudes bounds the group and is one of its values. */
  lemma {:induction false} MaxOfIsMax(items: seq<Item>, key: string)
    requires Magnitudes(items)
    ensures forall i :: 0 <= i < |items| && IsOf(items[i], key) ==> items[i].value <= MaxOf(items, key)
    ensures CountOf(items, key) > 0
        ==> exists i :: 0 <= i < |items| && IsOf(items[i], key) && items[i].value == MaxOf(items, key)
    ensures MaxOf(items, key) >= 0.0
  {
    if items != [] {
      var init, n := items[..|items| - 1], |items| - 1;
      MaxOfIsMax(init, key);
      if CountOf(init, key) == 0 {
        NoneOfGroup(init, key);
      }
      if IsOf(items[n], key) && items[n].value == MaxOf(items, key) {
      } else if i :| 0 <= i < |init| && IsOf(init[i], key) && init[i].value == MaxOf(init, key) {
        assert IsOf(items[i], key) && items[i].value == MaxOf(items, key);
      }
    }
  }

  /** So does the maximum over all rows. */
  lemma {:induction false} MaxAllIsMax(items: seq<Item>)
    requires Magnitudes(items)
    ensures forall i :: 0 <= i < |items| ==> items[i].value <= MaxAll(items)
    ensures items != [] ==> exists i :: 0 <= i < |items| && items[i].value == MaxAll(items)
    ensures MaxAll(items) >= 0.0
  {
    if items != [] {
      var init, n := items[..|items| - 1], |items| - 1;
      MaxAllIsMax(init);
      if items[n].value == MaxAll(items) {
      } else if i :| 0 <= i < |init| && init[i].value == MaxAll(init) {
        assert items[i].value == MaxAll(items);
      }
    }
  }
}
