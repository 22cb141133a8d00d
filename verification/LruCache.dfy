/**
  The bounded in-process cache (rt-app/core-go/cache/memory.go): a recency list and an index map
  kept in step, refining a plain sequence of items ordered from least to most recently used; and,
  over whole histories, exactly which Gets hit and what they return.
*/
module LruCache {
  import opened Prelude

  const MAX_KEY_LENGTH := 240
  const MAX_TTL := 2_592_000_000

  type Value = string

  datatype Item = Item(key: string, value: Value, expires: int)

  predicate ValidEntry(key: string, ttl: int) {
    0 < |key| <= MAX_KEY_LENGTH && 1 <= ttl <= MAX_TTL
  }

  // ---- the simple form: items from least to most recently used ----

  function Unexpired(items: seq<Item>, now: int): seq<Item> {
    if items == [] then []
    else Unexpired(items[..|items| - 1], now) + if items[|items| - 1].expires > now then [items[|items| - 1]] else []
  }

  function WithoutKey(items: seq<Item>, key: string): seq<Item> {
    if items == [] then []
    else WithoutKey(items[..|items| - 1], key) + if items[|items| - 1].key != key then [items[|items| - 1]] else []
  }

  function FindItem(items: seq<Item>, key: string): (r: Option<Item>)
    ensures r.Some? ==> r.value in items && r.value.key == key
    ensures r.None? ==> forall x :: x in items ==> x.key != key
  {
    if items == [] then None
    else if items[|items| - 1].key == key then Some(items[|items| - 1])
    else FindItem(items[..|items| - 1], key)
  }

  function Newest(items: seq<Item>, max: nat): seq<Item> {
    if |items| > max then items[|items| - max..] else items
  }

  function AfterGet(items: seq<Item>, key: string, now: int): seq<Item> {
    match FindItem(items, key)
    case None => items
    case Some(x) => WithoutKey(items, key) + if x.expires <= now then [] else [x]
  }

  function Answer(items: seq<Item>, key: string, now: int): Option<Value> {
    match FindItem(items, key)
    case None => None
    case Some(x) => if x.expires <= now then None else Some(x.value)
  }

  function AfterSet(items: seq<Item>, max: nat, key: string, value: Value, ttl: int, now: int): seq<Item> {
    Newest(WithoutKey(Unexpired(items, now), key) + [Item(key, value, now + ttl)], max)
  }

  predicate DistinctKeys(items: seq<Item>) {
    forall i, j :: 0 <= i < j < |items| ==> items[i].key != items[j].key
  }

  lemma {:induction false} UnexpiredItems(items: seq<Item>, now: int)
    ensures forall x :: x in Unexpired(items, now) <==> x in items && x.expires > now
    ensures DistinctKeys(items) ==> DistinctKeys(Unexpired(items, now))
    ensures |Unexpired(items, now)| <= |items|
  {
    hide DistinctKeys;
    if items == [] {
      NoKeys();
    } else {
      var n := |items| - 1;
      UnexpiredItems(items[..n], now);
      assert items == items[..n] + [items[n]];
      if DistinctKeys(items) {
        LastIsDistinct(items);
        OneMoreKey(Unexpired(items[..n], now), items[n]);
      }
    }
  }

  lemma {:induction false} ItemsWithoutKey(items: seq<Item>, key: string)
    ensures forall x :: x in WithoutKey(items, key) <==> x in items && x.key != key
    ensures DistinctKeys(items) ==> DistinctKeys(WithoutKey(items, key))
    ensures |WithoutKey(items, key)| <= |items|
  {
    hide DistinctKeys;
    if items == [] {
      NoKeys();
    } else {
      var n := |items| - 1;
      ItemsWithoutKey(items[..n], key);
      assert items == items[..n] + [items[n]];
      if DistinctKeys(items) {
        LastIsDistinct(items);
        OneMoreKey(WithoutKey(items[..n], key), items[n]);
      }
    }
  }

  lemma NoKeys()
    ensures DistinctKeys([])
  {}

  lemma OneMoreKey(items: seq<Item>, x: Item)
    requires DistinctKeys(items) && forall y :: y in items ==> y.key != x.key
    ensures DistinctKeys(items + [x]) && items + [] == items
  {}

  lemma LastIsDistinct(items: seq<Item>)
    requires DistinctKeys(items) && items != []
    ensures DistinctKeys(items[..|items| - 1])
    ensures forall x :: x in items[..|items| - 1] ==> x.key != items[|items| - 1].key
  {}

  // ---- whole histories ----

  datatype Call = Get(key: string, now: int) | Set(key: string, value: Value, ttl: int, now: int) | Delete(key: string, now: int)

  function Step(items: seq<Item>, max: nat, call: Call): seq<Item> {
    match call
    case Get(key, now) => AfterGet(items, key, now)
    case Set(key, value, ttl, now) => if ValidEntry(key, ttl) then AfterSet(items, max, key, value, ttl, now) else items
    case Delete(key, _) => WithoutKey(items, key)
  }

  function Run(max: nat, calls: seq<Call>): seq<Item> {
    if calls == [] then [] else Step(Run(max, calls[..|calls| - 1]), max, calls[|calls| - 1])
  }

  /** What the last Set of a key stored, unless a Delete followed it. */
  function LastSet(calls: seq<Call>, key: string): Option<Item> {
    if calls == [] then None
    else
      var last := calls[|calls| - 1];
      if last.Set? && last.key == key && ValidEntry(key, last.ttl) then Some(Item(key, last.value, last.now + last.ttl))
      else if last.Delete? && last.key == key then None
      else LastSet(calls[..|calls| - 1], key)
  }

  /** A call that makes its key the most recently used one. */
  predicate Touches(items: seq<Item>, call: Call) {
    (call.Set? && ValidEntry(call.key, call.ttl)) || (call.Get? && Answer(items, call.key, call.now).Some?)
  }

  /** The other keys that were touched since a key was last touched itself. */
  function OthersSince(max: nat, calls: seq<Call>, key: string): set<string> {
    if calls == [] then {}
    else
      var front, last := calls[..|calls| - 1], calls[|calls| - 1];
      if !Touches(Run(max, front), last) then OthersSince(max, front, key)
      else if last.key == key then {}
      else OthersSince(max, front, key) + {last.key}
  }

  predicate InTime(calls: seq<Call>) {
    forall i, j :: 0 <= i < j < |calls| ==> calls[i].now <= calls[j].now
  }

  /** The items are within capacity, under distinct keys, each as it was last set. */
  lemma {:induction false} ItemsWereLastSet(max: nat, calls: seq<Call>)
    requires max >= 1
    ensures |Run(max, calls)| <= max && DistinctKeys(Run(max, calls))
    ensures forall x :: x in Run(max, calls) ==> LastSet(calls, x.key) == Some(x)
  {
    if calls != [] {
      var front, last := calls[..|calls| - 1], calls[|calls| - 1];
      ItemsWereLastSet(max, front);
      StepItems(Run(max, front), max, last);
    }
  }

  /** What one call leaves: items that were there, and the one it set, if it set one. */
  ghost predicate Follows(items: seq<Item>, after: seq<Item>, max: nat, call: Call) {
    && DistinctKeys(after) && |after| <= max
    && (forall x :: x in after && x.key != call.key ==> x in items)
    && (forall x :: x in after && x.key == call.key ==>
          if call.Set? && ValidEntry(call.key, call.ttl) then x == Item(call.key, call.value, call.now + call.ttl) else x in items && !call.Delete?)
  }

  lemma StepItems(items: seq<Item>, max: nat, call: Call)
    requires max >= 1 && DistinctKeys(items) && |items| <= max
    ensures Follows(items, Step(items, max, call), max, call)
  {
    hide Unexpired, WithoutKey, FindItem, AfterSet, AfterGet;
    match call
    case Get(key, now) => GetItems(items, max, key, now);
    case Set(key, value, ttl, now) => SetItems(items, max, key, value, ttl, now);
    case Delete(key, _) => ItemsWithoutKey(items, key);
  }

  lemma GetItems(items: seq<Item>, max: nat, key: string, now: int)
    requires max >= 1 && DistinctKeys(items) && |items| <= max
    ensures Follows(items, AfterGet(items, key, now), max, Get(key, now))
  {
    hide WithoutKey, FindItem;
    ItemsWithoutKey(items, key);
    if FindItem(items, key).Some? {
      RemovedOne(items, FindItem(items, key).value);
    }
  }

  lemma SetItems(items: seq<Item>, max: nat, key: string, value: Value, ttl: int, now: int)
    requires max >= 1 && DistinctKeys(items) && |items| <= max
    ensures ValidEntry(key, ttl) ==> Follows(items, AfterSet(items, max, key, value, ttl, now), max, Set(key, value, ttl, now))
  {
    hide Unexpired, WithoutKey, Newest;
    UnexpiredItems(items, now);
    ItemsWithoutKey(Unexpired(items, now), key);
    NewestItems(WithoutKey(Unexpired(items, now), key) + [Item(key, value, now + ttl)], max);
  }

  lemma NewestItems(items: seq<Item>, max: nat)
    requires max >= 1 && DistinctKeys(items)
    ensures |Newest(items, max)| <= max && DistinctKeys(Newest(items, max))
    ensures forall x :: x in Newest(items, max) ==> x in items
    ensures items != [] ==> items[|items| - 1] in Newest(items, max)
  {
    if |items| > max {
      assert items[|items| - max..][max - 1] == items[|items| - 1];
    }
  }

  lemma {:induction false} RemovedOne(items: seq<Item>, x: Item)
    requires DistinctKeys(items) && x in items
    ensures |WithoutKey(items, x.key)| == |items| - 1
  {
    var n := |items| - 1;
    assert items == items[..n] + [items[n]];
    LastIsDistinct(items);
    if items[n] == x {
      NothingRemoved(items[..n], x.key);
    } else {
      RemovedOne(items[..n], x);
    }
  }

  lemma {:induction false} NothingRemoved(items: seq<Item>, key: string)
    requires forall x :: x in items ==> x.key != key
    ensures WithoutKey(items, key) == items
  {
    if items != [] {
      NothingRemoved(items[..|items| - 1], key);
      assert items == items[..|items| - 1] + [items[|items| - 1]];
    }
  }

  // ---- what stays ----

  /** The keys used more recently than a key. */
  function KeysBehind(items: seq<Item>, key: string): set<string> {
    if items == [] || items[|items| - 1].key == key then {}
    else KeysBehind(items[..|items| - 1], key) + {items[|items| - 1].key}
  }

  predicate HasKey(items: seq<Item>, key: string) {
    exists x :: x in items && x.key == key
  }

  lemma BehindAppended(items: seq<Item>, x: Item, key: string)
    ensures KeysBehind(items + [x], key) == if x.key == key then {} else KeysBehind(items, key) + {x.key}
  {
    assert (items + [x])[..|items|] == items;
  }

  lemma {:induction false} BehindUnexpired(items: seq<Item>, key: string, now: int)
    requires DistinctKeys(items) && HasKey(Unexpired(items, now), key)
    ensures KeysBehind(Unexpired(items, now), key) <= KeysBehind(items, key)
  {
    hide DistinctKeys, KeysBehind;
    var n := |items| - 1;
    var front, last := items[..n], items[n];
    assert items == front + [last];
    LastIsDistinct(items);
    UnexpiredItems(front, now);
    BehindAppended(front, last, key);
    BehindAppended(Unexpired(front, now), last, key);
    assert Unexpired(front, now) + [] == Unexpired(front, now);
    if last.key != key {
      BehindUnexpired(front, key, now);
    }
  }

  lemma {:induction false} BehindWithout(items: seq<Item>, key: string, other: string)
    requires key != other
    ensures KeysBehind(WithoutKey(items, other), key) <= KeysBehind(items, key)
  {
    if items != [] {
      var front, last := items[..|items| - 1], items[|items| - 1];
      BehindWithout(front, key, other);
      assert items == front + [last];
      BehindAppended(front, last, key);
      BehindAppended(WithoutKey(front, other), last, key);
      assert WithoutKey(front, other) + [] == WithoutKey(front, other);
    }
  }

  /** As many keys as items stand behind an item. */
  lemma {:induction false} BehindCounts(items: seq<Item>, i: nat)
    requires DistinctKeys(items) && i < |items|
    ensures |KeysBehind(items, items[i].key)| == |items| - 1 - i
    ensures forall k :: k in KeysBehind(items, items[i].key) ==> HasKey(items, k)
  {
    var n := |items| - 1;
    if i < n {
      var front := items[..n];
      LastIsDistinct(items);
      BehindCounts(front, i);
      assert forall k :: k in KeysBehind(front, items[i].key) ==> k != items[n].key;
      assert items[n] in items;
    }
  }

  lemma {:induction false} BehindInSuffix(items: seq<Item>, from: nat, key: string)
    requires from <= |items| && HasKey(items[from..], key) && DistinctKeys(items)
    ensures KeysBehind(items[from..], key) == KeysBehind(items, key)
  {
    var n := |items| - 1;
    if from < |items| && items[n].key != key {
      assert items[from..] == items[..n][from..] + [items[n]];
      assert HasKey(items[..n][from..], key);
      BehindInSuffix(items[..n], from, key);
      BehindAppended(items[..n][from..], items[n], key);
    }
  }

  lemma SuffixKeeps(items: seq<Item>, from: nat, i: nat)
    requires DistinctKeys(items) && from <= i < |items|
    ensures items[i] in items[from..] && KeysBehind(items[from..], items[i].key) == KeysBehind(items, items[i].key)
  {
    hide KeysBehind, DistinctKeys;
    assert items[from..][i - from] == items[i];
    BehindInSuffix(items, from, items[i].key);
  }

  /** Only an item with as many more recent ones as the capacity is evicted. */
  lemma NewestKeeps(items: seq<Item>, max: nat, x: Item)
    requires max >= 1 && DistinctKeys(items) && x in items && |KeysBehind(items, x.key)| < max
    ensures x in Newest(items, max)
    ensures KeysBehind(Newest(items, max), x.key) == KeysBehind(items, x.key)
  {
    hide KeysBehind, DistinctKeys, HasKey;
    var i :| 0 <= i < |items| && items[i] == x;
    BehindCounts(items, i);
    if |items| > max {
      SuffixKeeps(items, |items| - max, i);
    }
  }

  lemma FoundIsIn(items: seq<Item>, x: Item)
    requires DistinctKeys(items) && x in items
    ensures FindItem(items, x.key) == Some(x)
  {
    var y := FindItem(items, x.key).value;
    var i :| 0 <= i < |items| && items[i] == x;
    var j :| 0 <= j < |items| && items[j] == y;
  }

  lemma SubsetIsSmaller(a: set<string>, b: set<string>)
    requires a <= b
    ensures |a| <= |b|
  {
    if a != {} {
      var x :| x in a;
      SubsetIsSmaller(a - {x}, b - {x});
    }
  }

  lemma OtherGetKeeps(items: seq<Item>, x: Item, key: string, now: int)
    requires DistinctKeys(items) && x in items && key != x.key
    ensures x in AfterGet(items, key, now)
    ensures KeysBehind(AfterGet(items, key, now), x.key) <= KeysBehind(items, x.key) + if Answer(items, key, now).Some? then {key} else {}
  {
    hide WithoutKey, FindItem, KeysBehind;
    ItemsWithoutKey(items, key);
    BehindWithout(items, x.key, key);
    if FindItem(items, key).Some? {
      BehindAppended(WithoutKey(items, key), FindItem(items, key).value, x.key);
      assert WithoutKey(items, key) + [] == WithoutKey(items, key);
    }
  }

  lemma OtherSetKeeps(items: seq<Item>, max: nat, x: Item, key: string, value: Value, ttl: int, now: int)
    requires max >= 1 && DistinctKeys(items) && x in items && key != x.key && now < x.expires
    requires |KeysBehind(items, x.key) + {key}| < max
    ensures x in AfterSet(items, max, key, value, ttl, now)
    ensures KeysBehind(AfterSet(items, max, key, value, ttl, now), x.key) <= KeysBehind(items, x.key) + {key}
  {
    hide Unexpired, WithoutKey, KeysBehind, Newest;
    var kept := Unexpired(items, now);
    UnexpiredItems(items, now);
    BehindUnexpired(items, x.key, now);
    ItemsWithoutKey(kept, key);
    BehindWithout(kept, x.key, key);
    var all := WithoutKey(kept, key) + [Item(key, value, now + ttl)];
    BehindAppended(WithoutKey(kept, key), Item(key, value, now + ttl), x.key);
    SubsetIsSmaller(KeysBehind(all, x.key), KeysBehind(items, x.key) + {key});
    NewestKeeps(all, max, x);
  }

  /** A call about another key keeps an item, unless a Set pushes it over the capacity. */
  lemma OtherCallKeeps(items: seq<Item>, max: nat, x: Item, call: Call)
    requires max >= 1 && DistinctKeys(items) && x in items && call.key != x.key && call.now < x.expires
    requires |KeysBehind(items, x.key) + if Touches(items, call) then {call.key} else {}| < max
    ensures x in Step(items, max, call)
    ensures KeysBehind(Step(items, max, call), x.key) <= KeysBehind(items, x.key) + if Touches(items, call) then {call.key} else {}
  {
    hide AfterSet, AfterGet, Unexpired, WithoutKey, FindItem, KeysBehind, Answer;
    match call
    case Get(key, now) => OtherGetKeeps(items, x, key, now);
    case Set(key, value, ttl, now) =>
      if ValidEntry(key, ttl) {
        OtherSetKeeps(items, max, x, key, value, ttl, now);
      }
    case Delete(key, now) =>
      ItemsWithoutKey(items, key);
      BehindWithout(items, x.key, key);
  }

  /** A call about the key itself: it sets it, uses it, or leaves the more recent ones alone. */
  lemma OwnCallKeeps(items: seq<Item>, max: nat, x: Item, call: Call)
    requires max >= 1 && DistinctKeys(items) && |items| <= max && call.key == x.key && !call.Delete? && call.now < x.expires
    requires if call.Set? && ValidEntry(call.key, call.ttl) then x == Item(call.key, call.value, call.now + call.ttl) else x in items
    ensures x in Step(items, max, call)
    ensures Touches(items, call) ==> KeysBehind(Step(items, max, call), x.key) == {}
    ensures !Touches(items, call) ==> Step(items, max, call) == items
  {
    hide Unexpired, WithoutKey, KeysBehind, Newest, FindItem;
    match call
    case Get(key, now) =>
      FoundIsIn(items, x);
      BehindAppended(WithoutKey(items, key), x, key);
    case Set(key, value, ttl, now) =>
      if ValidEntry(key, ttl) {
        var kept := Unexpired(items, now);
        UnexpiredItems(items, now);
        ItemsWithoutKey(kept, key);
        var all := WithoutKey(kept, key) + [x];
        BehindAppended(WithoutKey(kept, key), x, key);
        assert |KeysBehind(all, x.key)| == 0;
        NewestKeeps(all, max, x);
      }
  }

  /** An item that was last set, and has not expired, stays while fewer other keys than the capacity are used after it. */
  lemma {:induction false} ItemStays(max: nat, calls: seq<Call>, x: Item)
    requires max >= 1 && LastSet(calls, x.key) == Some(x)
    requires forall i :: 0 <= i < |calls| ==> calls[i].now < x.expires
    requires |OthersSince(max, calls, x.key)| < max
    ensures x in Run(max, calls)
    ensures KeysBehind(Run(max, calls), x.key) <= OthersSince(max, calls, x.key)
  {
    hide Step, KeysBehind, Touches, FindItem;
    var front, last := calls[..|calls| - 1], calls[|calls| - 1];
    var items := Run(max, front);
    ItemsWereLastSet(max, front);
    SetTouches(items, last);
    if last.key == x.key {
      if !(last.Set? && ValidEntry(last.key, last.ttl)) {
        LiveGetTouches(items, x, last);
        if last.Get? && Touches(items, last) {
          TouchedIsThere(items, front, max, x, last);
        } else {
          ItemStays(max, front, x);
        }
      }
      OwnCallKeeps(items, max, x, last);
    } else {
      SubsetIsSmaller(OthersSince(max, front, x.key), OthersSince(max, calls, x.key));
      ItemStays(max, front, x);
      SubsetIsSmaller(KeysBehind(items, x.key) + (if Touches(items, last) then {last.key} else {}), OthersSince(max, calls, x.key));
      OtherCallKeeps(items, max, x, last);
    }
  }

  lemma SetTouches(items: seq<Item>, call: Call)
    ensures call.Set? ==> (Touches(items, call) <==> ValidEntry(call.key, call.ttl))
    ensures call.Delete? ==> !Touches(items, call)
  {}

  lemma LiveGetTouches(items: seq<Item>, x: Item, call: Call)
    requires DistinctKeys(items)
    ensures call.Get? && call.key == x.key && x in items && call.now < x.expires ==> Touches(items, call)
  {
    if x in items {
      FoundIsIn(items, x);
    }
  }

  lemma TouchedIsThere(items: seq<Item>, front: seq<Call>, max: nat, x: Item, call: Call)
    requires items == Run(max, front) && LastSet(front, x.key) == Some(x) && max >= 1
    requires call.Get? && call.key == x.key && Touches(items, call)
    ensures x in items
  {
    ItemsWereLastSet(max, front);
  }

  /**
    Which Gets hit, over every history: a Get returns only what was last set under its key, not
    deleted and not expired; and it does return it as long as fewer other keys than the capacity were
    used since.
  */
  lemma GetReturnsTheLastSet(max: nat, calls: seq<Call>, key: string, now: int)
    requires max >= 1 && forall i :: 0 <= i < |calls| ==> calls[i].now <= now
    ensures var answer, last := Answer(Run(max, calls), key, now), LastSet(calls, key);
            && (answer.Some? ==> last.Some? && last.value.value == answer.value && last.value.expires > now)
            && (last.Some? && last.value.expires > now && |OthersSince(max, calls, key)| < max ==> answer == Some(last.value.value))
  {
    hide Run, OthersSince, LastSet, FindItem;
    ItemsWereLastSet(max, calls);
    LastSetKey(calls, key);
    var last := LastSet(calls, key);
    if last.Some? && last.value.expires > now && |OthersSince(max, calls, key)| < max {
      ItemStays(max, calls, last.value);
      FoundIsIn(Run(max, calls), last.value);
    }
  }

  lemma {:induction false} LastSetKey(calls: seq<Call>, key: string)
    ensures LastSet(calls, key).Some? ==> LastSet(calls, key).value.key == key
  {
    if calls != [] {
      LastSetKey(calls[..|calls| - 1], key);
    }
  }

  // ---- the list and the map ----

  /** A list element; the value of an entry never changes once it is stored. */
  class Element {
    const key: string
    const value: Value
    const expires: int

    constructor (key: string, value: Value, expires: int)
      ensures this.key == key && this.value == value && this.expires == expires
    {
      this.key, this.value, this.expires := key, value, expires;
    }
  }

  function ItemsOf(order: seq<Element>): (r: seq<Item>)
    ensures |r| == |order| && forall i :: 0 <= i < |r| ==> r[i] == Item(order[i].key, order[i].value, order[i].expires)
  {
    seq(|order|, i requires 0 <= i < |order| => Item(order[i].key, order[i].value, order[i].expires))
  }

  /** The list and the map name the same elements, each under its own key. */
  ghost predicate Mirrored(order: seq<Element>, entries: map<string, Element>) {
    && DistinctKeys(ItemsOf(order))
    && (forall i :: 0 <= i < |order| ==> order[i].key in entries && entries[order[i].key] == order[i])
    && (forall k :: k in entries ==> entries[k].key == k && entries[k] in order)
  }

  lemma DroppedItems(order: seq<Element>, i: nat)
    requires DistinctKeys(ItemsOf(order)) && i < |order|
    ensures var rest := order[..i] + order[i + 1..];
            && DistinctKeys(ItemsOf(rest))
            && ItemsOf(rest) == ItemsOf(order)[..i] + ItemsOf(order)[i + 1..]
            && ItemsOf(rest) == WithoutKey(ItemsOf(order), order[i].key)
  {
    hide DistinctKeys, WithoutKey;
    var rest, items := order[..i] + order[i + 1..], ItemsOf(order);
    assert items[i].key == order[i].key;
    WithoutKeyAt(items, i);
    assert ItemsOf(rest) == items[..i] + items[i + 1..];
    ItemsWithoutKey(items, order[i].key);
  }

  lemma DroppedMirrors(order: seq<Element>, entries: map<string, Element>, i: nat)
    requires Mirrored(order, entries) && i < |order|
    ensures Mirrored(order[..i] + order[i + 1..], entries - {order[i].key})
  {
    hide DistinctKeys;
    var rest, left := order[..i] + order[i + 1..], entries - {order[i].key};
    DroppedItems(order, i);
    forall k | k in left
      ensures left[k].key == k && left[k] in rest
    {
      var j :| 0 <= j < |order| && order[j] == entries[k];
      assert rest[if j < i then j else j - 1] == entries[k];
    }
    forall j | 0 <= j < |rest|
      ensures rest[j].key in left && left[rest[j].key] == rest[j]
    {
      var at := if j < i then j else j + 1;
      assert rest[j] == order[at];
      KeysDiffer(order, at, i);
    }
  }

  lemma KeysDiffer(order: seq<Element>, i: nat, j: nat)
    requires DistinctKeys(ItemsOf(order)) && i < |order| && j < |order| && i != j
    ensures order[i].key != order[j].key
  {
    assert ItemsOf(order)[i].key == order[i].key && ItemsOf(order)[j].key == order[j].key;
  }

  lemma MirroredItems(order: seq<Element>, entries: map<string, Element>)
    requires Mirrored(order, entries)
    ensures DistinctKeys(ItemsOf(order))
  {}

  lemma UnexpiredStep(items: seq<Item>, i: nat, now: int)
    requires i < |items|
    ensures Unexpired(items[..i + 1], now) == Unexpired(items[..i], now) + if items[i].expires > now then [items[i]] else []
    ensures items[i..] == [items[i]] + items[i + 1..]
  {
    assert items[..i + 1][..i] == items[..i];
  }

  lemma MiddleDropped(front: seq<Item>, x: Item, rest: seq<Item>)
    ensures var all := front + ([x] + rest);
            all[|front|] == x && all[..|front|] + all[|front| + 1..] == front + rest && all == (front + [x]) + rest
  {}

  lemma AppendedMirrors(order: seq<Element>, entries: map<string, Element>, e: Element)
    requires Mirrored(order, entries) && e.key !in entries
    ensures Mirrored(order + [e], entries[e.key := e])
    ensures ItemsOf(order + [e]) == ItemsOf(order) + [Item(e.key, e.value, e.expires)]
  {
    var longer, all := order + [e], entries[e.key := e];
    assert ItemsOf(longer) == ItemsOf(order) + [Item(e.key, e.value, e.expires)];
    forall k | k in all
      ensures all[k].key == k && all[k] in longer
    {
      assert k != e.key ==> entries[k] in order;
      assert longer[|order|] == e;
    }
    forall i | 0 <= i < |order|
      ensures ItemsOf(order)[i].key != e.key
    {}
  }

  class Memory {
    const max: nat
    var order: seq<Element>
    var entries: map<string, Element>

    /** The list and the map hold the same elements, under distinct keys, within the capacity. */
    ghost predicate Valid()
      reads this
    {
      && max >= 1 && |order| <= max && InStep()
    }

    ghost predicate InStep()
      reads this
    {
      Mirrored(order, entries)
    }

    ghost function Items(): seq<Item>
      reads this
    {
      ItemsOf(order)
    }

    constructor (max: nat)
      requires max >= 1
      ensures Valid() && Items() == [] && this.max == max
    {
      this.max := max;
      order, entries := [], map[];
    }

    /** Takes the element at a place out of the list and the map. */
    method DropAt(i: nat)
      requires InStep() && i < |order|
      modifies this
      ensures InStep() && order == old(order)[..i] + old(order)[i + 1..] && old(order)[i].key !in entries
      ensures Items() == old(Items())[..i] + old(Items())[i + 1..]
      ensures Items() == WithoutKey(old(Items()), old(order)[i].key)
    {
      hide Mirrored, WithoutKey;
      DroppedMirrors(order, entries, i);
      MirroredItems(order, entries);
      DroppedItems(order, i);
      entries := entries - {order[i].key};
      order := order[..i] + order[i + 1..];
    }

    method Drop(e: Element)
      requires InStep() && e in order
      modifies this
      ensures InStep() && Items() == WithoutKey(old(Items()), e.key) && |order| == |old(order)| - 1 && e.key !in entries
    {
      var i :| 0 <= i < |order| && order[i] == e;
      DropAt(i);
    }

    method Append(e: Element)
      requires InStep() && e.key !in entries
      modifies this
      ensures InStep() && Items() == old(Items()) + [Item(e.key, e.value, e.expires)] && |order| == |old(order)| + 1 && e in order
    {
      AppendedMirrors(order, entries, e);
      entries := entries[e.key := e];
      order := order + [e];
    }

    /** The answer of a Get, and the item moved to the back, or dropped when it has expired. */
    method Get(key: string, now: int) returns (value: Option<Value>)
      requires Valid()
      modifies this
      ensures Valid()
      ensures value == Answer(old(Items()), key, now)
      ensures Items() == AfterGet(old(Items()), key, now)
    {
      if key !in entries {
        NotFound(Items(), key);
        return None;
      }
      var element := entries[key];
      ghost var x := Item(element.key, element.value, element.expires);
      ItemOfElement(order, element);
      FoundIsIn(Items(), x);
      Drop(element);
      if element.expires <= now {
        return None;
      }
      Append(element);
      value := Some(element.value);
    }

    lemma NotFound(items: seq<Item>, key: string)
      requires InStep() && items == Items() && key !in entries
      ensures FindItem(items, key).None?
    {}

    /** Drops what has expired, walking the list from the front. */
    method DropExpired(now: int)
      requires InStep()
      modifies this
      ensures InStep() && Items() == Unexpired(old(Items()), now)
    {
      hide Mirrored, DistinctKeys, WithoutKey, Unexpired;
      ghost var items := Items();
      ghost var seen := 0;
      NothingUnexpired(items, now);
      var i := 0;
      while i < |order|
        invariant InStep() && seen <= |items| && i <= |order|
        invariant i == |Unexpired(items[..seen], now)| && Items() == Unexpired(items[..seen], now) + items[seen..]
        decreases |order| - i
      {
        UnexpiredStep(items, seen, now);
        MiddleDropped(Unexpired(items[..seen], now), items[seen], items[seen + 1..]);
        if order[i].expires <= now {
          DropAt(i);
          assert Unexpired(items[..seen], now) + [] == Unexpired(items[..seen], now);
        } else {
          i := i + 1;
        }
        seen := seen + 1;
      }
      assert items[seen..] == [];
      assert items[..seen] == items;
    }

    lemma NothingUnexpired(items: seq<Item>, now: int)
      ensures Unexpired(items[..0], now) == [] && items[0..] == items
    {}

    /** Evicts the least recently used items beyond the capacity. */
    method Evict()
      requires InStep() && max >= 1
      modifies this
      ensures InStep() && Items() == Newest(old(Items()), max) && |order| <= max
    {
      hide Mirrored, DistinctKeys, WithoutKey;
      ghost var all := Items();
      while |order| > max
        invariant InStep() && |order| <= |all| && Items() == all[|all| - |order|..]
        invariant |order| >= max || |order| == |all|
      {
        DropAt(0);
      }
    }

    /** Stores an item as the most recent, after dropping expired ones; evicts the oldest beyond the capacity. */
    method Set(key: string, value: Value, ttl: int, now: int) returns (ok: bool)
      requires Valid()
      modifies this
      ensures Valid() && ok == (1 <= |key| <= 240 && 1 <= ttl <= 2_592_000_000)
      ensures Items() == if ok then AfterSet(old(Items()), max, key, value, ttl, now) else old(Items())
    {
      hide Mirrored, DistinctKeys, WithoutKey, Unexpired, ItemsOf, Newest;
      if !ValidEntry(key, ttl) {
        return false;
      }
      DropExpired(now);
      Forget(key);
      var element := new Element(key, value, now + ttl);
      Append(element);
      Evict();
      ok := true;
    }

    method Forget(key: string)
      requires InStep()
      modifies this
      ensures InStep() && Items() == WithoutKey(old(Items()), key) && key !in entries && |order| <= |old(order)|
    {
      if key in entries {
        Drop(entries[key]);
      } else {
        NotFound(Items(), key);
        NothingRemoved(Items(), key);
      }
    }

    method Delete(key: string)
      requires Valid()
      modifies this
      ensures Valid() && Items() == WithoutKey(old(Items()), key)
    {
      Forget(key);
    }
  }

  lemma ItemOfElement(order: seq<Element>, e: Element)
    requires e in order
    ensures Item(e.key, e.value, e.expires) in ItemsOf(order)
  {
    var i :| 0 <= i < |order| && order[i] == e;
    assert ItemsOf(order)[i] == Item(e.key, e.value, e.expires);
  }

  lemma {:induction false} WithoutKeyAt(items: seq<Item>, i: nat)
    requires DistinctKeys(items) && i < |items|
    ensures WithoutKey(items, items[i].key) == items[..i] + items[i + 1..]
  {
    var n := |items| - 1;
    LastIsDistinct(items);
    assert items == items[..n] + [items[n]];
    if i == n {
      NothingRemoved(items[..n], items[n].key);
      assert items[n + 1..] == [];
    } else {
      WithoutKeyAt(items[..n], i);
      assert items[i + 1..] == items[..n][i + 1..] + [items[n]];
      assert items[..n][..i] == items[..i];
    }
  }
}
