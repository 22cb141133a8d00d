/** The order in which a JavaScript object lists its own string keys. */
module JsKeys {
  import opened Prelude

  function DigitsValue(s: string): nat {
    if s == [] then 0 else DigitsValue(s[..|s| - 1]) * 10 + if '0' <= s[|s| - 1] <= '9' then s[|s| - 1] as int - '0' as int else 0
  }

  /** A JavaScript array index: the canonical decimal form of 0 .. 2^32 - 2. */
  function ArrayIndex(key: string): Option<nat> {
    if key == "" || |key| > 10 || (|key| > 1 && key[0] == '0') then None
    else if exists i :: 0 <= i < |key| && !('0' <= key[i] <= '9') then None
    else if DigitsValue(key) <= 0xFFFF_FFFE then Some(DigitsValue(key))
    else None
  }

  predicate IsDigit(c: char) {
    '0' <= c <= '9'
  }

  lemma {:induction false} DecimalIsRead(n: nat)
    ensures DigitsValue(Decimal(n)) == n
    ensures forall i :: 0 <= i < |Decimal(n)| ==> IsDigit(Decimal(n)[i])
    ensures |Decimal(n)| > 1 ==> Decimal(n)[0] != '0'
    ensures n > 0 ==> Decimal(n)[0] != '0'
  {
    var s := Decimal(n);
    if n >= 10 {
      DecimalIsRead(n / 10);
      assert s[..|s| - 1] == Decimal(n / 10);
    } else {
      assert s[..0] == [];
    }
  }

  /** Below 10^k, k digits are enough. */
  lemma {:induction false} DecimalIsShort(n: nat, k: nat)
    requires k >= 1 && n < PowerOfTen(k)
    ensures |Decimal(n)| <= k
  {
    if n >= 10 {
      assert k > 1;
      DecimalIsShort(n / 10, k - 1);
    }
  }

  function PowerOfTen(k: nat): nat {
    if k == 0 then 1 else 10 * PowerOfTen(k - 1)
  }

  lemma {:induction false} DigitsAreDecimal(s: string)
    requires s != "" && (forall i :: 0 <= i < |s| ==> IsDigit(s[i])) && (|s| > 1 ==> s[0] != '0')
    ensures Decimal(DigitsValue(s)) == s
    ensures s[0] != '0' ==> DigitsValue(s) > 0
  {
    var front, last := s[..|s| - 1], s[|s| - 1];
    if |s| == 1 {
      assert front == [];
      assert s == [last];
    } else {
      DigitsAreDecimal(front);
      assert s == front + [last];
    }
  }

  /** A key is an array index exactly when it is the decimal form of a number up to 2^32 - 2. */
  lemma IndicesAreDecimal(key: string, n: nat)
    ensures ArrayIndex(key) == Some(n) <==> n <= 4_294_967_294 && key == Decimal(n)
  {
    if n <= 4_294_967_294 && key == Decimal(n) {
      DecimalIsRead(n);
      TenDigits();
      DecimalIsShort(n, 10);
    }
    if ArrayIndex(key) == Some(n) {
      DigitsAreDecimal(key);
    }
  }

  lemma TenDigits()
    ensures PowerOfTen(10) == 10_000_000_000
  {
    assert PowerOfTen(5) == 100_000;
  }

  /** Index keys come first, ascending; the others keep the order they arrived in. */
  predicate GoesBefore(key: string, other: string) {
    ArrayIndex(key).Some? && (ArrayIndex(other).None? || ArrayIndex(other).value > ArrayIndex(key).value)
  }

  /** A new key, at the position the object gives it. */
  function InsertedKey(keys: seq<string>, key: string): (r: seq<string>)
    ensures |r| == |keys| + 1
  {
    if keys == [] then [key]
    else if GoesBefore(key, keys[0]) then [key] + keys
    else [keys[0]] + InsertedKey(keys[1..], key)
  }

  /** The keys of an object, given the order in which they were first set. */
  function KeysOf(order: seq<string>): (r: seq<string>)
    ensures |r| == |order|
  {
    if order == [] then [] else InsertedKey(KeysOf(order[..|order| - 1]), order[|order| - 1])
  }

  /** No key stands behind one that it goes before. */
  predicate InOrder(keys: seq<string>) {
    forall i, j :: 0 <= i < j < |keys| ==> !GoesBefore(keys[j], keys[i])
  }

  lemma {:induction false} InsertedKeyElements(keys: seq<string>, key: string)
    ensures forall k :: k in InsertedKey(keys, key) <==> k == key || k in keys
  {
    if keys != [] {
      assert keys == [keys[0]] + keys[1..];
      InsertedKeyElements(keys[1..], key);
    }
  }

  lemma {:induction false} InsertedInOrder(keys: seq<string>, key: string)
    requires InOrder(keys)
    ensures InOrder(InsertedKey(keys, key))
    ensures (forall k :: k in keys ==> !GoesBefore(key, k)) ==> InsertedKey(keys, key) == keys + [key]
  {
    hide ArrayIndex;
    if keys != [] {
      var rest := keys[1..];
      InsertedInOrder(rest, key);
      InsertedKeyElements(rest, key);
      if GoesBefore(key, keys[0]) {
        forall j | 0 <= j < |keys|
          ensures !GoesBefore(keys[j], key)
        {
          GoesBeforeIsTransitive(keys[j], key, keys[0]);
        }
      } else {
        var longer := InsertedKey(rest, key);
        forall j | 0 <= j < |longer|
          ensures !GoesBefore(longer[j], keys[0])
        {
          assert longer[j] in longer;
        }
        assert keys + [key] == [keys[0]] + (rest + [key]);
        assert keys[0] in keys && forall k :: k in rest ==> k in keys;
      }
    }
  }

  lemma GoesBeforeIsTransitive(a: string, b: string, c: string)
    requires GoesBefore(b, c)
    ensures GoesBefore(a, b) ==> GoesBefore(a, c) && !GoesBefore(b, a)
    ensures !GoesBefore(a, a)
  {}

  lemma {:induction false} KeysOfElements(order: seq<string>)
    ensures InOrder(KeysOf(order))
    ensures forall k :: k in KeysOf(order) <==> k in order
  {
    if order != [] {
      var front, last := order[..|order| - 1], order[|order| - 1];
      KeysOfElements(front);
      InsertedKeyElements(KeysOf(front), last);
      InsertedInOrder(KeysOf(front), last);
      assert order == front + [last];
    }
  }

  /** The keys come in the order they were set in exactly when that puts array indices first, ascending. */
  lemma {:induction false} KeysKeepTheirOrder(order: seq<string>)
    ensures KeysOf(order) == order <==> InOrder(order)
  {
    KeysOfElements(order);
    if order != [] && InOrder(order) {
      var front, last := order[..|order| - 1], order[|order| - 1];
      KeysKeepTheirOrder(front);
      InsertedInOrder(front, last);
      forall k | k in front
        ensures !GoesBefore(last, k)
      {
        var i :| 0 <= i < |front| && front[i] == k;
        assert order[i] == k && order[|order| - 1] == last;
      }
      assert order == front + [last];
    }
  }
}
