/** Small datatypes and arithmetic shared by every model of this project. */
module Prelude {

  datatype Option<+T> = None | Some(value: T) {
    function GetOr(default: T): T {
      if Some? then value else default
    }
  }

  function Min(a: int, b: int): int {
    if a <= b then a else b
  }

  function Max(a: int, b: int): int {
    if a >= b then a else b
  }

  /** The value of a key, or None: what `m[k]` with a presence flag gives in the source. */
  function Lookup<K, V>(m: map<K, V>, k: K): Option<V> {
    if k in m then Some(m[k]) else None
  }

  predicate Distinct<T(==)>(s: seq<T>) {
    forall i, j :: 0 <= i < j < |s| ==> s[i] != s[j]
  }

  /** The sum of f over a sequence. */
  function Total<T>(s: seq<T>, f: T -> int): int {
    if s == [] then 0 else Total(s[..|s| - 1], f) + f(s[|s| - 1])
  }

  lemma {:induction false} TotalOfConcatenation<T>(a: seq<T>, b: seq<T>, f: T -> int)
    ensures Total(a + b, f) == Total(a, f) + Total(b, f)
  {
    if b == [] {
      assert a + b == a;
    } else {
      assert (a + b)[..|a + b| - 1] == a + b[..|b| - 1];
      TotalOfConcatenation(a, b[..|b| - 1], f);
    }
  }

  lemma TotalOfOne<T>(x: T, f: T -> int)
    ensures Total([x], f) == f(x)
  {
    assert [x][..0] == [];
    assert Total([x][..0], f) == 0;
  }

  /** The decimal form of a number. */
  function Decimal(n: nat): (r: string)
    ensures r != ""
  {
    if n < 10 then [('0' as int + n) as char] else Decimal(n / 10) + [('0' as int + n % 10) as char]
  }

  lemma {:induction false} DecimalsDiffer(m: nat, n: nat)
    requires Decimal(m) == Decimal(n)
    ensures m == n
  {
    var s := Decimal(m);
    assert (m >= 10 ==> |Decimal(m)| >= 2) && (n >= 10 ==> |Decimal(n)| >= 2);
    if m >= 10 && n >= 10 {
      assert s[..|s| - 1] == Decimal(m / 10) == Decimal(n / 10);
      DecimalsDiffer(m / 10, n / 10);
      assert s[|s| - 1] == ('0' as int + m % 10) as char == ('0' as int + n % 10) as char;
    }
  }
}
