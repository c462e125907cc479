/** Identifiers, option values and finite sums shared by the other modules. */
module Common {

  datatype Option<+T> = None | Some(value: T) {
    function GetOr(default: T): T {
      if Some? then value else default
    }
  }

  type OrderId = nat

  /** A user is known by the login, which is unique in the users table. */
  datatype UserId = UserId(login: string)

  /** Instants of a clock that never goes back; 0 is Go's zero time. */
  type Time = nat

  /** Amounts in units of 10^-4, the scale of the money columns. */
  type Money = int

  /** The number of values of Go's uint64. */
  const UINT64_SIZE := 0x1_0000_0000_0000_0000

  // ---- Sums over finite sets of keys ----

  ghost function Pick<K>(keys: set<K>): (k: K)
    requires keys != {}
    ensures k in keys
  {
    var k :| k in keys; k
  }

  ghost function Sum<K(!new)>(keys: set<K>, f: K -> int): int {
    if keys == {} then 0 else var k := Pick(keys); f(k) + Sum(keys - {k}, f)
  }

  lemma {:induction false} SumSplit<K(!new)>(keys: set<K>, f: K -> int, k: K)
    requires k in keys
    ensures Sum(keys, f) == f(k) + Sum(keys - {k}, f)
    decreases keys
  {
    var j := Pick(keys);
    if j != k {
      SumSplit(keys - {j}, f, k);
      SumSplit(keys - {k}, f, j);
      assert keys - {j} - {k} == keys - {k} - {j};
    }
  }

  lemma {:induction false} SumAgrees<K(!new)>(keys: set<K>, f: K -> int, g: K -> int)
    requires forall k :: k in keys ==> f(k) == g(k)
    ensures Sum(keys, f) == Sum(keys, g)
    decreases keys
  {
    if keys != {} {
      SumAgrees(keys - {Pick(keys)}, f, g);
    }
  }

  /** Changing the summand at one key (old or new) moves the sum by that change. */
  lemma SumChange<K(!new)>(before: set<K>, after: set<K>, f: K -> int, g: K -> int, k: K)
    requires k in after && before - {k} == after - {k}
    requires k !in before ==> f(k) == 0
    requires forall j :: j in before && j != k ==> f(j) == g(j)
    ensures Sum(after, g) == Sum(before, f) - f(k) + g(k)
  {
    SumSplit(after, g, k);
    SumAgrees(before - {k}, f, g);
    if k in before {
      SumSplit(before, f, k);
    } else {
      assert before - {k} == before;
    }
  }
}
