/** The per-run sender counter table (`@from = Hash.new(0)`): sender address
    `"mailbox@host"` to the number of unread messages seen from it this run.
    A key that is absent reads as 0, as with a Ruby hash whose default is 0. */
module SenderTable {

  type Table = map<string, nat>

  /** `@from[k]` with the hash's default of 0. */
  function Get(t: Table, k: string): nat {
    if k in t then t[k] else 0
  }

  /** `@from[k] += 1`: the key is created on first use. */
  function Bump(t: Table, k: string): Table {
    t[k := Get(t, k) + 1]
  }

  /** Bumping adds `k` as a key, raises its counter by one and leaves every
      other counter as it was. */
  lemma BumpFacts(t: Table, k: string)
    ensures Bump(t, k).Keys == t.Keys + {k}
    ensures Get(Bump(t, k), k) == Get(t, k) + 1
    ensures forall j :: j != k ==> Get(Bump(t, k), j) == Get(t, j)
  {
  }

  /** Sum of the counters of `keys` (absent keys count 0), in no particular order. */
  ghost function KeySum(t: Table, keys: set<string>): nat
    decreases keys
  {
    if keys == {} then 0 else var k :| k in keys; Get(t, k) + KeySum(t, keys - {k})
  }

  /** The sum does not depend on which key is taken first. */
  lemma {:induction false} KeySumRemove(t: Table, keys: set<string>, k: string)
    requires k in keys
    ensures KeySum(t, keys) == Get(t, k) + KeySum(t, keys - {k})
    decreases keys
  {
    var j :| j in keys && KeySum(t, keys) == Get(t, j) + KeySum(t, keys - {j});
    if j != k {
      KeySumRemove(t, keys - {j}, k);
      KeySumRemove(t, keys - {k}, j);
      assert keys - {j} - {k} == keys - {k} - {j};
    }
  }

  /** Tables that agree on `keys` have the same sum over `keys`. */
  lemma {:induction false} KeySumCongruent(t1: Table, t2: Table, keys: set<string>)
    requires forall k :: k in keys ==> Get(t1, k) == Get(t2, k)
    ensures KeySum(t1, keys) == KeySum(t2, keys)
    decreases keys
  {
    if keys != {} {
      var k :| k in keys;
      KeySumRemove(t1, keys, k);
      KeySumRemove(t2, keys, k);
      KeySumCongruent(t1, t2, keys - {k});
    }
  }

  /** Bumping `k` raises a sum over a fixed key set by one exactly when `k` is in it. */
  lemma BumpKeySum(t: Table, keys: set<string>, k: string)
    ensures KeySum(Bump(t, k), keys) == KeySum(t, keys) + (if k in keys then 1 else 0)
  {
    var b := Bump(t, k);
    BumpFacts(t, k);
    if k in keys {
      KeySumRemove(b, keys, k);
      KeySumRemove(t, keys, k);
      KeySumCongruent(b, t, keys - {k});
    } else {
      KeySumCongruent(b, t, keys);
    }
  }

  /** The number of messages the table has counted. */
  ghost function Total(t: Table): nat {
    KeySum(t, t.Keys)
  }

  /** The keys of `keys` that are listed among the important contacts. */
  function ImportantAmong(keys: set<string>, contacts: seq<string>): set<string> {
    set k | k in keys && k in contacts
  }

  /** The sum of the counters whose key is an important contact. */
  ghost function ImportantSum(t: Table, contacts: seq<string>): nat {
    KeySum(t, ImportantAmong(t.Keys, contacts))
  }

  /** One more message: the table's total grows by one. */
  lemma BumpTotal(t: Table, k: string)
    ensures Total(Bump(t, k)) == Total(t) + 1
  {
    var b := Bump(t, k);
    BumpFacts(t, k);
    BumpKeySum(t, t.Keys, k);
    if k !in t {
      KeySumRemove(b, b.Keys, k);
      assert b.Keys - {k} == t.Keys;
    } else {
      assert b.Keys == t.Keys;
    }
  }

  /** One more message: the important sum grows by one exactly when its sender is important. */
  lemma BumpImportantSum(t: Table, contacts: seq<string>, k: string)
    ensures ImportantSum(Bump(t, k), contacts) == ImportantSum(t, contacts) + (if k in contacts then 1 else 0)
  {
    var b := Bump(t, k);
    BumpFacts(t, k);
    var before := ImportantAmong(t.Keys, contacts);
    BumpKeySum(t, before, k);
    if k in contacts && k !in t {
      assert ImportantAmong(b.Keys, contacts) == before + {k};
      KeySumRemove(b, before + {k}, k);
      assert before + {k} - {k} == before;
    } else {
      assert ImportantAmong(b.Keys, contacts) == before;
    }
  }
}
