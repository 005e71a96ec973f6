/** `list.sort(key=...)`: a stable sort, specified by where every element comes from. */
module StableSort {

  /** Keys are pairs, compared lexicographically. */
  datatype Key = Key(major: int, minor: int)

  predicate Less(a: Key, b: Key) { a.major < b.major || (a.major == b.major && a.minor < b.minor) }

  /** Position i goes before position j: by key, and by position among equal keys. */
  predicate Before<T>(s: seq<T>, key: T -> Key, i: nat, j: nat)
    requires i < |s| && j < |s|
  {
    Less(key(s[i]), key(s[j])) || (key(s[i]) == key(s[j]) && i < j)
  }

  /** `at` lists every position of `s` once, in order. */
  ghost predicate Orders<T(!new)>(s: seq<T>, key: T -> Key, at: seq<nat>) {
    && |at| == |s|
    && (forall k | 0 <= k < |at| :: at[k] < |s|)
    && (forall k, l | 0 <= k < l < |at| :: Before(s, key, at[k], at[l]))
    && (forall i: nat | i < |s| :: i in at)
  }

  ghost predicate ComesFrom<T(!new)>(s: seq<T>, t: seq<T>, at: seq<nat>) {
    |t| == |at| && forall k | 0 <= k < |at| :: at[k] < |s| && t[k] == s[at[k]]
  }

  /** `t` is `s` sorted stably: every position of `s` once, by key and then by position. */
  ghost predicate IsSort<T(!new)>(s: seq<T>, key: T -> Key, t: seq<T>) {
    exists at :: Orders(s, key, at) && ComesFrom(s, t, at)
  }

  /** Insertion from the right: an element goes after those with an equal or smaller key. */
  method Sort<T(!new)>(s: seq<T>, key: T -> Key) returns (t: seq<T>)
    ensures IsSort(s, key, t)
  {
    t := [];
    ghost var at: seq<nat> := [];
    assert s[..0] == [];
    for n := 0 to |s|
      invariant Orders(s[..n], key, at) && ComesFrom(s[..n], t, at)
    {
      var p := |t|;
      while p > 0 && Less(key(s[n]), key(t[p - 1]))
        invariant 0 <= p <= |t| && forall k | p <= k < |t| :: Less(key(s[n]), key(t[k]))
      {
        p := p - 1;
      }
      InsertOrders(s[..n], s[n], key, t, at, p);
      assert s[..n + 1] == s[..n] + [s[n]];
      t, at := t[..p] + [s[n]] + t[p..], at[..p] + [n] + at[p..];
    }
    assert s[..|s|] == s;
  }

  lemma {:induction false} InsertOrders<T(!new)>(s: seq<T>, x: T, key: T -> Key, t: seq<T>, at: seq<nat>, p: nat)
    requires Orders(s, key, at) && ComesFrom(s, t, at) && p <= |t|
    requires forall k | p <= k < |t| :: Less(key(x), key(t[k]))
    requires p > 0 ==> !Less(key(x), key(t[p - 1]))
    ensures Orders(s + [x], key, at[..p] + [|s|] + at[p..])
    ensures ComesFrom(s + [x], t[..p] + [x] + t[p..], at[..p] + [|s|] + at[p..])
  {
    var s', at' := s + [x], at[..p] + [|s|] + at[p..];
    forall k, l | 0 <= k < l < |at'| ensures Before(s', key, at'[k], at'[l]) {
      InsertBefore(s, x, key, t, at, p, k, l);
    }
    forall i: nat | i < |s'| ensures i in at' {
      InsertLists(at, |s|, p, i);
    }
    forall k | 0 <= k < |at'| ensures at'[k] < |s'| && (t[..p] + [x] + t[p..])[k] == s'[at'[k]] {
      assert k != p ==> at'[k] == at[if k < p then k else k - 1];
    }
  }

  lemma {:induction false} InsertLists(at: seq<nat>, n: nat, p: nat, i: nat)
    requires p <= |at|
    ensures i in at[..p] + [n] + at[p..] <==> i in at || i == n
  {
  }

  lemma {:induction false} InsertBefore<T(!new)>(s: seq<T>, x: T, key: T -> Key, t: seq<T>, at: seq<nat>, p: nat,
                                          k: nat, l: nat)
    requires Orders(s, key, at) && ComesFrom(s, t, at) && p <= |t| && k < l <= |at|
    requires forall k | p <= k < |t| :: Less(key(x), key(t[k]))
    requires p > 0 ==> !Less(key(x), key(t[p - 1]))
    ensures var s', at' := s + [x], at[..p] + [|s|] + at[p..];
            at'[k] < |s'| && at'[l] < |s'| && Before(s', key, at'[k], at'[l])
  {
  }

  ghost predicate Ascending<T(!new)>(s: seq<T>, key: T -> Key) {
    forall i, j | 0 <= i < j < |s| :: !Less(key(s[j]), key(s[i]))
  }

  /** A list that is in order stays as it is. */
  lemma {:induction false} SortedStays<T(!new)>(s: seq<T>, key: T -> Key, t: seq<T>)
    requires IsSort(s, key, t) && Ascending(s, key)
    ensures t == s
  {
    var at :| Orders(s, key, at) && ComesFrom(s, t, at);
    forall k, l | 0 <= k < l < |at| ensures at[k] < at[l] {
      assert Before(s, key, at[k], at[l]);
      assert at[k] != at[l];
    }
    forall k | 0 <= k < |s| ensures at[k] == k {
      Counts(at, |s|, k);
    }
  }

  /** n increasing numbers below n are 0, 1, ..., n - 1. */
  lemma {:induction false} Counts(at: seq<nat>, n: nat, k: nat)
    requires |at| == n && k < n
    requires forall i | 0 <= i < n :: at[i] < n
    requires forall i, j | 0 <= i < j < n :: at[i] < at[j]
    ensures at[k] == k
  {
    AtLeast(at, k);
    AtMost(at, n, k);
  }

  lemma {:induction false} AtLeast(at: seq<nat>, k: nat)
    requires k < |at| && forall i, j | 0 <= i < j < |at| :: at[i] < at[j]
    ensures k <= at[k]
  {
    if k > 0 { AtLeast(at, k - 1); }
  }

  lemma {:induction false} AtMost(at: seq<nat>, n: nat, k: nat)
    requires |at| == n && k < n
    requires forall i | 0 <= i < n :: at[i] < n
    requires forall i, j | 0 <= i < j < n :: at[i] < at[j]
    ensures at[k] <= k
    decreases n - k
  {
    if k < n - 1 { AtMost(at, n, k + 1); }
  }
}
