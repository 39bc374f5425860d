/** The counting fold the dashboards use for their status charts:
    `items.reduce((acc, x) => { acc[k] = (acc[k] || 0) + 1; return acc }, {})`
    followed by `Object.entries`, i.e. the keys in the order they were first
    added, each with its count. */
module Tally {
  type Entries = seq<(string, nat)>

  /** How many times `k` occurs in `keys`. */
  function Occurrences(keys: seq<string>, k: string): nat {
    if keys == [] then 0 else Occurrences(keys[..|keys| - 1], k) + (if keys[|keys| - 1] == k then 1 else 0)
  }

  /** The count recorded for `k`; `acc[k] || 0`. */
  function CountIn(t: Entries, k: string): nat {
    if t == [] then 0 else if t[0].0 == k then t[0].1 else CountIn(t[1..], k)
  }

  /** The keys of the entries, in order. */
  function Keys(t: Entries): (ks: seq<string>)
    ensures |ks| == |t|
  {
    if t == [] then [] else [t[0].0] + Keys(t[1..])
  }

  predicate Distinct(s: seq<string>) {
    forall i, j :: 0 <= i < j < |s| ==> s[i] != s[j]
  }

  function Total(t: Entries): nat {
    if t == [] then 0 else t[0].1 + Total(t[1..])
  }

  /** One step of the fold: the entry for `k` goes up by one, or a new entry
      `(k, 1)` is added at the end. */
  function Bump(t: Entries, k: string): Entries {
    if t == [] then [(k, 1)]
    else if t[0].0 == k then [(k, t[0].1 + 1)] + t[1..]
    else [t[0]] + Bump(t[1..], k)
  }

  /** The whole fold, left to right. */
  function TallyOf(keys: seq<string>): Entries {
    if keys == [] then [] else Bump(TallyOf(keys[..|keys| - 1]), keys[|keys| - 1])
  }

  /** Where `k` first occurs in `keys`. */
  function FirstAt(keys: seq<string>, k: string): nat
    requires k in keys
  {
    if keys[0] == k then 0 else 1 + FirstAt(keys[1..], k)
  }

  // ---------------------------------------------------------------------------
  // one step

  lemma {:induction false} KeysAt(t: Entries, i: nat)
    requires i < |t|
    ensures Keys(t)[i] == t[i].0
  {
    if i > 0 {
      KeysAt(t[1..], i - 1);
    }
  }

  /** A step keeps the keys and their order, adding the new key at the end. */
  lemma {:induction false} BumpKeys(t: Entries, k: string)
    ensures Keys(Bump(t, k)) == if k in Keys(t) then Keys(t) else Keys(t) + [k]
  {
    if t != [] && t[0].0 != k {
      BumpKeys(t[1..], k);
      assert Keys(t) == [t[0].0] + Keys(t[1..]);
      assert k in Keys(t) <==> k in Keys(t[1..]);
      assert Keys(Bump(t, k)) == [t[0].0] + Keys(Bump(t[1..], k));
    }
  }

  /** A step adds one to the count of its key and nothing to the others. */
  lemma {:induction false} BumpCounts(t: Entries, k: string)
    ensures forall x :: CountIn(Bump(t, k), x) == CountIn(t, x) + (if x == k then 1 else 0)
    ensures Total(Bump(t, k)) == Total(t) + 1
  {
    if t != [] {
      if t[0].0 != k {
        BumpCounts(t[1..], k);
        assert Bump(t, k)[1..] == Bump(t[1..], k);
      } else {
        assert Bump(t, k)[1..] == t[1..];
      }
    }
  }

  lemma DistinctAppend(s: seq<string>, k: string)
    requires Distinct(s) && k !in s
    ensures Distinct(s + [k])
  {
    var r := s + [k];
    forall i, j | 0 <= i < j < |r| ensures r[i] != r[j] {
      if j == |s| {
        assert r[i] == s[i];
      }
    }
  }

  // ---------------------------------------------------------------------------
  // the fold

  /** The tally has each key of the input once, each with the number of its
      occurrences, and the counts add up to the number of items. */
  lemma {:induction false} TallyCounts(keys: seq<string>)
    ensures Distinct(Keys(TallyOf(keys)))
    ensures forall k :: k in Keys(TallyOf(keys)) <==> k in keys
    ensures forall k :: CountIn(TallyOf(keys), k) == Occurrences(keys, k)
    ensures Total(TallyOf(keys)) == |keys|
  {
    if keys != [] {
      var init := keys[..|keys| - 1];
      var last := keys[|keys| - 1];
      TallyCounts(init);
      BumpCounts(TallyOf(init), last);
      BumpKeys(TallyOf(init), last);
      if last !in Keys(TallyOf(init)) {
        DistinctAppend(Keys(TallyOf(init)), last);
      }
      assert keys == init + [last];
    }
  }

  /** The keys come in the order of their first occurrence. */
  lemma {:induction false} TallyOrder(keys: seq<string>)
    ensures forall i :: 0 <= i < |Keys(TallyOf(keys))| ==> Keys(TallyOf(keys))[i] in keys
    ensures forall i, j :: 0 <= i < j < |Keys(TallyOf(keys))| ==>
      FirstAt(keys, Keys(TallyOf(keys))[i]) < FirstAt(keys, Keys(TallyOf(keys))[j])
  {
    if keys != [] {
      var init := keys[..|keys| - 1];
      var last := keys[|keys| - 1];
      TallyOrder(init);
      TallyCounts(init);
      BumpKeys(TallyOf(init), last);
      var t, r := Keys(TallyOf(init)), Keys(TallyOf(keys));
      assert keys == init + [last];
      forall x | x in init ensures FirstAt(keys, x) == FirstAt(init, x) {
        FirstAtPrefix(init, [last], x);
      }
      forall i, j | 0 <= i < j < |r| ensures FirstAt(keys, r[i]) < FirstAt(keys, r[j]) {
        if j < |t| {
          assert r[i] == t[i] && r[j] == t[j];
        } else {
          // the new key was not in `init`, so it first occurs at the end
          assert r == t + [last] && r[j] == last && last !in init;
          FirstAtLast(init, last);
          assert r[i] == t[i] && t[i] in init;
          FirstAtBound(init, t[i]);
        }
      }
    }
  }

  /** Items that all share one key make a single entry counting all of them. */
  lemma {:induction false} TallyOneKey(keys: seq<string>, k: string)
    requires keys != [] && forall i :: 0 <= i < |keys| ==> keys[i] == k
    ensures TallyOf(keys) == [(k, |keys|)]
  {
    if |keys| > 1 {
      TallyOneKey(keys[..|keys| - 1], k);
    }
  }

  lemma {:induction false} FirstAtPrefix(a: seq<string>, b: seq<string>, x: string)
    requires x in a
    ensures FirstAt(a + b, x) == FirstAt(a, x)
  {
    if a[0] != x {
      assert (a + b)[1..] == a[1..] + b;
      FirstAtPrefix(a[1..], b, x);
    }
  }

  lemma {:induction false} FirstAtLast(a: seq<string>, x: string)
    requires x !in a
    ensures FirstAt(a + [x], x) == |a|
  {
    if a != [] {
      assert (a + [x])[1..] == a[1..] + [x];
      FirstAtLast(a[1..], x);
    }
  }

  lemma {:induction false} FirstAtBound(a: seq<string>, x: string)
    requires x in a
    ensures FirstAt(a, x) < |a| && a[FirstAt(a, x)] == x
  {
    if a[0] != x {
      FirstAtBound(a[1..], x);
    }
  }
}
