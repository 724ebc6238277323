/**
 * Tallies: the `defaultdict(int)` counters the parsers increment, and the
 * reference definitions their results are proved against (occurrence
 * counts over a sequence of names, and "how many key sets contain this
 * key" over a sequence of dict key sets).
 */
module Counting {

  /** Reading a counter as a `defaultdict(int)` does: an absent key reads 0. */
  function Lookup(m: map<string, int>, k: string): int {
    if k in m then m[k] else 0
  }

  /** Number of positions of `s` holding `k`. */
  function CountOf(k: string, s: seq<string>): (n: nat)
    ensures n <= |s|
    ensures n > 0 <==> k in s
    decreases |s|
  {
    if s == [] then 0
    else
      var front := s[..|s| - 1];
      assert s == front + [s[|s| - 1]];
      CountOf(k, front) + (if s[|s| - 1] == k then 1 else 0)
  }

  /** The reference tally of a sequence of names: each name seen, with its number of occurrences. */
  function Tally(s: seq<string>): map<string, int> {
    map k | k in s :: CountOf(k, s)
  }

  /** Add 1 to the counter of every key in `keys`, creating the counters that are missing. */
  function Bump(t: map<string, int>, keys: set<string>): map<string, int> {
    map k | k in t.Keys + keys :: Lookup(t, k) + (if k in keys then 1 else 0)
  }

  /** Concatenation of a sequence of sequences (`itertools.chain(*ss)`). */
  function Flatten<T>(ss: seq<seq<T>>): (r: seq<T>)
    decreases |ss|
  {
    if ss == [] then [] else Flatten(ss[..|ss| - 1]) + ss[|ss| - 1]
  }

  /** Every key that occurs in some set of `ks`. */
  function UnionOf(ks: seq<set<string>>): (u: set<string>)
    ensures forall i :: 0 <= i < |ks| ==> ks[i] <= u
    ensures forall k :: k in u ==> exists i :: 0 <= i < |ks| && k in ks[i]
    decreases |ks|
  {
    if ks == [] then {}
    else
      var front := ks[..|ks| - 1];
      var u := UnionOf(front) + ks[|ks| - 1];
      assert forall i :: 0 <= i < |front| ==> front[i] == ks[i];
      u
  }

  /** Number of sets in `ks` that contain `k`. */
  function CountHaving(k: string, ks: seq<set<string>>): (n: nat)
    ensures n <= |ks|
    ensures n == 0 <==> forall i :: 0 <= i < |ks| ==> k !in ks[i]
    decreases |ks|
  {
    if ks == [] then 0
    else
      var front := ks[..|ks| - 1];
      assert forall i :: 0 <= i < |front| ==> front[i] == ks[i];
      CountHaving(k, front) + (if k in ks[|ks| - 1] then 1 else 0)
  }

  /** The reference tally of a sequence of key sets: each key, with the number of sets holding it. */
  function KeyTally(ks: seq<set<string>>): map<string, int> {
    map k | k in UnionOf(ks) :: CountHaving(k, ks)
  }

  /** Sum of the sizes of the sets in `ks`. */
  function SizeSum(ks: seq<set<string>>): (n: nat)
    decreases |ks|
  {
    if ks == [] then 0 else SizeSum(ks[..|ks| - 1]) + |ks[|ks| - 1]|
  }

  // ---------------------------------------------------------------------
  // Incremental steps: what one more observation does to a tally
  // ---------------------------------------------------------------------

  lemma BumpOne(t: map<string, int>, x: string)
    ensures Bump(t, {x}) == t[x := Lookup(t, x) + 1]
  {
  }

  lemma BumpEmpty(t: map<string, int>)
    ensures Bump(t, {}) == t
  {
  }

  lemma BumpBump(t: map<string, int>, a: set<string>, b: set<string>)
    requires a !! b
    ensures Bump(Bump(t, a), b) == Bump(t, a + b)
  {
  }

  lemma CountOfSnoc(k: string, s: seq<string>, x: string)
    ensures CountOf(k, s + [x]) == CountOf(k, s) + (if x == k then 1 else 0)
  {
    assert (s + [x])[..|s + [x]| - 1] == s;
  }

  /** Seeing one more name adds exactly one to that name's counter. */
  lemma TallySnoc(s: seq<string>, x: string)
    ensures Tally(s + [x]) == Bump(Tally(s), {x})
  {
    var l, r := Tally(s + [x]), Bump(Tally(s), {x});
    forall k ensures k in l <==> k in r {
      assert k in s + [x] <==> k in s || k == x;
    }
    forall k | k in l ensures l[k] == r[k] {
      CountOfSnoc(k, s, x);
    }
  }

  lemma UnionOfSnoc(ks: seq<set<string>>, keys: set<string>)
    ensures UnionOf(ks + [keys]) == UnionOf(ks) + keys
  {
    assert (ks + [keys])[..|ks + [keys]| - 1] == ks;
  }

  lemma CountHavingSnoc(k: string, ks: seq<set<string>>, keys: set<string>)
    ensures CountHaving(k, ks + [keys]) == CountHaving(k, ks) + (if k in keys then 1 else 0)
  {
    assert (ks + [keys])[..|ks + [keys]| - 1] == ks;
  }

  /** Seeing one more key set adds exactly one to the counter of each of its keys. */
  lemma KeyTallySnoc(ks: seq<set<string>>, keys: set<string>)
    ensures KeyTally(ks + [keys]) == Bump(KeyTally(ks), keys)
  {
    var l, r := KeyTally(ks + [keys]), Bump(KeyTally(ks), keys);
    UnionOfSnoc(ks, keys);
    assert l.Keys == UnionOf(ks + [keys]);
    assert r.Keys == UnionOf(ks) + keys;
    forall k | k in l ensures l[k] == r[k] {
      CountHavingSnoc(k, ks, keys);
      if k !in UnionOf(ks) {
        CountHavingNotInUnion(k, ks);
      }
    }
  }

  lemma {:induction false} CountHavingNotInUnion(k: string, ks: seq<set<string>>)
    requires k !in UnionOf(ks)
    ensures CountHaving(k, ks) == 0
    decreases |ks|
  {
    if ks != [] {
      CountHavingNotInUnion(k, ks[..|ks| - 1]);
    }
  }

  lemma SizeSumSnoc(ks: seq<set<string>>, keys: set<string>)
    ensures SizeSum(ks + [keys]) == SizeSum(ks) + |keys|
  {
    assert (ks + [keys])[..|ks + [keys]| - 1] == ks;
  }

  lemma FlattenSnoc<T>(ss: seq<seq<T>>, t: seq<T>)
    ensures Flatten(ss + [t]) == Flatten(ss) + t
  {
    assert (ss + [t])[..|ss + [t]| - 1] == ss;
  }

  lemma {:induction false} CountOfAppend(k: string, s: seq<string>, t: seq<string>)
    ensures CountOf(k, s + t) == CountOf(k, s) + CountOf(k, t)
    decreases |t|
  {
    if t == [] {
      assert s + t == s;
    } else {
      var front := t[..|t| - 1];
      assert s + t == (s + front) + [t[|t| - 1]];
      assert t == front + [t[|t| - 1]];
      CountOfAppend(k, s, front);
      CountOfSnoc(k, s + front, t[|t| - 1]);
      CountOfSnoc(k, front, t[|t| - 1]);
    }
  }

  /**
   * Tallying a concatenation of per-record lists: each record adds its own
   * occurrences of `k` and nothing else; a record with an empty list adds nothing.
   */
  lemma PerRecordContribution(k: string, ss: seq<seq<string>>, t: seq<string>)
    ensures Lookup(Tally(Flatten(ss + [t])), k) == Lookup(Tally(Flatten(ss)), k) + CountOf(k, t)
  {
    FlattenSnoc(ss, t);
    CountOfAppend(k, Flatten(ss), t);
  }

  /** A key is counted exactly when some key set holds it, and then by the number of sets holding it. */
  lemma {:induction false} KeyTallyMeaning(ks: seq<set<string>>, k: string)
    ensures k in KeyTally(ks) <==> exists i :: 0 <= i < |ks| && k in ks[i]
    ensures Lookup(KeyTally(ks), k) == CountHaving(k, ks)
  {
    if k !in UnionOf(ks) {
      CountHavingNotInUnion(k, ks);
    }
  }

  // ---------------------------------------------------------------------
  // Sum of the values of a tally
  // ---------------------------------------------------------------------

  ghost function SetSum(m: map<string, int>, ks: set<string>): int
    requires ks <= m.Keys
    decreases ks
  {
    if ks == {} then 0 else var k :| k in ks; m[k] + SetSum(m, ks - {k})
  }

  /** The sum of all the counters in a tally. */
  ghost function Total(m: map<string, int>): int {
    SetSum(m, m.Keys)
  }

  lemma {:induction false} SetSumRemove(m: map<string, int>, ks: set<string>, k: string)
    requires ks <= m.Keys && k in ks
    ensures SetSum(m, ks) == m[k] + SetSum(m, ks - {k})
    decreases ks
  {
    var y :| y in ks && SetSum(m, ks) == m[y] + SetSum(m, ks - {y});
    if y != k {
      SetSumRemove(m, ks - {y}, k);
      SetSumRemove(m, ks - {k}, y);
      assert ks - {y} - {k} == ks - {k} - {y};
    }
  }

  lemma {:induction false} SetSumAgree(m: map<string, int>, n: map<string, int>, ks: set<string>)
    requires ks <= m.Keys && ks <= n.Keys
    requires forall k :: k in ks ==> m[k] == n[k]
    ensures SetSum(m, ks) == SetSum(n, ks)
    decreases ks
  {
    if ks != {} {
      var y :| y in ks && SetSum(m, ks) == m[y] + SetSum(m, ks - {y});
      SetSumRemove(n, ks, y);
      SetSumAgree(m, n, ks - {y});
    }
  }

  lemma TotalBumpOne(t: map<string, int>, x: string)
    ensures Total(Bump(t, {x})) == Total(t) + 1
  {
    var b := Bump(t, {x});
    BumpOne(t, x);
    if x in t {
      assert b.Keys == t.Keys;
      SetSumRemove(b, b.Keys, x);
      SetSumRemove(t, t.Keys, x);
      SetSumAgree(b, t, t.Keys - {x});
    } else {
      assert b.Keys == t.Keys + {x};
      SetSumRemove(b, b.Keys, x);
      assert b.Keys - {x} == t.Keys;
      SetSumAgree(b, t, t.Keys);
    }
  }

  /** Bumping a set of keys raises the total by the size of the set. */
  lemma {:induction false} TotalBump(t: map<string, int>, keys: set<string>)
    ensures Total(Bump(t, keys)) == Total(t) + |keys|
    decreases keys
  {
    if keys == {} {
      BumpEmpty(t);
    } else {
      var x :| x in keys;
      var rest := keys - {x};
      TotalBump(t, rest);
      BumpBump(t, rest, {x});
      assert rest + {x} == keys;
      TotalBumpOne(Bump(t, rest), x);
    }
  }

  lemma TotalEmpty()
    ensures Total(map[]) == 0
  {
    var e: map<string, int> := map[];
    assert e.Keys == {};
  }

  /** The counters of a tally of names add up to the number of names. */
  lemma {:induction false} TallyTotal(s: seq<string>)
    ensures Total(Tally(s)) == |s|
    decreases |s|
  {
    if s == [] {
      assert Tally(s) == map[];
      TotalEmpty();
    } else {
      var front := s[..|s| - 1];
      assert s == front + [s[|s| - 1]];
      TallyTotal(front);
      TallySnoc(front, s[|s| - 1]);
      TotalBumpOne(Tally(front), s[|s| - 1]);
    }
  }

  /** The counters of a tally of key sets add up to the sum of the set sizes. */
  lemma {:induction false} KeyTallyTotal(ks: seq<set<string>>)
    ensures Total(KeyTally(ks)) == SizeSum(ks)
    decreases |ks|
  {
    if ks == [] {
      assert KeyTally(ks) == map[];
      TotalEmpty();
    } else {
      var front := ks[..|ks| - 1];
      assert ks == front + [ks[|ks| - 1]];
      KeyTallyTotal(front);
      KeyTallySnoc(front, ks[|ks| - 1]);
      TotalBump(KeyTally(front), ks[|ks| - 1]);
      SizeSumSnoc(front, ks[|ks| - 1]);
    }
  }

  /**
   * A `defaultdict(int)`: `counter[k] += n` creates the counter `k` when it is
   * absent, and reading an absent counter yields 0.
   */
  class Counter {
    var counts: map<string, int>

    constructor ()
      ensures counts == map[]
    {
      counts := map[];
    }

    function Get(k: string): int
      reads this
    {
      Lookup(counts, k)
    }

    /** `counter[k] += n`: the key exists afterwards even when `n` is 0. */
    method Add(k: string, n: int)
      modifies this
      ensures counts == old(counts)[k := Lookup(old(counts), k) + n]
    {
      counts := counts[k := Get(k) + n];
    }

    /** `for key in d: counter[key] += 1` over the keys of a dict. */
    method IncrementKeys(keys: set<string>)
      modifies this
      ensures counts == Bump(old(counts), keys)
    {
      var remaining := keys;
      ghost var done: set<string> := {};
      BumpEmpty(counts);
      while remaining != {}
        invariant remaining + done == keys && remaining !! done
        invariant counts == Bump(old(counts), done)
        decreases remaining
      {
        var k :| k in remaining;
        BumpOne(counts, k);
        BumpBump(old(counts), done, {k});
        Add(k, 1);
        remaining := remaining - {k};
        done := done + {k};
      }
    }
  }
}
