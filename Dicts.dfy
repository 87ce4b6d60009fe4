/** Python dictionaries with string keys, as the profile code uses them: insertion-ordered
    tables, and a run of `d[key] = value` assignments where a later write overwrites an
    earlier one. */
module Dicts {

  /** `s` with every occurrence of `x` removed; the other elements keep their order. */
  function Without(s: seq<string>, x: string): seq<string>
  {
    if s == [] then []
    else if s[0] == x then Without(s[1..], x)
    else [s[0]] + Without(s[1..], x)
  }

  /** `Without` drops `x` and keeps every other element. */
  lemma {:induction false} WithoutMembers(s: seq<string>, x: string)
    ensures x !in Without(s, x)
    ensures forall y :: y != x ==> (y in Without(s, x) <==> y in s)
  {
    if s != [] {
      WithoutMembers(s[1..], x);
      assert s == [s[0]] + s[1..];
    }
  }

  lemma {:induction false} WithoutAppend(a: seq<string>, b: seq<string>, x: string)
    ensures Without(a + b, x) == Without(a, x) + Without(b, x)
  {
    if a == [] {
      assert a + b == b;
    } else {
      assert (a + b)[1..] == a[1..] + b;
      WithoutAppend(a[1..], b, x);
    }
  }

  ghost predicate Distinct(s: seq<string>)
  {
    forall i, j :: 0 <= i < j < |s| ==> s[i] != s[j]
  }

  /** A dict: `order` is the order in which iteration visits the keys. */
  datatype Dict<V> = Dict(order: seq<string>, entries: map<string, V>) {

    ghost predicate Valid()
    {
      && Distinct(order)
      && forall k :: k in entries <==> k in order
    }

    /** `d[k] = v`: a new key goes to the end of the order, an existing key keeps its place. */
    function Put(k: string, v: V): (d: Dict<V>)
      requires Valid()
      ensures d.Valid()
      ensures d.entries == entries[k := v]
      ensures d.order == if k in entries then order else order + [k]
    {
      if k in entries then Dict(order, entries[k := v]) else Dict(order + [k], entries[k := v])
    }

    /** `del d[k]` for a key that is present. */
    function Remove(k: string): (d: Dict<V>)
      requires Valid() && k in entries
      ensures d.Valid()
      ensures d.entries == entries - {k}
      ensures d.order == Without(order, k)
    {
      var d := Dict(Without(order, k), entries - {k});
      WithoutDistinct(order, k);
      WithoutMembers(order, k);
      d
    }
  }

  lemma {:induction false} WithoutDistinct(s: seq<string>, x: string)
    requires Distinct(s)
    ensures Distinct(Without(s, x))
  {
    if s != [] {
      WithoutDistinct(s[1..], x);
      if s[0] != x {
        assert s[0] !in s[1..];
        WithoutMembers(s[1..], x);
      }
    }
  }

  function Empty<V>(): (d: Dict<V>)
    ensures d.Valid() && d.entries == map[]
  {
    Dict([], map[])
  }

  /** The map `m` after, for each element of `xs` in turn, every `key: value` pair that
      the element writes has been assigned with `m[key] = value`. */
  function WriteAll<T, V>(m: map<string, V>, xs: seq<T>, writes: T -> map<string, V>): map<string, V>
  {
    if xs == [] then m else WriteAll(m, xs[..|xs| - 1], writes) + writes(xs[|xs| - 1])
  }

  /** The index of the last element of `xs` that writes `k`, or -1 when none does. */
  function LastWriter<T, V>(xs: seq<T>, writes: T -> map<string, V>, k: string): (i: int)
    ensures -1 <= i < |xs|
    ensures i >= 0 ==> k in writes(xs[i])
    ensures forall j :: i < j < |xs| ==> k !in writes(xs[j])
  {
    if xs == [] then -1
    else if k in writes(xs[|xs| - 1]) then |xs| - 1
    else LastWriter(xs[..|xs| - 1], writes, k)
  }

  /** The last write of a key wins; a key nobody writes keeps its old entry (or stays absent). */
  lemma {:induction false} LastWriteWins<T, V>(m: map<string, V>, xs: seq<T>, writes: T -> map<string, V>, k: string)
    ensures var i, r := LastWriter(xs, writes, k), WriteAll(m, xs, writes);
            && (i >= 0 ==> k in r && r[k] == writes(xs[i])[k])
            && (i < 0 ==> (k in r <==> k in m) && (k in m ==> r[k] == m[k]))
  {
    if xs != [] {
      var init := xs[..|xs| - 1];
      LastWriteWins(m, init, writes, k);
      if k !in writes(xs[|xs| - 1]) {
        assert LastWriter(xs, writes, k) == LastWriter(init, writes, k);
        var i := LastWriter(init, writes, k);
        assert i >= 0 ==> xs[i] == init[i];
      }
    }
  }

  lemma UnionOne<V>(m: map<string, V>, k: string, v: V)
    ensures m + map[k := v] == m[k := v]
  {
  }

  /** Writing one more element extends the run by one step (what a loop body does). */
  lemma WriteAllStep<T, V>(m: map<string, V>, xs: seq<T>, writes: T -> map<string, V>, i: nat)
    requires i < |xs|
    ensures WriteAll(m, xs[..i + 1], writes) == WriteAll(m, xs[..i], writes) + writes(xs[i])
  {
    assert xs[..i + 1][..i] == xs[..i];
  }
}
