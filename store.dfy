/**
 * The persistent object store behind every list screen, as an ordered sequence of records.
 * Each record carries the identity the store gives it, so that deleting an object deletes
 * exactly that object even when another record holds equal field values.
 */
module Store {
  import opened Collections

  datatype Stored<T> = Stored(id: nat, value: T)

  /** Identities are distinct and all below the next one to hand out. */
  ghost predicate WellKeyed<T>(s: seq<Stored<T>>, nextId: nat) {
    && (forall i :: 0 <= i < |s| ==> s[i].id < nextId)
    && (forall i, j :: 0 <= i < j < |s| ==> s[i].id != s[j].id)
  }

  /** The field values of the records, in store order. */
  function Values<T>(s: seq<Stored<T>>): (r: seq<T>)
    ensures |r| == |s|
    ensures forall i :: 0 <= i < |s| ==> r[i] == s[i].value
  {
    seq(|s|, i requires 0 <= i < |s| => s[i].value)
  }

  lemma ValuesAppend<T>(s: seq<Stored<T>>, x: Stored<T>)
    ensures Values(s + [x]) == Values(s) + [x.value]
  {
  }

  lemma {:induction false} ValuesConcat<T>(a: seq<Stored<T>>, b: seq<Stored<T>>)
    ensures Values(a + b) == Values(a) + Values(b)
  {
  }

  /** Reordering the records reorders their values alike. */
  lemma {:induction false} ValuesPermutation<T>(a: seq<Stored<T>>, b: seq<Stored<T>>)
    requires multiset(a) == multiset(b)
    ensures multiset(Values(a)) == multiset(Values(b))
    decreases |a|
  {
    if a == [] {
      assert |b| == |multiset(b)| == 0;
    } else {
      var x := a[0];
      assert a == [x] + a[1..];
      assert x in multiset(b);
      var i :| 0 <= i < |b| && b[i] == x;
      var rest := b[..i] + b[i + 1..];
      assert b == b[..i] + [x] + b[i + 1..];
      forall y ensures multiset(a[1..])[y] == multiset(rest)[y] {
        assert multiset(a)[y] == multiset{x}[y] + multiset(a[1..])[y];
        assert multiset(b)[y] == multiset(b[..i])[y] + multiset{x}[y] + multiset(b[i + 1..])[y];
      }
      assert multiset(a[1..]) == multiset(rest);
      ValuesPermutation(a[1..], rest);
      ValuesConcat([x], a[1..]);
      ValuesConcat(b[..i], b[i + 1..]);
      ValuesConcat(b[..i] + [x], b[i + 1..]);
      ValuesConcat(b[..i], [x]);
    }
  }

  /** `modelContext.insert`: the new record goes at the end with a fresh identity. */
  function Insert<T>(s: seq<Stored<T>>, nextId: nat, v: T): (r: seq<Stored<T>>)
    requires WellKeyed(s, nextId)
    ensures WellKeyed(r, nextId + 1)
    ensures Values(r) == Values(s) + [v]
    ensures Appended(s, r, nextId, [v])
  {
    ValuesAppend(s, Stored(nextId, v));
    s + [Stored(nextId, v)]
  }

  /**
   * `after` is `before` with records added behind it under the consecutive identities
   * `firstId`, `firstId + 1`, ...: every record already stored keeps its place, identity and value.
   */
  ghost predicate Extends<T>(before: seq<Stored<T>>, after: seq<Stored<T>>, firstId: nat) {
    && |before| <= |after|
    && after[..|before|] == before
    && (forall k :: |before| <= k < |after| ==> after[k].id == firstId + (k - |before|))
  }

  /** `after` is `before` with the values `vs` inserted one by one behind it. */
  ghost predicate Appended<T>(before: seq<Stored<T>>, after: seq<Stored<T>>, firstId: nat, vs: seq<T>) {
    Extends(before, after, firstId) && Values(after) == Values(before) + vs
  }

  /** Nothing inserted yet. */
  lemma ExtendsNothing<T>(s: seq<Stored<T>>, firstId: nat)
    ensures Extends(s, s, firstId)
  {
  }

  /** One more insert, under the next identity, extends a run of inserts. */
  lemma ExtendsStep<T>(before: seq<Stored<T>>, after: seq<Stored<T>>, firstId: nat, nextId: nat, v: T)
    requires WellKeyed(after, nextId)
    requires Extends(before, after, firstId) && nextId == firstId + (|after| - |before|)
    ensures Extends(before, Insert(after, nextId, v), firstId)
  {
    var next := Insert(after, nextId, v);
    assert next[..|before|] == after[..|before|];
  }

  /**
   * One pass of a loop that inserts the values `vs` in order: after `k` passes the store holds
   * the first `k` values behind the old records, and the next pass adds value `k`.
   */
  lemma InsertRunStep<T>(before: seq<Stored<T>>, s: seq<Stored<T>>, firstId: nat, nextId: nat, vs: seq<T>, k: nat)
    requires k < |vs| && WellKeyed(s, nextId) && nextId == firstId + k
    requires Values(s) == Values(before) + vs[..k] && Extends(before, s, firstId)
    ensures WellKeyed(Insert(s, nextId, vs[k]), nextId + 1)
    ensures Values(Insert(s, nextId, vs[k])) == Values(before) + vs[..k + 1]
    ensures Extends(before, Insert(s, nextId, vs[k]), firstId)
  {
    assert vs[..k + 1] == vs[..k] + [vs[k]];
    ExtendsStep(before, s, firstId, nextId, vs[k]);
  }

  /** The records that survive deleting the identities in `doomed`. */
  function Survives<T>(doomed: set<nat>): Stored<T> -> bool {
    (x: Stored<T>) => x.id !in doomed
  }

  /** `modelContext.delete` of every record whose identity is in `doomed`. */
  function Without<T>(s: seq<Stored<T>>, doomed: set<nat>): (r: seq<Stored<T>>)
    ensures forall i :: 0 <= i < |r| ==> r[i] in s && r[i].id !in doomed
    ensures forall i :: 0 <= i < |s| && s[i].id !in doomed ==> s[i] in r
  {
    Filter(s, Survives(doomed))
  }

  lemma WithoutNothing<T>(s: seq<Stored<T>>)
    ensures Without(s, {}) == s
  {
    FilterAll(s, Survives<T>({}));
  }

  lemma WithoutTwice<T>(s: seq<Stored<T>>, a: set<nat>, b: set<nat>)
    ensures Without(Without(s, a), b) == Without(s, a + b)
  {
    FilterFilter(s, Survives(a), Survives(b), Survives(a + b));
  }

  /** Deleting one record's identity removes that record and nothing else. */
  lemma WithoutOne<T>(s: seq<Stored<T>>, nextId: nat, at: nat)
    requires WellKeyed(s, nextId) && at < |s|
    ensures Without(s, {s[at].id}) == s[..at] + s[at + 1..]
  {
    var p := Survives<T>({s[at].id});
    var before := s[..at];
    var after := s[at + 1..];
    assert s == before + [s[at]] + after;
    forall i | 0 <= i < |before| ensures p(before[i]) {
      assert before[i] == s[i];
    }
    forall i | 0 <= i < |after| ensures p(after[i]) {
      assert after[i] == s[at + 1 + i];
    }
    FilterDropsOne(before, s[at], after, p);
  }

  /** Deleting keeps identities distinct. */
  lemma WithoutWellKeyed<T>(s: seq<Stored<T>>, doomed: set<nat>, nextId: nat)
    requires WellKeyed(s, nextId)
    ensures WellKeyed(Without(s, doomed), nextId)
  {
    var p := Survives<T>(doomed);
    assert NoDuplicates(s);
    FilterNoDuplicates(s, p);
    var r := Without(s, doomed);
    forall i, j | 0 <= i < j < |r| ensures r[i].id != r[j].id {
      var a := IndexOf(s, r[i]);
      var b := IndexOf(s, r[j]);
      assert r[i] != r[j];
      assert a != b;
    }
  }

  /**
   * The identities of the rows `offsets` picks out of the list `view`, as an `onDelete`
   * handler sees them; an offset past the end of the list picks nothing.
   */
  function IdsAt<T>(view: seq<Stored<T>>, offsets: seq<nat>): (r: set<nat>)
    ensures forall k :: 0 <= k < |offsets| && offsets[k] < |view| ==> view[offsets[k]].id in r
    ensures forall id :: id in r ==> exists k :: 0 <= k < |offsets| && offsets[k] < |view| && view[offsets[k]].id == id
  {
    if offsets == [] then {}
    else
      var last := offsets[|offsets| - 1];
      IdsAt(view, offsets[..|offsets| - 1]) + (if last < |view| then {view[last].id} else {})
  }

  /**
   * The body of every `onDelete` handler: for each offset in range, delete the record shown
   * at that row of `view`, a list fixed before the loop starts.
   */
  method DeleteRows<T>(store: seq<Stored<T>>, view: seq<Stored<T>>, offsets: seq<nat>) returns (after: seq<Stored<T>>)
    ensures after == Without(store, IdsAt(view, offsets))
  {
    after := store;
    WithoutNothing(store);
    for k := 0 to |offsets|
      invariant after == Without(store, IdsAt(view, offsets[..k]))
    {
      var index := offsets[k];
      assert offsets[..k + 1][..k] == offsets[..k];
      assert IdsAt(view, offsets[..k + 1])
        == IdsAt(view, offsets[..k]) + (if index < |view| then {view[index].id} else {});
      if index < |view| {
        WithoutTwice(store, IdsAt(view, offsets[..k]), {view[index].id});
        after := Without(after, {view[index].id});
        assert after == Without(store, IdsAt(view, offsets[..k]) + {view[index].id});
      } else {
        assert IdsAt(view, offsets[..k + 1]) == IdsAt(view, offsets[..k]);
      }
    }
    assert offsets[..|offsets|] == offsets;
  }
}
