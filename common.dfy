/** Failure-carrying wrappers standing in for Java's `null` returns and checked exceptions. */
module Common {

  /** A value that may be absent: `None` plays the part of a Java `null`. */
  datatype Option<+T> = None | Some(value: T)

  /** Either a value or the message of the exception that was raised instead. */
  datatype Result<+R, +E> = Success(value: R) | Failure(error: E)

  /** Some element of a non-empty set: the unspecified iteration order of a Java hash set or map. */
  method Pick<T>(s: set<T>) returns (x: T)
    requires s != {}
    ensures x in s
  {
    x :| x in s;
  }

  /** `Pick`, together with what is left of the set once the element is taken out. */
  method Take<T>(s: set<T>) returns (x: T, rest: set<T>)
    requires s != {}
    ensures x in s && rest == s - {x}
    ensures |rest| < |s|
  {
    x := Pick(s);
    rest := s - {x};
  }

  /**
   * The map a run of `put` calls on an empty Java map leaves behind: each `Some((k, v))`
   * puts `v` under `k`, overwriting what was there; a `None` is a skipped put.
   */
  function PutAll<K, V>(puts: seq<Option<(K, V)>>): map<K, V>
  {
    if puts == [] then map[]
    else
      var m := PutAll(puts[..|puts| - 1]);
      var last := puts[|puts| - 1];
      if last.Some? then m[last.value.0 := last.value.1] else m
  }

  lemma PutAllAppend<K, V>(puts: seq<Option<(K, V)>>, x: Option<(K, V)>)
    ensures PutAll(puts + [x]) == if x.Some? then PutAll(puts)[x.value.0 := x.value.1] else PutAll(puts)
  {
    assert (puts + [x])[..|puts|] == puts;
  }

  /** The keys of the map are exactly the keys that were put. */
  lemma {:induction false} PutAllKeys<K, V>(puts: seq<Option<(K, V)>>)
    ensures forall k :: k in PutAll(puts) <==> exists i :: 0 <= i < |puts| && puts[i].Some? && puts[i].value.0 == k
  {
    if puts != [] {
      var init := puts[..|puts| - 1];
      PutAllKeys(init);
      forall k ensures k in PutAll(puts) <==> exists i :: 0 <= i < |puts| && puts[i].Some? && puts[i].value.0 == k
      {
        if k in PutAll(init) {
          var i :| 0 <= i < |init| && init[i].Some? && init[i].value.0 == k;
          assert puts[i] == init[i];
        }
        if exists i :: 0 <= i < |puts| && puts[i].Some? && puts[i].value.0 == k {
          var i :| 0 <= i < |puts| && puts[i].Some? && puts[i].value.0 == k;
          if i < |init| {
            assert init[i] == puts[i];
          }
        }
      }
    }
  }

  /** A put that no later put overwrites decides the value under its key. */
  lemma {:induction false} PutAllLastWins<K, V>(puts: seq<Option<(K, V)>>, i: nat)
    requires i < |puts| && puts[i].Some?
    requires forall j :: i < j < |puts| && puts[j].Some? ==> puts[j].value.0 != puts[i].value.0
    ensures puts[i].value.0 in PutAll(puts)
    ensures PutAll(puts)[puts[i].value.0] == puts[i].value.1
  {
    var init := puts[..|puts| - 1];
    if i < |init| {
      forall j | i < j < |init| && init[j].Some?
        ensures init[j].value.0 != init[i].value.0
      {
        assert init[j] == puts[j];
      }
      PutAllLastWins(init, i);
    }
  }

  /** Every entry of the map was put by some put, with the value that put carried. */
  lemma {:induction false} PutAllFrom<K, V>(puts: seq<Option<(K, V)>>, k: K)
    requires k in PutAll(puts)
    ensures exists i :: 0 <= i < |puts| && puts[i] == Some((k, PutAll(puts)[k]))
  {
    var init := puts[..|puts| - 1];
    var last := puts[|puts| - 1];
    if !(last.Some? && last.value.0 == k) {
      PutAllFrom(init, k);
      var i :| 0 <= i < |init| && init[i] == Some((k, PutAll(init)[k]));
      assert puts[i] == init[i];
    }
  }
}
