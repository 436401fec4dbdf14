/**
 * The JSON-like values that travel through the clients: response bodies, request
 * parameters, cached location records and the presenter's output. A Ruby Hash is an
 * ordered sequence of entries with string keys.
 */
module JsonValue {
  import opened Wrappers

  /** A number as Ruby holds it: an Integer, or a Float identified by the text `Float#to_s` prints for it. */
  datatype Number = Int(i: int) | Float(text: string)

  datatype Json =
    | JNull
    | JBool(b: bool)
    | JNum(n: Number)
    | JStr(s: string)
    | JArr(elems: seq<Json>)
    | JObj(members: seq<(string, Json)>)

  type Members = seq<(string, Json)>

  /** Ruby truthiness: every value except nil and false. */
  predicate Truthy(j: Json)
  {
    !j.JNull? && j != JBool(false)
  }

  /** The keys of a hash. */
  function KeySet(ms: Members): set<string>
  {
    set i | 0 <= i < |ms| :: ms[i].0
  }

  /**
   * `hash[k]`: the value of the last entry with key `k`. Successive assignments to the same
   * key, and a parsed object with a repeated key, both leave the last value in force.
   */
  function Lookup(ms: Members, k: string): (r: Option<Json>)
    ensures r.Some? <==> k in KeySet(ms)
  {
    if ms == [] then None
    else if ms[|ms| - 1].0 == k then Some(ms[|ms| - 1].1)
    else
      assert KeySet(ms) == KeySet(ms[..|ms| - 1]) + {ms[|ms| - 1].0};
      Lookup(ms[..|ms| - 1], k)
  }

  /** The value `Lookup` returns is the value of an entry with that key after which no entry has that key. */
  lemma {:induction false} LookupIsLastEntry(ms: Members, k: string)
    requires k in KeySet(ms)
    ensures exists i :: 0 <= i < |ms| && ms[i] == (k, Lookup(ms, k).value) && k !in KeySet(ms[i + 1..])
  {
    var n := |ms| - 1;
    if ms[n].0 == k {
      assert ms[n + 1..] == [];
      assert ms[n] == (k, Lookup(ms, k).value);
    } else {
      var p := ms[..n];
      assert ms == p + [ms[n]];
      KeySetSnoc(p, ms[n].0, ms[n].1);
      LookupIsLastEntry(p, k);
      var i :| 0 <= i < n && p[i] == (k, Lookup(p, k).value) && k !in KeySet(p[i + 1..]);
      assert ms[|ms| - 1].0 != k && p == ms[..|ms| - 1];
      assert Lookup(ms, k) == Lookup(p, k);
      assert ms[i + 1..] == p[i + 1..] + [ms[n]];
      KeySetSnoc(p[i + 1..], ms[n].0, ms[n].1);
      assert ms[i] == (k, Lookup(ms, k).value) && k !in KeySet(ms[i + 1..]);
    }
  }

  /** Appending an entry adds its key. */
  lemma KeySetSnoc(ms: Members, k: string, v: Json)
    ensures KeySet(ms + [(k, v)]) == KeySet(ms) + {k}
  {
    var r := ms + [(k, v)];
    forall x | x in KeySet(r) ensures x in KeySet(ms) + {k} {
      var i :| 0 <= i < |r| && r[i].0 == x;
      if i < |ms| { assert ms[i].0 == x; }
    }
    forall x | x in KeySet(ms) ensures x in KeySet(r) {
      var i :| 0 <= i < |ms| && ms[i].0 == x;
      assert r[i].0 == x;
    }
    assert r[|ms|].0 == k;
  }

  /** Every key occurs in at most one entry, as in a Ruby Hash. */
  predicate UniqueKeys(ms: Members)
  {
    forall i, j :: 0 <= i < j < |ms| ==> ms[i].0 != ms[j].0
  }

  /** With unique keys, `Lookup` returns the value of the one entry carrying the key. */
  lemma LookupUnique(ms: Members, i: nat)
    requires UniqueKeys(ms) && i < |ms|
    ensures Lookup(ms, ms[i].0) == Some(ms[i].1)
  {
    var k := ms[i].0;
    LookupIsLastEntry(ms, k);
    var j :| 0 <= j < |ms| && ms[j] == (k, Lookup(ms, k).value) && k !in KeySet(ms[j + 1..]);
    LaterKey(ms, j, i);
  }

  /** The key of an entry after position `j` is a key of the members after `j`. */
  lemma LaterKey(ms: Members, j: nat, i: nat)
    ensures j < i < |ms| ==> ms[i].0 in KeySet(ms[j + 1..])
  {
    if j < i < |ms| {
      assert ms[j + 1..][i - j - 1] == ms[i];
    }
  }

  /** Every entry with key `k` gets the value `v`; the others keep theirs. */
  function Replace(ms: Members, k: string, v: Json): (r: Members)
    ensures |r| == |ms|
    ensures forall i :: 0 <= i < |ms| ==> r[i].0 == ms[i].0
    ensures forall i :: 0 <= i < |ms| ==> r[i].1 == if ms[i].0 == k then v else ms[i].1
  {
    seq(|ms|, i requires 0 <= i < |ms| => if ms[i].0 == k then (k, v) else ms[i])
  }

  /**
   * `hash[k] = v`: an existing key keeps its position and takes the new value,
   * a new key is appended.
   */
  function Put(ms: Members, k: string, v: Json): (r: Members)
    ensures KeySet(r) == KeySet(ms) + {k}
  {
    var r := if k in KeySet(ms) then Replace(ms, k, v) else ms + [(k, v)];
    assert KeySet(r) == KeySet(ms) + {k} by {
      if k in KeySet(ms) {
        forall x | x in KeySet(r) ensures x in KeySet(ms) {
          var i :| 0 <= i < |r| && r[i].0 == x;
          assert ms[i].0 == x;
        }
        forall x | x in KeySet(ms) ensures x in KeySet(r) {
          var i :| 0 <= i < |ms| && ms[i].0 == x;
          assert r[i].0 == x;
        }
      } else {
        forall x | x in KeySet(r) ensures x in KeySet(ms) + {k} {
          var i :| 0 <= i < |r| && r[i].0 == x;
          if i < |ms| { assert ms[i].0 == x; }
        }
        forall x | x in KeySet(ms) + {k} ensures x in KeySet(r) {
          if x == k {
            assert r[|ms|].0 == x;
          } else {
            var i :| 0 <= i < |ms| && ms[i].0 == x;
            assert r[i].0 == x;
          }
        }
      }
    }
    r
  }

  /** After `hash[k] = v`, `k` maps to `v`, every other key keeps its value, and keys stay unique. */
  lemma PutLookup(ms: Members, k: string, v: Json)
    ensures Lookup(Put(ms, k, v), k) == Some(v)
    ensures forall k' :: k' != k ==> Lookup(Put(ms, k, v), k') == Lookup(ms, k')
    ensures UniqueKeys(ms) ==> UniqueKeys(Put(ms, k, v))
  {
    LookupAfterPut(ms, k, v, Put(ms, k, v));
  }

  lemma LookupAfterPut(ms: Members, k: string, v: Json, r: Members)
    requires r == if k in KeySet(ms) then Replace(ms, k, v) else ms + [(k, v)]
    ensures Lookup(r, k) == Some(v)
    ensures forall k' :: k' != k ==> Lookup(r, k') == Lookup(ms, k')
  {
    if k in KeySet(ms) {
      LookupReplace(ms, k, v);
    } else {
      assert r[..|r| - 1] == ms;
    }
  }

  lemma {:induction false} LookupReplace(ms: Members, k: string, v: Json)
    requires k in KeySet(ms)
    ensures Lookup(Replace(ms, k, v), k) == Some(v)
    ensures forall k' :: k' != k ==> Lookup(Replace(ms, k, v), k') == Lookup(ms, k')
  {
    var r := Replace(ms, k, v);
    var n := |ms| - 1;
    assert r[..n] == Replace(ms[..n], k, v);
    assert KeySet(ms) == KeySet(ms[..n]) + {ms[n].0};
    if ms[n].0 != k {
      LookupReplace(ms[..n], k, v);
    } else if k in KeySet(ms[..n]) {
      LookupReplace(ms[..n], k, v);
    } else {
      forall k' | k' != k
        ensures Lookup(r, k') == Lookup(ms, k')
      {
        LookupReplaceOther(ms[..n], k, v, k');
      }
    }
  }

  lemma {:induction false} LookupReplaceOther(ms: Members, k: string, v: Json, k': string)
    requires k' != k
    ensures Lookup(Replace(ms, k, v), k') == Lookup(ms, k')
  {
    if ms != [] {
      var n := |ms| - 1;
      assert Replace(ms, k, v)[..n] == Replace(ms[..n], k, v);
      LookupReplaceOther(ms[..n], k, v, k');
    }
  }
}
