/**
 * The key order of a JavaScript `Map`: `set` appends a new key and leaves an existing one
 * where it is, `delete` removes one key, and iteration follows that order.
 */
module InsertionOrder {

  predicate NoDuplicates<K(==,!new)>(keys: seq<K>) {
    forall i, j :: 0 <= i < j < |keys| ==> keys[i] != keys[j]
  }

  /** The key order after `set(k, …)`. */
  function Put<K(==,!new)>(keys: seq<K>, k: K): (r: seq<K>)
    ensures forall x :: x in r <==> x in keys || x == k
    ensures NoDuplicates(keys) ==> NoDuplicates(r)
    ensures k !in keys ==> r == keys + [k]
    ensures k in keys ==> r == keys
  {
    if k in keys then keys else keys + [k]
  }

  /** The key order after `delete(k)`: the others, in their order. */
  function Without<K(==,!new)>(keys: seq<K>, k: K): (r: seq<K>)
    ensures forall x :: x in r <==> x in keys && x != k
    ensures NoDuplicates(keys) ==> NoDuplicates(r)
    ensures k !in keys ==> r == keys
  {
    if keys == [] then []
    else if keys[0] == k then Without(keys[1..], k)
    else
      var rest := Without(keys[1..], k);
      assert NoDuplicates(keys) ==> keys[0] !in keys[1..] && NoDuplicates(keys[1..]) by {
        if NoDuplicates(keys) {
          forall i | 0 <= i < |keys[1..]|
            ensures keys[1..][i] != keys[0]
          {
            assert keys[1..][i] == keys[i + 1];
          }
        }
      }
      [keys[0]] + rest
  }

  /** `delete(k)` of the key at position `i` cuts it out where it stands: the others keep their order. */
  lemma {:induction false} WithoutKeepsOrder<K(!new)>(keys: seq<K>, k: K, i: nat)
    requires NoDuplicates(keys) && i < |keys| && keys[i] == k
    ensures Without(keys, k) == keys[..i] + keys[i + 1..]
  {
    var tail := keys[1..];
    assert forall j :: 0 <= j < |tail| ==> tail[j] == keys[j + 1];
    if i == 0 {
      assert k !in tail;
    } else {
      assert keys[0] != k;
      assert NoDuplicates(tail);
      WithoutKeepsOrder(tail, k, i - 1);
      assert [keys[0]] + tail[..i - 1] == keys[..i];
      assert tail[i..] == keys[i + 1..];
    }
  }
}
