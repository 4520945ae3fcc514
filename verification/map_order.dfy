/**
 * Go visits the keys of a map in an order it leaves unspecified. A loop over a
 * map is modelled by picking any remaining key; the order the keys were
 * visited in is a ghost enumeration of the key set, and the results are
 * stated for every such enumeration.
 */
module MapOrder {

  /** An enumeration of a finite set: each element exactly once. */
  ghost predicate IsEnumeration(order: seq<string>, ids: set<string>) {
    (forall i, j :: 0 <= i < j < |order| ==> order[i] != order[j]) &&
    (forall id :: id in order <==> id in ids)
  }

  lemma EnumerationConcat(a: seq<string>, sa: set<string>, b: seq<string>, sb: set<string>)
    requires IsEnumeration(a, sa) && IsEnumeration(b, sb) && sa !! sb
    ensures IsEnumeration(a + b, sa + sb)
  {
    forall i, j | 0 <= i < j < |a + b|
      ensures (a + b)[i] != (a + b)[j]
    {
      if i < |a| && j >= |a| {
        assert (a + b)[i] in sa && (a + b)[j] in sb;
      }
    }
  }

  /** Some enumeration of `ids`, used to complete a visit order cut short by a failure. */
  ghost function Enumerate(ids: set<string>): (order: seq<string>)
    ensures IsEnumeration(order, ids)
    decreases |ids|
  {
    if ids == {} then []
    else
      var x :| x in ids;
      var rest := Enumerate(ids - {x});
      EnumerationConcat([x], {x}, rest, ids - {x});
      [x] + rest
  }

  /** Visiting one more id: the enumeration grows by that id. */
  lemma EnumerationStep(order: seq<string>, allIds: set<string>, remaining: set<string>, id: string)
    requires remaining <= allIds && id in remaining
    requires IsEnumeration(order, allIds - remaining)
    ensures IsEnumeration(order + [id], allIds - (remaining - {id}))
  {
    EnumerationConcat(order, allIds - remaining, [id], {id});
    assert allIds - remaining + {id} == allIds - (remaining - {id});
  }

  /** A visit cut short, completed with the ids it never reached. */
  lemma EnumerationComplete(order: seq<string>, allIds: set<string>, remaining: set<string>)
    requires remaining <= allIds
    requires IsEnumeration(order, allIds - remaining)
    ensures IsEnumeration(order + Enumerate(remaining), allIds)
  {
    EnumerationConcat(order, allIds - remaining, Enumerate(remaining), remaining);
    assert allIds - remaining + remaining == allIds;
  }

  /** Dropping one visited key leaves an enumeration of the other keys. */
  lemma EnumerationWithout(order: seq<string>, ids: set<string>, j: nat)
    requires IsEnumeration(order, ids) && j < |order|
    ensures IsEnumeration(order[..j] + order[j + 1..], ids - {order[j]})
  {
    var rest := order[..j] + order[j + 1..];
    forall a, b | 0 <= a < b < |rest|
      ensures rest[a] != rest[b]
    {
      var a' := if a < j then a else a + 1;
      var b' := if b < j then b else b + 1;
      assert rest[a] == order[a'] && rest[b] == order[b'];
    }
    forall id
      ensures id in rest <==> id in ids - {order[j]}
    {
      if id in rest {
        var a :| 0 <= a < |rest| && rest[a] == id;
        var a' := if a < j then a else a + 1;
        assert order[a'] == id;
      }
      if id in ids - {order[j]} {
        var a :| 0 <= a < |order| && order[a] == id;
        assert a != j;
        if a < j { assert rest[a] == id; } else { assert rest[a - 1] == id; }
      }
    }
  }
}
