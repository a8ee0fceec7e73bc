/** Small shared vocabulary used by every other module. */
module Common {

  type EmailId = nat

  type PayeeId = nat

  // One concurrent activity: an approval, or a pass of the reconciler.
  type TaskId = nat

  // A moment or a duration, in the unit of the module that uses it.
  type Time = nat

  datatype Option<+T> = None | Some(value: T)

  // The same items in some other order.
  predicate Reordering<T(==)>(a: seq<T>, b: seq<T>) {
    multiset(a) == multiset(b)
  }

  lemma SameMembers<T>(a: seq<T>, b: seq<T>)
    requires Reordering(a, b)
    ensures forall x :: x in a <==> x in b
  {
    forall x
      ensures x in a <==> x in b
    {
      assert x in a <==> x in multiset(a);
      assert x in b <==> x in multiset(b);
    }
  }

  lemma SizeStep<T>(before: set<T>, after: set<T>, x: T)
    requires after - {x} == before - {x}
    ensures |after| == |before| + (if x in after then 1 else 0) - (if x in before then 1 else 0)
  {
    assert after == if x in after then (after - {x}) + {x} else after - {x};
    assert before == if x in before then (before - {x}) + {x} else before - {x};
  }

  // A number that no id in a finite set has reached.
  lemma Above(ids: set<nat>) returns (bound: nat)
    ensures forall id :: id in ids ==> id < bound
  {
    if ids == {} {
      bound := 0;
    } else {
      var id :| id in ids;
      var rest := Above(ids - {id});
      bound := if id < rest then rest else id + 1;
      assert forall other :: other in ids ==> other == id || other in ids - {id};
    }
  }
}
