/**
  `deepFreeze`, in its two shapes: the null-tolerant one of src/utils/index.ts
  and the one of src/utils.ts and src/core/utils.ts (identical bodies), which
  follows every property whose `typeof` is 'object' and so also `null`.

  A `Realm` is the heap the traversal runs over: each object (named by a
  `Ref`) has its own enumerable properties in `Object.keys` order, and a set
  of objects is frozen. The graph is finite and acyclic, witnessed by a ghost
  `rank` that strictly decreases from an object to every object it holds.
  Freezing changes only the frozen set; keys and values are constants.

  Each traversal is specified by the sequence of objects it freezes, in
  order (`Order` and `StrictOrder`), and the lemmas state what that sequence
  means: exactly the reachable objects, children before parents, and where
  the strict variant stops.
*/
module Freeze {
  import opened Wrappers

  type Ref = nat

  /** A JavaScript value as far as `deepFreeze` distinguishes them. */
  datatype Value =
    | Undefined
    | Null
    | Primitive(text: string)   // string, number, boolean, bigint or symbol
    | Function(id: nat)         // typeof 'function': never traversed
    | Object(ref: Ref)          // typeof 'object' and not null

  /** An own enumerable property. */
  datatype Property = Property(key: string, value: Value)

  /** Every object's own enumerable properties, in `Object.keys` order. */
  type Shape = map<Ref, seq<Property>>

  /** What the strict variant throws: `Object.keys(null)` is a TypeError. */
  datatype FreezeError = KeysOfNull

  /** `v` is not a reference to a missing object. */
  predicate Closed(shape: Shape, v: Value)
  {
    v.Object? ==> v.ref in shape
  }

  /** Every object held by a property exists and has a lower rank than its holder: the graph is acyclic. */
  predicate WellFormed(shape: Shape, rank: map<Ref, nat>)
  {
    && (forall r :: r in shape ==> r in rank)
    && (forall r, j :: r in shape && 0 <= j < |shape[r]| ==> Closed(shape, shape[r][j].value))
    && (forall r, j :: r in shape && 0 <= j < |shape[r]| && shape[r][j].value.Object? ==>
          r in rank && shape[r][j].value.ref in rank && rank[shape[r][j].value.ref] < rank[r])
  }

  /** A measure for the traversal: one above the rank of an object value, 0 for anything else. */
  function Rank(rank: map<Ref, nat>, v: Value): nat
  {
    if v.Object? && v.ref in rank then rank[v.ref] + 1 else 0
  }

  function Elems(s: seq<Ref>): (r: set<Ref>)
    ensures forall x :: x in r <==> x in s
  {
    set x | x in s
  }

  /**
    The objects the null-tolerant traversal freezes from `v`, in freezing
    order: nothing for a non-object, otherwise what its properties' values
    freeze, key by key, and then the object itself.
  */
  ghost function Order(shape: Shape, rank: map<Ref, nat>, v: Value): (o: seq<Ref>)
    requires WellFormed(shape, rank) && Closed(shape, v)
    ensures !v.Object? ==> o == []
    ensures v.Object? ==> |o| > 0 && o[|o| - 1] == v.ref
    decreases Rank(rank, v), 1, 0
  {
    if !v.Object? then []
    else OrderOf(shape, rank, v.ref, |shape[v.ref]|) + [v.ref]
  }

  /** What the traversal freezes below the first `i` properties of object `r`. */
  ghost function OrderOf(shape: Shape, rank: map<Ref, nat>, r: Ref, i: nat): seq<Ref>
    requires WellFormed(shape, rank) && r in shape && i <= |shape[r]|
    decreases rank[r] + 1, 0, i
  {
    if i == 0 then []
    else OrderOf(shape, rank, r, i - 1) + Order(shape, rank, shape[r][i - 1].value)
  }

  /** `x` is `v` itself or is held, through some chain of properties, by `v`. */
  ghost predicate Reaches(shape: Shape, rank: map<Ref, nat>, v: Value, x: Ref)
    requires WellFormed(shape, rank) && Closed(shape, v)
    decreases Rank(rank, v), 1, 0
  {
    v.Object? && (v.ref == x || ReachesVia(shape, rank, v.ref, |shape[v.ref]|, x))
  }

  /** `x` is reachable from the value of one of the first `i` properties of `r`. */
  ghost predicate ReachesVia(shape: Shape, rank: map<Ref, nat>, r: Ref, i: nat, x: Ref)
    requires WellFormed(shape, rank) && r in shape && i <= |shape[r]|
    decreases rank[r] + 1, 0, i
  {
    i > 0 && (ReachesVia(shape, rank, r, i - 1, x) || Reaches(shape, rank, shape[r][i - 1].value, x))
  }

  /** No object reachable from `v`, nor `v` itself, is `null`. */
  ghost predicate NullFree(shape: Shape, rank: map<Ref, nat>, v: Value)
    requires WellFormed(shape, rank) && Closed(shape, v)
    decreases Rank(rank, v), 1, 0
  {
    !v.Null? && (v.Object? ==> NullFreeVia(shape, rank, v.ref, |shape[v.ref]|))
  }

  /** No `null` is held by, or reachable through, the first `i` properties of `r`. */
  ghost predicate NullFreeVia(shape: Shape, rank: map<Ref, nat>, r: Ref, i: nat)
    requires WellFormed(shape, rank) && r in shape && i <= |shape[r]|
    decreases rank[r] + 1, 0, i
  {
    i == 0 || (NullFreeVia(shape, rank, r, i - 1) && NullFree(shape, rank, shape[r][i - 1].value))
  }

  /** The objects the strict traversal freezes, in order, and whether it returned rather than threw. */
  datatype Trace = Trace(frozen: seq<Ref>, completed: bool)

  /** `typeof v === 'object'`, which holds for `null` as well. */
  predicate TypeofObject(v: Value)
  {
    v.Object? || v.Null?
  }

  /**
    The strict traversal from `v` (an object, or the `null` it recurses into):
    `null` throws at once; an object recurses into each property whose
    `typeof` is 'object', stopping at the first throw, and is frozen only if
    every one of them returned.
  */
  ghost function StrictOrder(shape: Shape, rank: map<Ref, nat>, v: Value): (t: Trace)
    requires WellFormed(shape, rank) && Closed(shape, v) && TypeofObject(v)
    ensures v.Null? ==> t == Trace([], false)
    ensures t.completed ==> v.Object? && |t.frozen| > 0 && t.frozen[|t.frozen| - 1] == v.ref
    decreases Rank(rank, v), 1, 0
  {
    if v.Null? then Trace([], false)
    else
      var t := StrictOrderOf(shape, rank, v.ref, |shape[v.ref]|);
      if t.completed then Trace(t.frozen + [v.ref], true) else t
  }

  /** The strict traversal over the first `i` properties of `r`, stopping at the first throw. */
  ghost function StrictOrderOf(shape: Shape, rank: map<Ref, nat>, r: Ref, i: nat): Trace
    requires WellFormed(shape, rank) && r in shape && i <= |shape[r]|
    decreases rank[r] + 1, 0, i
  {
    if i == 0 then Trace([], true)
    else
      var t := StrictOrderOf(shape, rank, r, i - 1);
      if !t.completed then t
      else
        var c := StrictVisit(shape, rank, r, i - 1);
        Trace(t.frozen + c.frozen, c.completed)
  }

  /** The `forEach` callback for the `j`-th property of `r`: only a value whose `typeof` is 'object' is traversed. */
  ghost function StrictVisit(shape: Shape, rank: map<Ref, nat>, r: Ref, j: nat): (t: Trace)
    requires WellFormed(shape, rank) && r in shape && j < |shape[r]|
    ensures !TypeofObject(shape[r][j].value) ==> t == Trace([], true)
    ensures shape[r][j].value.Null? ==> t == Trace([], false)
    ensures t.completed && shape[r][j].value.Object? ==> |t.frozen| > 0 && t.frozen[|t.frozen| - 1] == shape[r][j].value.ref
    decreases rank[r] + 1, 0, j
  {
    var child := shape[r][j].value;
    if TypeofObject(child) then StrictOrder(shape, rank, child) else Trace([], true)
  }

  /** Once the strict traversal of an object's properties has thrown, the later properties are never visited. */
  lemma {:induction false} StrictFailureSticks(shape: Shape, rank: map<Ref, nat>, r: Ref, i: nat, n: nat)
    requires WellFormed(shape, rank) && r in shape && i <= n <= |shape[r]|
    requires !StrictOrderOf(shape, rank, r, i).completed
    ensures StrictOrderOf(shape, rank, r, n) == StrictOrderOf(shape, rank, r, i)
    decreases n - i
  {
    if i < n {
      StrictFailureSticks(shape, rank, r, i, n - 1);
    }
  }

  /** The tolerant traversal freezes exactly the objects reachable from `v`. */
  lemma {:induction false} OrderIsReachable(shape: Shape, rank: map<Ref, nat>, v: Value, x: Ref)
    requires WellFormed(shape, rank) && Closed(shape, v)
    ensures x in Order(shape, rank, v) <==> Reaches(shape, rank, v, x)
    decreases Rank(rank, v), 1, 0
  {
    if v.Object? {
      OrderOfIsReachable(shape, rank, v.ref, |shape[v.ref]|, x);
    }
  }

  lemma {:induction false} OrderOfIsReachable(shape: Shape, rank: map<Ref, nat>, r: Ref, i: nat, x: Ref)
    requires WellFormed(shape, rank) && r in shape && i <= |shape[r]|
    ensures x in OrderOf(shape, rank, r, i) <==> ReachesVia(shape, rank, r, i, x)
    decreases rank[r] + 1, 0, i
  {
    if i > 0 {
      OrderOfIsReachable(shape, rank, r, i - 1, x);
      OrderIsReachable(shape, rank, shape[r][i - 1].value, x);
    }
  }

  /** Post-order: every object in `s` is preceded in `s` by each object one of its properties holds. */
  ghost predicate ChildrenFirst(shape: Shape, s: seq<Ref>)
  {
    forall k, j :: 0 <= k < |s| && s[k] in shape && 0 <= j < |shape[s[k]]| && shape[s[k]][j].value.Object? ==>
      shape[s[k]][j].value.ref in s[..k]
  }

  lemma ChildrenFirstConcat(shape: Shape, a: seq<Ref>, b: seq<Ref>)
    requires ChildrenFirst(shape, a) && ChildrenFirst(shape, b)
    ensures ChildrenFirst(shape, a + b)
  {
    var s := a + b;
    forall k, j | 0 <= k < |s| && s[k] in shape && 0 <= j < |shape[s[k]]| && shape[s[k]][j].value.Object?
      ensures shape[s[k]][j].value.ref in s[..k]
    {
      if k < |a| {
        assert s[k] == a[k] && s[..k] == a[..k];
      } else {
        assert s[k] == b[k - |a|] && s[..k] == a + b[..k - |a|];
      }
    }
  }

  lemma ChildrenFirstAppend(shape: Shape, s: seq<Ref>, r: Ref)
    requires ChildrenFirst(shape, s) && r in shape
    requires forall j :: 0 <= j < |shape[r]| && shape[r][j].value.Object? ==> shape[r][j].value.ref in s
    ensures ChildrenFirst(shape, s + [r])
  {
    var t := s + [r];
    forall k, j | 0 <= k < |t| && t[k] in shape && 0 <= j < |shape[t[k]]| && shape[t[k]][j].value.Object?
      ensures shape[t[k]][j].value.ref in t[..k]
    {
      if k < |s| {
        assert t[k] == s[k] && t[..k] == s[..k];
      } else {
        assert t[k] == r && t[..k] == s;
      }
    }
  }

  /** An object held by one of the first `i` properties of `r` is frozen while those properties are traversed. */
  lemma {:induction false} HeldObjectInOrderOf(shape: Shape, rank: map<Ref, nat>, r: Ref, i: nat, j: nat)
    requires WellFormed(shape, rank) && r in shape && j < i <= |shape[r]| && shape[r][j].value.Object?
    ensures shape[r][j].value.ref in OrderOf(shape, rank, r, i)
  {
    if j < i - 1 {
      HeldObjectInOrderOf(shape, rank, r, i - 1, j);
    } else {
      var child := shape[r][j].value;
      assert Order(shape, rank, child) == OrderOf(shape, rank, child.ref, |shape[child.ref]|) + [child.ref];
    }
  }

  /** The tolerant traversal freezes children before their parent. */
  lemma {:induction false} OrderChildrenFirst(shape: Shape, rank: map<Ref, nat>, v: Value)
    requires WellFormed(shape, rank) && Closed(shape, v)
    ensures ChildrenFirst(shape, Order(shape, rank, v))
    decreases Rank(rank, v), 1, 0
  {
    if v.Object? {
      var r := v.ref;
      var n := |shape[r]|;
      OrderOfChildrenFirst(shape, rank, r, n);
      forall j | 0 <= j < n && shape[r][j].value.Object?
        ensures shape[r][j].value.ref in OrderOf(shape, rank, r, n)
      {
        HeldObjectInOrderOf(shape, rank, r, n, j);
      }
      ChildrenFirstAppend(shape, OrderOf(shape, rank, r, n), r);
    }
  }

  lemma {:induction false} OrderOfChildrenFirst(shape: Shape, rank: map<Ref, nat>, r: Ref, i: nat)
    requires WellFormed(shape, rank) && r in shape && i <= |shape[r]|
    ensures ChildrenFirst(shape, OrderOf(shape, rank, r, i))
    decreases rank[r] + 1, 0, i
  {
    if i > 0 {
      OrderOfChildrenFirst(shape, rank, r, i - 1);
      OrderChildrenFirst(shape, rank, shape[r][i - 1].value);
      ChildrenFirstConcat(shape, OrderOf(shape, rank, r, i - 1), Order(shape, rank, shape[r][i - 1].value));
    }
  }

  /**
    The strict traversal returns exactly when no `null` is reachable, and
    then it freezes the same objects in the same order as the tolerant one.
  */
  lemma {:induction false} StrictMatchesTolerant(shape: Shape, rank: map<Ref, nat>, v: Value)
    requires WellFormed(shape, rank) && Closed(shape, v) && TypeofObject(v)
    ensures StrictOrder(shape, rank, v).completed <==> NullFree(shape, rank, v)
    ensures StrictOrder(shape, rank, v).completed ==> StrictOrder(shape, rank, v).frozen == Order(shape, rank, v)
    decreases Rank(rank, v), 1, 0
  {
    if v.Object? {
      StrictOfMatchesTolerant(shape, rank, v.ref, |shape[v.ref]|);
    }
  }

  lemma {:induction false} StrictOfMatchesTolerant(shape: Shape, rank: map<Ref, nat>, r: Ref, i: nat)
    requires WellFormed(shape, rank) && r in shape && i <= |shape[r]|
    ensures StrictOrderOf(shape, rank, r, i).completed <==> NullFreeVia(shape, rank, r, i)
    ensures StrictOrderOf(shape, rank, r, i).completed ==> StrictOrderOf(shape, rank, r, i).frozen == OrderOf(shape, rank, r, i)
    decreases rank[r] + 1, 0, i
  {
    if i > 0 {
      StrictOfMatchesTolerant(shape, rank, r, i - 1);
      var child := shape[r][i - 1].value;
      if TypeofObject(child) {
        StrictMatchesTolerant(shape, rank, child);
      } else {
        assert OrderOf(shape, rank, r, i - 1) + Order(shape, rank, child) == OrderOf(shape, rank, r, i - 1);
      }
    }
  }

  /** Everything the strict traversal of `v` freezes ranks no higher than `v`. */
  lemma {:induction false} StrictFrozenBelow(shape: Shape, rank: map<Ref, nat>, v: Value)
    requires WellFormed(shape, rank) && Closed(shape, v) && v.Object?
    ensures forall x :: x in StrictOrder(shape, rank, v).frozen ==> x in rank && rank[x] <= rank[v.ref]
    decreases Rank(rank, v), 1, 0
  {
    StrictOfFrozenBelow(shape, rank, v.ref, |shape[v.ref]|);
  }

  lemma {:induction false} StrictOfFrozenBelow(shape: Shape, rank: map<Ref, nat>, r: Ref, i: nat)
    requires WellFormed(shape, rank) && r in shape && i <= |shape[r]|
    ensures forall x :: x in StrictOrderOf(shape, rank, r, i).frozen ==> x in rank && rank[x] < rank[r]
    decreases rank[r] + 1, 0, i
  {
    if i > 0 {
      StrictOfFrozenBelow(shape, rank, r, i - 1);
      var child := shape[r][i - 1].value;
      if child.Object? {
        StrictFrozenBelow(shape, rank, child);
        assert rank[child.ref] < rank[r];
      }
      assert forall x :: x in StrictVisit(shape, rank, r, i - 1).frozen ==> x in rank && rank[x] < rank[r];
    }
  }

  /** When the strict traversal of an object throws, that object is not frozen. */
  lemma StrictThrowLeavesParentUnfrozen(shape: Shape, rank: map<Ref, nat>, v: Value)
    requires WellFormed(shape, rank) && Closed(shape, v) && v.Object?
    requires !StrictOrder(shape, rank, v).completed
    ensures v.ref !in StrictOrder(shape, rank, v).frozen
  {
    StrictOfFrozenBelow(shape, rank, v.ref, |shape[v.ref]|);
  }

  /** What the strict traversal has frozen over the first `i` properties stays frozen, whatever later properties do. */
  lemma {:induction false} StrictFrozenOnlyGrows(shape: Shape, rank: map<Ref, nat>, r: Ref, i: nat, n: nat)
    requires WellFormed(shape, rank) && r in shape && i <= n <= |shape[r]|
    ensures StrictOrderOf(shape, rank, r, i).frozen <= StrictOrderOf(shape, rank, r, n).frozen
    decreases n - i
  {
    if i < n {
      StrictFrozenOnlyGrows(shape, rank, r, i, n - 1);
    }
  }

  /**
    `{a: {}, b: null}`: the strict traversal freezes the inner object, then
    throws on `b` and leaves the outer object unfrozen, while the tolerant
    traversal freezes both.
  */
  lemma NullPropertyAborts()
    ensures var shape := map[0 := [Property("a", Object(1)), Property("b", Null)], 1 := []];
            var rank := map[0 := 1, 1 := 0];
            && WellFormed(shape, rank)
            && StrictOrder(shape, rank, Object(0)) == Trace([1], false)
            && Order(shape, rank, Object(0)) == [1, 0]
  {
    var shape: Shape := map[0 := [Property("a", Object(1)), Property("b", Null)], 1 := []];
    var rank := map[0 := 1, 1 := 0];
    assert WellFormed(shape, rank);
    assert StrictOrder(shape, rank, Object(1)) == Trace([1], true);
    assert StrictOrderOf(shape, rank, 0, 1) == Trace([1], true);
    assert Order(shape, rank, Object(1)) == [1];
  }

  lemma ElemsConcat(a: seq<Ref>, b: seq<Ref>)
    ensures Elems(a + b) == Elems(a) + Elems(b)
  {
  }

  /** The heap `deepFreeze` runs over. */
  class Realm {
    /** Each object's own enumerable properties; freezing never changes them. */
    const shape: Shape
    /** Witness that the object graph is acyclic. */
    ghost const rank: map<Ref, nat>
    /** The objects `Object.freeze` has been applied to. */
    var frozen: set<Ref>
    /** Every `Object.freeze` call, in order. */
    ghost var freezeLog: seq<Ref>

    ghost predicate Valid()
    {
      WellFormed(shape, rank)
    }

    constructor (shape: Shape, ghost rank: map<Ref, nat>)
      requires WellFormed(shape, rank)
      ensures Valid() && this.shape == shape && this.rank == rank
      ensures frozen == {} && freezeLog == []
    {
      this.shape := shape;
      this.rank := rank;
      frozen := {};
      freezeLog := [];
    }

    /**
      `deepFreeze(hm)` of src/utils/index.ts: anything but an object returns
      `undefined` and freezes nothing; an object has its properties' values
      deep-frozen key by key and is then frozen itself and returned.
    */
    method DeepFreeze(hm: Value) returns (r: Value)
      requires Valid() && Closed(shape, hm)
      modifies this`frozen, this`freezeLog
      ensures r == (if hm.Object? then hm else Undefined)
      ensures freezeLog == old(freezeLog) + Order(shape, rank, hm)
      ensures frozen == old(frozen) + Elems(Order(shape, rank, hm))
      decreases Rank(rank, hm)
    {
      if !hm.Object? {
        return Undefined;
      }
      var props := shape[hm.ref];
      var i := 0;
      while i < |props|
        invariant 0 <= i <= |props|
        invariant freezeLog == old(freezeLog) + OrderOf(shape, rank, hm.ref, i)
        invariant frozen == old(frozen) + Elems(OrderOf(shape, rank, hm.ref, i))
      {
        var _ := DeepFreeze(props[i].value);
        i := i + 1;
      }
      frozen := frozen + {hm.ref};
      freezeLog := freezeLog + [hm.ref];
      r := hm;
    }

    /**
      `deepFreeze(obj)` of src/utils.ts and src/core/utils.ts, on an object or
      on the `null` it recurses into: every property whose `typeof` is
      'object' is deep-frozen key by key, then the object is frozen and
      returned; `Object.keys(null)` throws, and the throw leaves every
      enclosing object unfrozen.
    */
    method DeepFreezeStrict(obj: Value) returns (r: Result<Value, FreezeError>)
      requires Valid() && Closed(shape, obj) && TypeofObject(obj)
      modifies this`frozen, this`freezeLog
      ensures r.Ok? <==> StrictOrder(shape, rank, obj).completed
      ensures r.Ok? ==> r.value == obj
      ensures r.Err? ==> r.error == KeysOfNull
      ensures freezeLog == old(freezeLog) + StrictOrder(shape, rank, obj).frozen
      ensures frozen == old(frozen) + Elems(StrictOrder(shape, rank, obj).frozen)
      decreases Rank(rank, obj), 2
    {
      if obj.Null? {
        return Err(KeysOfNull);
      }
      var ok := VisitKeysStrict(obj.ref);
      if !ok {
        return Err(KeysOfNull);
      }
      frozen := frozen + {obj.ref};
      freezeLog := freezeLog + [obj.ref];
      r := Ok(obj);
    }

    /**
      `Object.keys(obj).forEach(...)` of src/utils.ts lines 2-6: the keys are
      visited in order until one visit throws. `ok` is false when one did.
    */
    method VisitKeysStrict(obj: Ref) returns (ok: bool)
      requires Valid() && obj in shape
      modifies this`frozen, this`freezeLog
      ensures ok == StrictOrderOf(shape, rank, obj, |shape[obj]|).completed
      ensures freezeLog == old(freezeLog) + StrictOrderOf(shape, rank, obj, |shape[obj]|).frozen
      ensures frozen == old(frozen) + Elems(StrictOrderOf(shape, rank, obj, |shape[obj]|).frozen)
      decreases rank[obj] + 1, 1
    {
      var props := shape[obj];
      var i := 0;
      while i < |props|
        invariant 0 <= i <= |props|
        invariant StrictOrderOf(shape, rank, obj, i).completed
        invariant freezeLog == old(freezeLog) + StrictOrderOf(shape, rank, obj, i).frozen
        invariant frozen == old(frozen) + Elems(StrictOrderOf(shape, rank, obj, i).frozen)
      {
        ElemsConcat(StrictOrderOf(shape, rank, obj, i).frozen, StrictVisit(shape, rank, obj, i).frozen);
        ok := VisitStrict(obj, i);
        if !ok {
          StrictFailureSticks(shape, rank, obj, i + 1, |props|);
          return;
        }
        i := i + 1;
      }
      ok := true;
    }

    /**
      The `forEach` callback of src/utils.ts lines 2-6 for the `i`-th key of
      `obj`: a value whose `typeof` is 'object' is deep-frozen, anything else
      is skipped. `ok` is false when the nested call threw.
    */
    method VisitStrict(obj: Ref, i: nat) returns (ok: bool)
      requires Valid() && obj in shape && i < |shape[obj]|
      modifies this`frozen, this`freezeLog
      ensures ok == StrictVisit(shape, rank, obj, i).completed
      ensures freezeLog == old(freezeLog) + StrictVisit(shape, rank, obj, i).frozen
      ensures frozen == old(frozen) + Elems(StrictVisit(shape, rank, obj, i).frozen)
      decreases rank[obj] + 1, 0
    {
      var child := shape[obj][i].value;
      if TypeofObject(child) {
        var c := DeepFreezeStrict(child);
        ok := c.Ok?;
      } else {
        ok := true;
      }
    }
  }
}
