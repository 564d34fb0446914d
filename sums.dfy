/** Sums over finite sets of row ids: the meaning of a SQL SUM over the rows a
    query selects, independent of the order in which the rows come back. */
module Sums {

  /** A non-empty set has a member (the witness the choices below need). */
  lemma HasMember(ids: set<int>)
    requires ids != {}
    ensures exists i :: i in ids
  {
    if forall i :: i !in ids { assert false; }
  }

  /** The sum of w(i) over the ids in `ids`. */
  ghost function SumOver(ids: set<int>, w: int -> int): int
    decreases ids
  {
    if ids == {} then 0 else HasMember(ids); var i :| i in ids; w(i) + SumOver(ids - {i}, w)
  }

  /** Any member may be taken out first. */
  lemma {:induction false} SumOverRemove(ids: set<int>, w: int -> int, x: int)
    requires x in ids
    ensures SumOver(ids, w) == w(x) + SumOver(ids - {x}, w)
    decreases ids
  {
    var y :| y in ids && SumOver(ids, w) == w(y) + SumOver(ids - {y}, w);
    if y != x {
      SumOverRemove(ids - {y}, w, x);
      SumOverRemove(ids - {x}, w, y);
      assert ids - {y} - {x} == ids - {x} - {y};
    }
  }

  /** The sum only depends on the weights of the ids summed over. */
  lemma {:induction false} SumOverCongruent(ids: set<int>, w1: int -> int, w2: int -> int)
    requires forall i :: i in ids ==> w1(i) == w2(i)
    ensures SumOver(ids, w1) == SumOver(ids, w2)
    decreases ids
  {
    if ids != {} {
      HasMember(ids);
      var x :| x in ids;
      SumOverRemove(ids, w1, x);
      SumOverRemove(ids, w2, x);
      SumOverCongruent(ids - {x}, w1, w2);
    }
  }

  /** Raising the weight of one id by d raises the sum by d. */
  lemma SumOverBump(ids: set<int>, w: int -> int, w': int -> int, x: int, d: int)
    requires x in ids && w'(x) == w(x) + d
    requires forall i :: i in ids && i != x ==> w'(i) == w(i)
    ensures SumOver(ids, w') == SumOver(ids, w) + d
  {
    SumOverRemove(ids, w, x);
    SumOverRemove(ids, w', x);
    SumOverCongruent(ids - {x}, w, w');
  }

  /** Adding a new id adds its weight to the sum. */
  lemma SumOverInsert(ids: set<int>, w: int -> int, w': int -> int, x: int)
    requires x !in ids
    requires forall i :: i in ids ==> w'(i) == w(i)
    ensures SumOver(ids + {x}, w') == w'(x) + SumOver(ids, w)
  {
    SumOverRemove(ids + {x}, w', x);
    assert (ids + {x}) - {x} == ids;
    SumOverCongruent(ids, w', w);
  }

  /** Ids of weight 0 do not change the sum. */
  lemma {:induction false} SumOverZeros(small: set<int>, big: set<int>, w: int -> int)
    requires small <= big
    requires forall i :: i in big - small ==> w(i) == 0
    ensures SumOver(big, w) == SumOver(small, w)
    decreases big
  {
    if big - small != {} {
      HasMember(big - small);
      var x :| x in big - small;
      SumOverRemove(big, w, x);
      SumOverZeros(small, big - {x}, w);
    } else {
      forall x | x in big
        ensures x in small
      {
        assert x !in big - small;
      }
      assert big == small;
    }
  }
}
