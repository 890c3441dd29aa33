/** Finite sets of identifiers. */
module Sets {

  lemma Contained(x: set<int>, y: set<int>)
    requires forall a | a in x :: a in y
    ensures x <= y
  {
    forall a | a in x ensures a in y {}
  }

  lemma PickOutside(x: set<int>, y: set<int>) returns (a: int)
    requires !(x <= y)
    ensures a in x && a !in y
  {
    if forall b | b in x :: b in y {
      Contained(x, y);
    }
    a :| a in x && a !in y;
  }

  ghost function Pick(x: set<int>): (a: int)
    requires x != {}
    ensures a in x
  {
    assert exists a :: a in x by {
      var a := PickOutside(x, {});
    }
    var a :| a in x; a
  }

  lemma CardinalityBound(x: set<int>, y: set<int>)
    requires x <= y
    ensures |x| <= |y| && (|x| == |y| ==> x == y)
  {
    assert y == x + (y - x);
  }
}
