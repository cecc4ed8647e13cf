/** Sizes of finite sets. */
module Sets {

  ghost predicate Between(lo: int, j: int, hi: int) {
    lo <= j < hi
  }

  ghost function Range(lo: int, hi: int): set<int> {
    set j | lo <= j < hi && Between(lo, j, hi)
  }

  lemma {:induction false} RangeSize(lo: int, hi: int)
    requires lo <= hi
    ensures |Range(lo, hi)| == hi - lo
    decreases hi - lo
  {
    if lo == hi {
      assert Range(lo, hi) == {};
    } else {
      assert Range(lo, hi) == Range(lo, hi - 1) + {hi - 1};
      RangeSize(lo, hi - 1);
    }
  }

  lemma {:induction false} SubsetSize<T>(a: set<T>, b: set<T>)
    requires a <= b
    ensures |a| <= |b|
  {
    if a != {} {
      var x :| x in a;
      SubsetSize(a - {x}, b - {x});
    }
  }

  /** A set mapped one to one into another is no larger. */
  lemma {:induction false} ImageSize<T, U>(a: set<T>, f: T -> U, b: set<U>)
    requires forall x :: x in a ==> f(x) in b
    requires forall x, y :: x in a && y in a && x != y ==> f(x) != f(y)
    ensures |a| <= |b|
  {
    if a != {} {
      var x :| x in a;
      ImageSize(a - {x}, f, b - {f(x)});
    }
  }
}
