/**
 Sums of an integer-valued function over a finite set, with no order of
 visiting fixed. The definition picks an arbitrary element first; the lemmas
 show that the choice never matters, which is what lets a loop over a
 dictionary's keys be compared with this sum whatever order it visits them in.
 */
module SetSum {

  /** The sum of `f(x)` over every `x` in `s`, each element counted once. */
  ghost function Sum<T>(f: T -> int, s: set<T>): int
    decreases s
  {
    if s == {} then 0
    else
      var x :| x in s;
      f(x) + Sum(f, s - {x})
  }

  /** Any element may be taken out first: the sum does not depend on the choice. */
  lemma {:induction false} SumRemove<T>(f: T -> int, s: set<T>, y: T)
    requires y in s
    ensures Sum(f, s) == f(y) + Sum(f, s - {y})
    decreases s
  {
    var x :| x in s && Sum(f, s) == f(x) + Sum(f, s - {x});
    if x != y {
      SumRemove(f, s - {x}, y);
      SumRemove(f, s - {y}, x);
      assert s - {x} - {y} == s - {y} - {x};
    }
  }

  /** Functions that agree on `s` have the same sum over `s`. */
  lemma {:induction false} SumCongruent<T>(f: T -> int, g: T -> int, s: set<T>)
    requires forall x :: x in s ==> f(x) == g(x)
    ensures Sum(f, s) == Sum(g, s)
    decreases s
  {
    if s != {} {
      var x :| x in s;
      SumRemove(f, s, x);
      SumRemove(g, s, x);
      SumCongruent(f, g, s - {x});
    }
  }

  /** Elements on which `f` is zero can be dropped from the sum. */
  lemma {:induction false} SumDropZeros<T>(f: T -> int, s: set<T>, z: set<T>)
    requires z <= s
    requires forall x :: x in z ==> f(x) == 0
    ensures Sum(f, s) == Sum(f, s - z)
    decreases z
  {
    if z != {} {
      var x :| x in z;
      SumRemove(f, s, x);
      SumDropZeros(f, s - {x}, z - {x});
      assert (s - {x}) - (z - {x}) == s - z;
    } else {
      assert s - z == s;
    }
  }
}
