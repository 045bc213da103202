/** Facts about sequences without repetition and about counting, used by every layer. */
module Sequences {
  datatype Option<+T> = None | Some(value: T)

  ghost predicate NoDup<T>(q: seq<T>)
  {
    forall i, j :: 0 <= i < j < |q| ==> q[i] != q[j]
  }

  /** Putting fresh distinct elements anywhere keeps a sequence free of repetition. */
  lemma NoDupInsert<T>(a: seq<T>, l: seq<T>, b: seq<T>)
    requires NoDup(a + b) && NoDup(l)
    requires forall x :: x in l ==> x !in a + b
    ensures NoDup(a + l + b)
  {
    var q := a + l + b;
    forall i, j | 0 <= i < j < |q|
      ensures q[i] != q[j]
    {
      var n := |l|;
      var i' := if i < |a| then i else i - n;
      var j' := if j < |a| then j else j - n;
      if (i < |a| || |a| + n <= i) && (j < |a| || |a| + n <= j) {
        assert (a + b)[i'] == q[i] && (a + b)[j'] == q[j];
      } else if |a| <= i < |a| + n && |a| <= j < |a| + n {
        assert l[i - |a|] == q[i] && l[j - |a|] == q[j];
      } else if |a| <= i < |a| + n {
        assert q[i] in l && (a + b)[j'] == q[j];
      } else {
        assert q[j] in l && (a + b)[i'] == q[i];
      }
    }
  }
}
