/** Small vocabulary shared by the models. */
module Common {
  datatype Option<+T> = None | Some(value: T)

  /** Concatenation of a sequence of sequences, grown at the end as the code grows it. */
  function Flatten<T>(xs: seq<seq<T>>): seq<T> {
    if xs == [] then [] else Flatten(xs[..|xs| - 1]) + xs[|xs| - 1]
  }

  lemma {:induction false} FlattenAppend<T>(xs: seq<seq<T>>, ys: seq<seq<T>>)
    ensures Flatten(xs + ys) == Flatten(xs) + Flatten(ys)
  {
    if ys == [] {
      assert xs + ys == xs;
    } else {
      var front := ys[..|ys| - 1];
      FlattenAppend(xs, front);
      assert xs + ys == xs + front + [ys[|ys| - 1]];
      assert (xs + ys)[..|xs + ys| - 1] == xs + front;
      var last := ys[|ys| - 1];
      assert Flatten(xs + ys) == Flatten(xs + front) + last;
      assert Flatten(xs) + Flatten(front) + last == Flatten(xs) + (Flatten(front) + last);
    }
  }

  lemma FlattenCons<T>(x: seq<T>, xs: seq<seq<T>>)
    ensures Flatten([x] + xs) == x + Flatten(xs)
  {
    FlattenAppend([x], xs);
    assert Flatten([x]) == x by {
      assert [x][..0] == [];
    }
  }
}
