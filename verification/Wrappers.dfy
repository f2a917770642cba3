/** The result type of the source's `Option` returns. */
module Wrappers {
  datatype Option<+T> = None | Some(value: T)
}

/** The source's unsigned integers. */
module Words {
  const WORD: nat := 0x1_0000_0000

  type byte = x: nat | x < 256
  type u32 = x: nat | x < WORD
  type u64 = x: nat | x < WORD * WORD
}

module Arithmetic {
  lemma Times(a: nat, b: nat, c: nat)
    requires a <= b
    ensures a * c <= b * c
  {
  }
}

/** Sizes of sets and sequences. */
module Collections {
  predicate NoDup<T(==)>(s: seq<T>) {
    forall i, j :: 0 <= i < j < |s| ==> s[i] != s[j]
  }

  ghost function Elements(s: seq<nat>): set<nat> {
    set x | x in s
  }

  lemma {:induction false} ElementsSize(s: seq<nat>)
    ensures |Elements(s)| <= |s|
  {
    if s != [] {
      var n := |s| - 1;
      ElementsSize(s[..n]);
      assert s == s[..n] + [s[n]];
      assert Elements(s) == Elements(s[..n]) + {s[n]};
    } else {
      assert Elements(s) == {};
    }
  }

  /** `image` has no more elements than the set that `f` maps onto it. */
  lemma {:induction false} ImageSize<A, B>(s: set<A>, f: A -> B, image: set<B>)
    requires forall y :: y in image ==> exists x :: x in s && f(x) == y
    ensures |image| <= |s|
  {
    if s != {} {
      var x :| x in s;
      ImageSize(s - {x}, f, image - {f(x)});
    } else {
      assert image == {};
    }
  }

  lemma {:induction false} Subset<T>(small: set<T>, big: set<T>)
    requires small <= big
    ensures |small| <= |big|
  {
    if small != {} {
      var x :| x in small;
      Subset(small - {x}, big - {x});
    }
  }
}
