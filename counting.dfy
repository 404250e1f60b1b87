/** Counting by positions: the set of indices of a sequence at which a
    test holds, and how that set grows when one element is appended. The
    `filter(...).length` counts of the pipeline are stated against it.
    Also the pointwise map of a sequence, which the per-repository `map`
    of the weekly fold uses. */
module Counting {

  /** The positions of `s` whose element satisfies `p`. */
  ghost function Positions<T>(s: seq<T>, p: T -> bool): set<int>
  {
    set i | 0 <= i < |s| && p(s[i])
  }

  /** The positions of `flags` that hold `true`. */
  ghost function TruePositions(flags: seq<bool>): set<int>
  {
    set i | 0 <= i < |flags| && flags[i]
  }

  /** Appending one element adds its position exactly when it satisfies `p`. */
  lemma PositionsStep<T>(s: seq<T>, p: T -> bool)
    requires s != []
    ensures |Positions(s, p)| == |Positions(s[..|s| - 1], p)| + (if p(s[|s| - 1]) then 1 else 0)
  {
    var last := |s| - 1;
    var init := s[..last];
    var before := Positions(init, p);
    assert last !in before;
    forall i | i in before ensures i in Positions(s, p) {
      assert init[i] == s[i];
    }
    forall i | i in Positions(s, p) && i != last ensures i in before {
      assert init[i] == s[i];
    }
    if p(s[last]) {
      assert Positions(s, p) == before + {last};
    } else {
      assert Positions(s, p) == before;
    }
  }

  /** Appending one flag adds its position exactly when it is `true`. */
  lemma TruePositionsStep(flags: seq<bool>)
    requires flags != []
    ensures |TruePositions(flags)| ==
      |TruePositions(flags[..|flags| - 1])| + (if flags[|flags| - 1] then 1 else 0)
  {
    var last := |flags| - 1;
    var init := flags[..last];
    var before := TruePositions(init);
    assert last !in before;
    forall i | i in before ensures i in TruePositions(flags) {
      assert init[i] == flags[i];
    }
    forall i | i in TruePositions(flags) && i != last ensures i in before {
      assert init[i] == flags[i];
    }
    if flags[last] {
      assert TruePositions(flags) == before + {last};
    } else {
      assert TruePositions(flags) == before;
    }
  }

  /** `f` applied to every element of `s`, in order. */
  function MapSeq<A, B>(f: A -> B, s: seq<A>): (r: seq<B>)
    ensures |r| == |s|
    ensures forall i :: 0 <= i < |s| ==> r[i] == f(s[i])
  {
    seq(|s|, i requires 0 <= i < |s| => f(s[i]))
  }

  /** Mapping two sequences one after the other is mapping their concatenation. */
  lemma MapSeqAppend<A, B>(f: A -> B, a: seq<A>, b: seq<A>)
    ensures MapSeq(f, a + b) == MapSeq(f, a) + MapSeq(f, b)
  {
    var ab, ra, rb := MapSeq(f, a + b), MapSeq(f, a), MapSeq(f, b);
    forall i | 0 <= i < |ab| ensures ab[i] == (ra + rb)[i] {
      if i < |a| {
        assert (a + b)[i] == a[i];
      } else {
        assert (a + b)[i] == b[i - |a|];
      }
    }
  }
}
