/** The three set operations the CI job viewer uses for its filters and its
    selection. A JavaScript `Set<string>` is a Dafny `set<string>` here: the
    viewer only ever asks these sets for membership and size. */
module SetUtils {

  /** The elements of a list, as the `new Set(ids)` of the source builds them. */
  function Elements(xs: seq<string>): set<string> {
    set x | x in xs
  }

  /** `toggleInSet`: the value changes membership, nothing else does. */
  function ToggleInSet(prev: set<string>, value: string): (next: set<string>)
    ensures value in next <==> value !in prev
    ensures forall x :: x != value ==> (x in next <==> x in prev)
  {
    if value in prev then prev - {value} else prev + {value}
  }

  lemma ToggleInvolution(prev: set<string>, value: string)
    ensures ToggleInSet(ToggleInSet(prev, value), value) == prev
  {
  }

  lemma SingletonBySize(s: set<string>, value: string)
    requires |s| == 1 && value in s
    ensures s == {value}
  {
    var rest := s - {value};
    assert |rest| == 0;
    assert rest == {};
  }

  /** `soloInSet`: clicking the one value already singled out restores every
      value; any other click singles that value out. */
  function SoloInSet(prev: set<string>, value: string, allValues: seq<string>): (next: set<string>)
    ensures prev == {value} ==> next == Elements(allValues)
    ensures prev != {value} ==> next == {value}
  {
    if |prev| == 1 && value in prev then
      SingletonBySize(prev, value);
      Elements(allValues)
    else
      {value}
  }

  /** Singling out a value and then singling it out again gives back the
      full set, as long as that full set has some other value in it. */
  lemma {:induction false} SoloTwiceRestores(allValues: seq<string>, value: string, other: string)
    requires value in allValues && other in allValues && other != value
    ensures SoloInSet(Elements(allValues), value, allValues) == {value}
    ensures SoloInSet(SoloInSet(Elements(allValues), value, allValues), value, allValues) == Elements(allValues)
  {
    assert other in Elements(allValues);
    assert Elements(allValues) != {value};
  }

  lemma {:induction false} SubsetOfSameSize(a: set<string>, b: set<string>)
    requires a <= b && |a| == |b|
    ensures a == b
  {
    if a != b {
      var x :| x in b && x !in a;
      assert a <= b - {x};
      SubsetSize(a, b - {x});
      assert false;
    }
  }

  lemma {:induction false} SubsetSize(a: set<string>, b: set<string>)
    requires a <= b
    ensures |a| <= |b|
    decreases |b|
  {
    if a != {} {
      var x :| x in a;
      SubsetSize(a - {x}, b - {x});
    }
  }

  /** `removeFromSet`: the loop copies every element that is not to be
      removed. The second result tells whether the source hands back `prev`
      itself (nothing to remove, or nothing of it in `prev`), which is what
      lets React skip the re-render. */
  method RemoveFromSet(prev: set<string>, ids: seq<string>) returns (next: set<string>, same: bool)
    ensures next == prev - Elements(ids)
    ensures same <==> (|ids| == 0 || prev !! Elements(ids))
    ensures same ==> next == prev
  {
    var toRemove := Elements(ids);
    assert |ids| > 0 ==> ids[0] in toRemove;
    if |toRemove| == 0 {
      return prev, true;
    }
    var built: set<string> := {};
    var rest := prev;
    while rest != {}
      invariant rest <= prev
      invariant built == (prev - rest) - toRemove
      decreases |rest|
    {
      var id :| id in rest;
      if id !in toRemove {
        built := built + {id};
      }
      rest := rest - {id};
    }
    if |built| == |prev| {
      SubsetOfSameSize(built, prev);
      next, same := prev, true;
    } else {
      next, same := built, false;
    }
  }

  /** Removing the same ids a second time removes nothing more: the second
      call hands back its input. */
  lemma RemoveIdempotent(prev: set<string>, ids: seq<string>)
    ensures (prev - Elements(ids)) - Elements(ids) == prev - Elements(ids)
    ensures (prev - Elements(ids)) !! Elements(ids)
  {
  }
}
