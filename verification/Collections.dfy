/** Facts about finite sets that several modules use. */
module Collections {

  lemma SubsetSize<T>(a: set<T>, b: set<T>)
    requires a <= b
    ensures |a| <= |b|
  {
    assert b == a + (b - a);
  }

  /** There is always a number above all members. */
  lemma {:induction false} FreshNumber(ws: set<nat>) returns (w: nat)
    ensures forall v | v in ws :: v < w
    decreases ws
  {
    if ws == {} {
      w := 0;
    } else {
      var v :| v in ws;
      var u := FreshNumber(ws - {v});
      w := if u > v then u else v + 1;
      forall x | x in ws ensures x < w {
        assert x == v || x in ws - {v};
      }
    }
  }

  lemma TwoOf<T>(ws: set<T>) returns (w: T, v: T)
    requires |ws| >= 2
    ensures w in ws && v in ws && w != v
  {
    w :| w in ws;
    assert |ws - {w}| == |ws| - 1;
    v :| v in ws - {w};
  }
}
