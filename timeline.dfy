/** The time accumulator both effects keep: the sum of the frame deltas the
    host has passed to `update` since construction. */
module Timeline {

  /** Accumulated time after the deltas `ds`, applied in order from 0 */
  function Elapsed(ds: seq<real>): real {
    if ds == [] then 0.0 else Elapsed(ds[..|ds| - 1]) + ds[|ds| - 1]
  }

  /** One more update adds its delta */
  lemma ElapsedStep(ds: seq<real>, d: real)
    ensures Elapsed(ds + [d]) == Elapsed(ds) + d
  {
    assert (ds + [d])[..|ds|] == ds;
  }

  /** Replaying two runs of updates one after the other adds their times */
  lemma {:induction false} ElapsedConcat(a: seq<real>, b: seq<real>)
    ensures Elapsed(a + b) == Elapsed(a) + Elapsed(b)
  {
    if b != [] {
      var init := b[..|b| - 1];
      var last := b[|b| - 1];
      assert b == init + [last];
      assert a + b == (a + init) + [last];
      ElapsedConcat(a, init);
      ElapsedStep(a + init, last);
      ElapsedStep(init, last);
    } else {
      assert a + b == a;
    }
  }

  /** `update(dt1); update(dt2)` leaves the same time as `update(dt1 + dt2)` */
  lemma UpdatesAreAdditive(ds: seq<real>, dt1: real, dt2: real)
    ensures Elapsed(ds + [dt1, dt2]) == Elapsed(ds + [dt1 + dt2])
  {
    assert ds + [dt1, dt2] == (ds + [dt1]) + [dt2];
    ElapsedStep(ds + [dt1], dt2);
    ElapsedStep(ds, dt1);
    ElapsedStep(ds, dt1 + dt2);
  }

  /** With non-negative deltas the accumulated time never decreases */
  lemma {:induction false} ElapsedNeverDecreases(ds: seq<real>, more: seq<real>)
    requires forall i :: 0 <= i < |more| ==> 0.0 <= more[i]
    ensures Elapsed(ds) <= Elapsed(ds + more)
  {
    ElapsedConcat(ds, more);
    NonNegativeElapsed(more);
  }

  lemma {:induction false} NonNegativeElapsed(ds: seq<real>)
    requires forall i :: 0 <= i < |ds| ==> 0.0 <= ds[i]
    ensures 0.0 <= Elapsed(ds)
  {
    if ds != [] {
      NonNegativeElapsed(ds[..|ds| - 1]);
    }
  }
}
