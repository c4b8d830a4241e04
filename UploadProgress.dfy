/**
 * `Math.round((evt.loaded / evt.total) * 100)`, the upload percentage the uploaders show,
 * computed exactly in integers.
 */
module UploadProgress {

  /** One `xhr.upload.onprogress` event. */
  datatype ProgressEvent = ProgressEvent(lengthComputable: bool, loaded: nat, total: nat)

  /**
   * The loaded share of the total, in percent, rounded half up as `Math.round` does, but on
   * the exact ratio rather than a double:
   * the integer `r` with `r - 1/2 <= 100 * loaded / total < r + 1/2`.
   */
  function Percent(loaded: nat, total: nat): (r: nat)
    requires total > 0
    ensures 2 * total * r <= 200 * loaded + total < 2 * total * (r + 1)
  {
    var n := 200 * loaded + total;
    var d := 2 * total;
    assert n == d * (n / d) + n % d;
    n / d
  }

  /** Multiplying by a positive number keeps a strict order, so it can also be cancelled. */
  lemma MulCancel(t: int, x: int, y: int)
    requires t > 0 && t * x < t * y
    ensures x < y
  {
  }

  /** No more than everything is loaded: the percentage stays within 0..100, and is 100 at the end. */
  lemma PercentBounds(loaded: nat, total: nat)
    requires 0 < total && loaded <= total
    ensures Percent(loaded, total) <= 100
    ensures loaded == total ==> Percent(loaded, total) == 100
    ensures loaded == 0 ==> Percent(loaded, total) == 0
  {
    var r := Percent(loaded, total);
    var d := 2 * total;
    assert d * r < d * 101;
    MulCancel(d, r, 101);
    if loaded == total {
      assert d * 100 < d * (r + 1);
      MulCancel(d, 100, r + 1);
    }
    if loaded == 0 {
      assert d * r < d * 1;
      MulCancel(d, r, 1);
    }
  }

  /** More loaded never shows less. */
  lemma PercentMonotone(a: nat, b: nat, total: nat)
    requires 0 < total && a <= b
    ensures Percent(a, total) <= Percent(b, total)
  {
    var ra, rb := Percent(a, total), Percent(b, total);
    var d := 2 * total;
    assert d * ra < d * (rb + 1);
    MulCancel(d, ra, rb + 1);
  }

  /**
   * The percentages an upload reports, in order: one per event whose length is computable.
   * An event with a computable total of 0 (a `NaN` in the source) reports nothing here.
   */
  function Reported(events: seq<ProgressEvent>): (r: seq<nat>)
    ensures |r| <= |events|
  {
    if events == [] then []
    else
      var e := events[0];
      (if e.lengthComputable && e.total > 0 then [Percent(e.loaded, e.total)] else []) + Reported(events[1..])
  }

  /** The progress after the events: the last reported percentage, or `p` when none was reported. */
  function AfterEvents(p: int, events: seq<ProgressEvent>): int {
    var r := Reported(events);
    if r == [] then p else r[|r| - 1]
  }

  predicate Sane(events: seq<ProgressEvent>) {
    forall i :: 0 <= i < |events| ==> events[i].loaded <= events[i].total
  }

  /** Every reported percentage is within 0..100 when no event reports more loaded than its total. */
  lemma {:induction false} ReportedBounds(events: seq<ProgressEvent>)
    requires Sane(events)
    ensures forall i :: 0 <= i < |Reported(events)| ==> Reported(events)[i] <= 100
  {
    if events != [] {
      var e := events[0];
      assert Sane(events[1..]) by {
        forall i | 0 <= i < |events[1..]| ensures events[1..][i].loaded <= events[1..][i].total {
          assert events[1..][i] == events[i + 1];
        }
      }
      ReportedBounds(events[1..]);
      if e.lengthComputable && e.total > 0 {
        PercentBounds(e.loaded, e.total);
      }
      var head := if e.lengthComputable && e.total > 0 then [Percent(e.loaded, e.total)] else [];
      var rest := Reported(events[1..]);
      assert forall i :: |head| <= i < |head + rest| ==> (head + rest)[i] == rest[i - |head|];
    }
  }

  /** Starting within 0..100, the progress stays there. */
  lemma AfterEventsBounds(p: int, events: seq<ProgressEvent>)
    requires 0 <= p <= 100 && Sane(events)
    ensures 0 <= AfterEvents(p, events) <= 100
  {
    ReportedBounds(events);
  }

  /** Events whose length is not computable never move the progress. */
  lemma {:induction false} UncomputableKeep(p: int, events: seq<ProgressEvent>)
    requires forall i :: 0 <= i < |events| ==> !events[i].lengthComputable
    ensures Reported(events) == [] && AfterEvents(p, events) == p
  {
    if events != [] {
      UncomputableKeep(p, events[1..]);
    }
  }
}
