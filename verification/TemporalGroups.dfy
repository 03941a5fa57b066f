/** Grouping of one source's events by time: a new group starts where the gap to the previous event is too long,
    and groups of a single event are not reported. */
module TemporalGroups {

  datatype Event = Event(id: nat, at: real)

  function Flatten(segs: seq<seq<Event>>): seq<Event> {
    if segs == [] then [] else Flatten(segs[..|segs| - 1]) + segs[|segs| - 1]
  }

  ghost predicate Tight(seg: seq<Event>, w: real) {
    seg != [] && forall i :: 0 < i < |seg| ==> seg[i].at - seg[i - 1].at <= w
  }

  /** The gap between a group and the next one is too long. */
  ghost predicate Apart(a: seq<Event>, b: seq<Event>, w: real) {
    a != [] && b != [] && b[0].at - a[|a| - 1].at > w
  }

  /** The events cut exactly at the long gaps. */
  ghost predicate Segmentation(segs: seq<seq<Event>>, events: seq<Event>, w: real) {
    && Flatten(segs) == events
    && (forall i :: 0 <= i < |segs| ==> Tight(segs[i], w))
    && (forall i :: 0 < i < |segs| ==> Apart(segs[i - 1], segs[i], w))
  }

  function AddEvent(segs: seq<seq<Event>>, e: Event, w: real): seq<seq<Event>> {
    var k := |segs| - 1;
    if segs == [] || segs[k] == [] || e.at - segs[k][|segs[k]| - 1].at > w then segs + [[e]]
    else segs[..k] + [segs[k] + [e]]
  }

  function Segments(events: seq<Event>, w: real): seq<seq<Event>> {
    if events == [] then [] else AddEvent(Segments(events[..|events| - 1], w), events[|events| - 1], w)
  }

  /** The groups worth reporting. */
  function Reported(segs: seq<seq<Event>>): seq<seq<Event>> {
    if segs == [] then []
    else
      var k := |segs| - 1;
      Reported(segs[..k]) + (if |segs[k]| >= 2 then [segs[k]] else [])
  }

  lemma FlattenSnoc(segs: seq<seq<Event>>, seg: seq<Event>)
    ensures Flatten(segs + [seg]) == Flatten(segs) + seg
  {
    assert (segs + [seg])[..|segs|] == segs;
  }

  lemma SegmentationPrefix(segs: seq<seq<Event>>, events: seq<Event>, w: real)
    requires Segmentation(segs, events, w) && segs != []
    ensures Segmentation(segs[..|segs| - 1], Flatten(segs[..|segs| - 1]), w)
  {}

  lemma AddEventSegments(segs: seq<seq<Event>>, events: seq<Event>, e: Event, w: real)
    requires Segmentation(segs, events, w)
    ensures Segmentation(AddEvent(segs, e, w), events + [e], w)
  {
    var k := |segs| - 1;
    if segs == [] || e.at - segs[k][|segs[k]| - 1].at > w {
      FlattenSnoc(segs, [e]);
    } else {
      FlattenSnoc(segs[..k], segs[k] + [e]);
      assert Flatten(segs[..k]) + (segs[k] + [e]) == events + [e];
    }
  }

  /** The computed groups are such a segmentation. */
  lemma {:induction false} SegmentsAre(events: seq<Event>, w: real)
    ensures Segmentation(Segments(events, w), events, w)
  {
    if events != [] {
      var n := |events| - 1;
      SegmentsAre(events[..n], w);
      AddEventSegments(Segments(events[..n], w), events[..n], events[n], w);
      assert events[..n] + [events[n]] == events;
    }
  }

  lemma EndOf(segs: seq<seq<Event>>, events: seq<Event>, w: real)
    requires Segmentation(segs, events, w) && segs != []
    ensures events != []
    ensures var s := segs[|segs| - 1]; s != [] && s[|s| - 1] == events[|events| - 1]
    ensures events[..|events| - 1] == Flatten(segs[..|segs| - 1]) + segs[|segs| - 1][..|segs[|segs| - 1]| - 1]
  {
    assert Tight(segs[|segs| - 1], w);
  }

  lemma ShortenLastEvent(segs: seq<seq<Event>>, w: real, e: Event)
    requires segs != [] && |segs[|segs| - 1]| > 1 && Tight(segs[|segs| - 1], w)
    requires e == segs[|segs| - 1][|segs[|segs| - 1]| - 1]
    ensures var s := segs[|segs| - 1]; AddEvent(segs[..|segs| - 1] + [s[..|s| - 1]], e, w) == segs
  {
    var k, s := |segs| - 1, segs[|segs| - 1];
    assert s[|s| - 1].at - s[|s| - 2].at <= w;
    assert s == s[..|s| - 1] + [e];
    assert (segs[..k] + [s[..|s| - 1]])[..k] == segs[..k];
  }

  lemma SingleLast(segs: seq<seq<Event>>, events: seq<Event>, w: real)
    requires Segmentation(segs, events, w) && segs != [] && |segs[|segs| - 1]| == 1 && events != []
    requires segs[|segs| - 1][0] == events[|events| - 1]
    ensures AddEvent(segs[..|segs| - 1], events[|events| - 1], w) == segs
  {
    var k := |segs| - 1;
    if k > 0 { assert Apart(segs[k - 1], segs[k], w); }
    assert segs[k] == [events[|events| - 1]];
    assert segs == segs[..k] + [segs[k]];
  }

  /** It is the only one. */
  lemma {:induction false} SegmentationUnique(segs: seq<seq<Event>>, events: seq<Event>, w: real)
    requires Segmentation(segs, events, w)
    ensures segs == Segments(events, w)
    decreases |events|
  {
    if segs != [] {
      EndOf(segs, events, w);
      var k, n, s := |segs| - 1, |events| - 1, segs[|segs| - 1];
      if |s| == 1 {
        SegmentationPrefix(segs, events, w);
        assert s[..0] == [] && Flatten(segs[..k]) + [] == Flatten(segs[..k]);
        SegmentationUnique(segs[..k], events[..n], w);
        SingleLast(segs, events, w);
      } else {
        ShortenLast(segs, events, w);
        SegmentationUnique(segs[..k] + [s[..|s| - 1]], events[..n], w);
        ShortenLastEvent(segs, w, events[n]);
      }
    }
  }

  lemma ShortenLast(segs: seq<seq<Event>>, events: seq<Event>, w: real)
    requires Segmentation(segs, events, w) && segs != [] && |segs[|segs| - 1]| > 1
    requires events != []
    requires events[..|events| - 1] == Flatten(segs[..|segs| - 1]) + segs[|segs| - 1][..|segs[|segs| - 1]| - 1]
    ensures Segmentation(segs[..|segs| - 1] + [segs[|segs| - 1][..|segs[|segs| - 1]| - 1]], events[..|events| - 1], w)
  {
    var k := |segs| - 1;
    var shorter := segs[k][..|segs[k]| - 1];
    FlattenSnoc(segs[..k], shorter);
    var r := segs[..k] + [shorter];
    assert Tight(segs[k], w);
    if k > 0 {
      assert Apart(segs[k - 1], segs[k], w);
      assert Apart(r[k - 1], r[k], w);
    }
    forall i | 0 < i < |r|
      ensures Apart(r[i - 1], r[i], w)
    {
      if i < k { assert Apart(segs[i - 1], segs[i], w); }
    }
  }

  lemma ReportedSnoc(segs: seq<seq<Event>>, seg: seq<Event>)
    ensures Reported(segs + [seg]) == Reported(segs) + (if |seg| >= 2 then [seg] else [])
  {
    assert (segs + [seg])[..|segs|] == segs;
  }

  method TemporalGrouping(events: seq<Event>, w: real) returns (groups: seq<seq<Event>>)
    ensures groups == Reported(Segments(events, w))
  {
    groups := [];
    if events == [] {
      return;
    }
    var current := [events[0]];
    ghost var closed: seq<seq<Event>> := [];
    assert events[..1][..0] == [] && events[..1] == [events[0]];
    assert Segments(events[..1], w) == [[events[0]]];
    for i := 1 to |events|
      invariant current != []
      invariant Segments(events[..i], w) == closed + [current]
      invariant groups == Reported(closed)
    {
      assert events[..i + 1][..i] == events[..i];
      assert (closed + [current])[..|closed|] == closed;
      if events[i].at - current[|current| - 1].at <= w {
        current := current + [events[i]];
      } else {
        if |current| >= 2 {
          groups := groups + [current];
        }
        ReportedSnoc(closed, current);
        closed := closed + [current];
        current := [events[i]];
      }
    }
    assert events[..|events|] == events;
    ReportedSnoc(closed, current);
    if |current| >= 2 {
      groups := groups + [current];
    }
  }
}
