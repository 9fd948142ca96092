/**
  Where motion tracks are between their ends, as laws in the time elapsed and the duration, and
  when tracks show; said without progress, easing and visibility functions.
*/
module TrackLaws {
  import opened Wrappers
  import opened Contracts
  import opened StableSort
  import opened TrackRuntime
  import opened Sampling
  import opened SamplingProperties

  // ------------------------------------------------------------- the share of a track

  /** The eased share covered after `u` of `d` milliseconds, times `d * d`. */
  function Covered(easing: Easing, u: real, d: real): real {
    match easing
    case Linear => u * d
    case EaseIn => u * u
    case EaseOut => u * (2.0 * d - u)
    case EaseInOut => if 2.0 * u < d then 2.0 * (u * u) else d * d - 2.0 * ((d - u) * (d - u))
  }

  lemma ProgressMeans(track: VisualTrack, t: real)
    requires track.durationMs > 0.0 && track.startTimeMs <= t <= track.startTimeMs + track.durationMs
    ensures GetTrackProgress(track, t) * track.durationMs == t - track.startTimeMs
    ensures 0.0 <= GetTrackProgress(track, t) <= 1.0
  {
    RatioInUnit(t - track.startTimeMs, track.durationMs);
  }

  lemma SquareTimes(s: real, d: real)
    ensures Square(s) * (d * d) == (s * d) * (s * d)
  {
  }

  lemma EasedTimes(easing: Easing, s: real, d: real)
    requires d > 0.0 && 0.0 <= s <= 1.0
    ensures ApplyEasing(s, easing) * (d * d) == Covered(easing, s * d, d)
  {
    hide ApplyEasing, Square;
    EasingInSquares(s, easing);
    SquareTimes(s, d);
    SquareTimes(1.0 - s, d);
    var u := s * d;
    assert (1.0 - s) * d == d - u;
    assert 2.0 * u < d <==> s < 0.5 by {
      HalfWay(s, d);
    }
    match easing
    case Linear => assert s * (d * d) == u * d;
    case EaseIn =>
    case EaseOut =>
      assert (1.0 - Square(1.0 - s)) * (d * d) == d * d - Square(1.0 - s) * (d * d);
      assert (d - u) * (d - u) == d * d - u * (2.0 * d - u);
    case EaseInOut =>
      assert (2.0 * Square(s)) * (d * d) == 2.0 * (Square(s) * (d * d));
      assert (1.0 - 2.0 * Square(1.0 - s)) * (d * d) == d * d - 2.0 * (Square(1.0 - s) * (d * d));
  }

  lemma HalfWay(s: real, d: real)
    requires d > 0.0
    ensures 2.0 * (s * d) < d <==> s < 0.5
  {
    assert (2.0 * s - 1.0) * d == 2.0 * (s * d) - d;
    ProductSign(2.0 * s - 1.0, d);
  }

  /** The eased share, for every easing and every time. */
  lemma EasedMeans(track: VisualTrack, t: real)
    ensures var u, d := t - track.startTimeMs, track.durationMs;
            && (d > 0.0 && 0.0 <= u <= d ==> Eased(track, t) * (d * d) == Covered(track.easing, u, d))
            && (u < 0.0 ==> Eased(track, t) == 0.0)
            && (u >= 0.0 && u >= d ==> Eased(track, t) == 1.0)
  {
    hide ApplyEasing, Covered, GetTrackProgress;
    EasedEnds(track, t);
    var u, d, s := t - track.startTimeMs, track.durationMs, GetTrackProgress(track, t);
    if d > 0.0 && 0.0 <= u <= d {
      ProgressMeans(track, t);
      EasedTimes(track.easing, s, d);
      assert s * d == u;
    }
  }

  // ---------------------------------------------------------------------- numbers

  /** `v` is where a number is at time `t` on its way from `a` to `b`. */
  predicate OnItsWay(track: VisualTrack, t: real, a: real, b: real, v: real) {
    var u, d := t - track.startTimeMs, track.durationMs;
    if u < 0.0 then v == a
    else if u >= d then v == b
    else if track.easing == Linear then (v - a) * d == (b - a) * u
    else (v - a) * (d * d) == (b - a) * Covered(track.easing, u, d)
  }

  lemma ShareOnItsWay(track: VisualTrack, t: real, a: real, b: real, v: real)
    requires v == a + (b - a) * Eased(track, t)
    ensures OnItsWay(track, t, a, b, v)
  {
    hide Covered, Eased;
    EasedMeans(track, t);
    var e, u, d := Eased(track, t), t - track.startTimeMs, track.durationMs;
    if 0.0 <= u < d {
      assert ((b - a) * e) * (d * d) == (b - a) * (e * (d * d));
      if track.easing == Linear {
        LinearShare(track, t);
        assert ((b - a) * e) * d == (b - a) * (e * d);
      }
    } else {
      assert (b - a) * 0.0 == 0.0 && (b - a) * 1.0 == b - a;
    }
  }

  lemma ScaledOnItsWay(track: VisualTrack, t: real, b: real)
    ensures OnItsWay(track, t, 0.0, b, Scaled(b, Eased(track, t)))
  {
    hide OnItsWay, Eased;
    var e := Eased(track, t);
    assert (b - 0.0) * e == b * e;
    ShareOnItsWay(track, t, 0.0, b, Scaled(b, e));
  }

  lemma LinearShare(track: VisualTrack, t: real)
    requires track.easing == Linear && track.durationMs > 0.0
    requires track.startTimeMs <= t <= track.startTimeMs + track.durationMs
    ensures Eased(track, t) * track.durationMs == t - track.startTimeMs
  {
    ProgressMeans(track, t);
    LinearEasesNothing(GetTrackProgress(track, t));
    hide ApplyEasing, GetTrackProgress;
  }

  /** A track's number for a key: on its way from the start value, zero if none is given, to
      the end value, the start value if none is given. */
  lemma NumberMeans(track: VisualTrack, key: string, t: real)
    ensures var a := if key in track.from then track.from[key] else 0.0;
            var b := if key in track.to then track.to[key] else a;
            OnItsWay(track, t, a, b, InterpolateKey(track, key, t))
  {
    hide OnItsWay, ApplyEasing, GetTrackProgress;
    var a := if key in track.from then track.from[key] else 0.0;
    var b := if key in track.to then track.to[key] else a;
    assert InterpolateKey(track, key, t) == a + (b - a) * Eased(track, t);
    ShareOnItsWay(track, t, a, b, InterpolateKey(track, key, t));
  }

  /** Between its ends a `moveTo` follows its law in both coordinates. */
  lemma MoveMeans(track: VisualTrack, t: real)
    ensures var p := SampleMoveToTrack(track, t);
            var ax := if "x" in track.from then track.from["x"] else 0.0;
            var ay := if "y" in track.from then track.from["y"] else 0.0;
            && OnItsWay(track, t, ax, if "x" in track.to then track.to["x"] else ax, p.x)
            && OnItsWay(track, t, ay, if "y" in track.to then track.to["y"] else ay, p.y)
  {
    hide OnItsWay, InterpolateKey;
    NumberMeans(track, "x", t);
    NumberMeans(track, "y", t);
  }

  // ------------------------------------------------------------------------- paths

  function Travelled(host: Host, path: seq<Point>, k: nat): real
    requires k < |path|
  {
    if k == 0 then 0.0
    else Travelled(host, path, k - 1) + host.hypot(path[k].x - path[k - 1].x, path[k].y - path[k - 1].y)
  }

  /** `p` divides segment `i` in the ratio `local`, at this arc length from the start. */
  predicate DividesAt(host: Host, path: seq<Point>, arc: real, p: Point, i: nat, local: real) {
    && i + 1 < |path| && 0.0 <= local <= 1.0
    && p.x == path[i].x + (path[i + 1].x - path[i].x) * local
    && p.y == path[i].y + (path[i + 1].y - path[i].y) * local
    && arc == Travelled(host, path, i) + local * host.hypot(path[i + 1].x - path[i].x, path[i + 1].y - path[i].y)
  }

  /** `p` lies on the path at this arc length from its start. */
  ghost predicate LiesAt(host: Host, path: seq<Point>, arc: real, p: Point) {
    exists i: nat, local: real :: DividesAt(host, path, arc, p, i, local)
  }

  lemma {:induction false} TravelledIsLength(host: Host, path: seq<Point>, k: nat)
    requires k < |path|
    ensures Travelled(host, path, k) == LengthUpTo(host, path, k)
  {
    if k > 0 {
      TravelledIsLength(host, path, k - 1);
    }
  }

  lemma LiesAtIsAtArc(host: Host, path: seq<Point>, arc: real, p: Point)
    ensures LiesAt(host, path, arc, p) <==> AtArc(host, path, arc, p)
  {
    forall i: nat, local: real
      ensures DividesAt(host, path, arc, p, i, local) <==> OnSegment(host, path, arc, p, i, local)
    {
      if i + 1 < |path| {
        TravelledIsLength(host, path, i);
      }
    }
    hide DividesAt, OnSegment;
    if i: nat, local: real :| DividesAt(host, path, arc, p, i, local) {
      assert OnSegment(host, path, arc, p, i, local);
    }
    if i: nat, local: real :| OnSegment(host, path, arc, p, i, local) {
      assert DividesAt(host, path, arc, p, i, local);
    }
  }

  /** A track on a path of positive length is the one point whose arc length is on its way
      from nothing to the whole length. */
  lemma PathMeans(host: Host, track: VisualTrack, t: real) returns (arc: real)
    requires MeasuresLength(host) && |track.path| >= 2 && Travelled(host, track.path, |track.path| - 1) > 0.0
    ensures OnItsWay(track, t, 0.0, Travelled(host, track.path, |track.path| - 1), arc)
    ensures forall p :: p == SamplePathTrack(host, track, t) <==> LiesAt(host, track.path, arc, p)
  {
    hide OnItsWay, LiesAt, AtArc, SamplePathTrack, Eased, Scaled;
    var path := track.path;
    var total := Travelled(host, path, |path| - 1);
    TravelledIsLength(host, path, |path| - 1);
    arc := ArcCovered(host, track, t);
    ScaledOnItsWay(track, t, total);
    forall p ensures p == SamplePathTrack(host, track, t) <==> LiesAt(host, path, arc, p) {
      PathSampleAtArc(host, track, t, p);
      LiesAtIsAtArc(host, path, arc, p);
    }
  }

  /** A path without points leaves the object at the track's start, one point or a path without
      length at its last point. */
  lemma ShortPathMeans(host: Host, track: VisualTrack, t: real)
    ensures track.path == [] ==>
              SamplePathTrack(host, track, t) == Point(if "x" in track.from then track.from["x"] else 0.0,
                                                       if "y" in track.from then track.from["y"] else 0.0)
    ensures |track.path| == 1 ==> SamplePathTrack(host, track, t) == track.path[0]
    ensures |track.path| >= 2 && Travelled(host, track.path, |track.path| - 1) <= 0.0 ==>
              SamplePathTrack(host, track, t) == track.path[|track.path| - 1]
  {
    if |track.path| >= 2 {
      TravelledIsLength(host, track.path, |track.path| - 1);
    }
  }

  // ------------------------------------------------------------------------- orbits

  /** The point at this share of these turns around a centre, counted from the x axis. */
  predicate OrbitsAt(host: Host, p: Point, x: real, y: real, radius: real, turns: real, share: real) {
    var angle := share * turns * host.pi * 2.0;
    p.x == x + host.cosine(angle) * radius && p.y == y + host.sine(angle) * radius
  }

  lemma CircleMeans(host: Host, centre: Point, radius: real, turns: real, share: real)
    ensures OrbitsAt(host, OnCircle(host, centre, radius, Angle(host, share, turns)), centre.x, centre.y, radius,
            turns, share)
  {
  }

  /** An orbit is at the angle that is on its way from nothing to its number of turns, around
      its drawn target plus the offset, or around the middle of the scene. */
  lemma OrbitMeans(host: Host, track: VisualTrack, t: real, target: Option<SceneObject>) returns (share: real)
    ensures OnItsWay(track.(easing := Linear), t, 0.0, 1.0, share)
    ensures var turns := if track.speed.Some? then track.speed.value else 1.0;
            var radius := if track.radius.Some? then track.radius.value else 8.0;
            var x := if target.Some? then target.value.x else 50.0;
            var y := if target.Some? then target.value.y else 50.0;
            OrbitsAt(host, SampleOrbitTrack(host, track, t, target), x + track.offset.x, y + track.offset.y, radius,
                turns, share)
  {
    hide OnItsWay, GetTrackProgress, OnCircle, Angle, OrbitsAt;
    share := GetTrackProgress(track, t);
    ProgressOnItsWay(track, t);
    var centre := if target.Some? then Point(target.value.x, target.value.y) else Point(50.0, 50.0);
    CircleMeans(host, Point(centre.x + track.offset.x, centre.y + track.offset.y), track.radius.GetOr(8.0),
                track.speed.GetOr(1.0), share);
  }

  lemma ProgressOnItsWay(track: VisualTrack, t: real)
    ensures OnItsWay(track.(easing := Linear), t, 0.0, 1.0, GetTrackProgress(track, t))
  {
    hide OnItsWay, ApplyEasing;
    var linear := track.(easing := Linear);
    ProgressMonotone(track, t, t);
    LinearEasesNothing(GetTrackProgress(track, t));
    assert GetTrackProgress(linear, t) == GetTrackProgress(track, t);
    ShareOnItsWay(linear, t, 0.0, 1.0, GetTrackProgress(track, t));
  }

  // -------------------------------------------------------------------- when tracks show

  /** The track has started and is not over. */
  predicate Running(track: VisualTrack, t: real) {
    t >= track.startTimeMs && (track.persistent || t <= track.startTimeMs + track.durationMs)
  }

  /** Moves, paths and property tracks act from their start on, orbits while they run. */
  lemma MovesMeans(track: VisualTrack, t: real)
    ensures MovesAt(track, t) <==>
            || ((track.kind == MoveToTrack || track.kind == PathTrack || track.kind == PropertyTrack)
                && t >= track.startTimeMs)
            || (track.kind == OrbitTrack && Running(track, t))
  {
  }

  /** Attachments act while they run, if they name a target. */
  lemma AttachesMeans(track: VisualTrack, t: real)
    ensures AttachesAt(track, t) <==>
              track.kind == AttachTrack && Running(track, t)
              && track.targetObjectId.Some? && track.targetObjectId.value != ""
  {
  }

  /** The tracks returned are, in order, those that have started and are persistent, leave
      their object somewhere, or still run. */
  lemma RetainedMeans(tracks: seq<VisualTrack>, t: real)
    ensures RetainedTracks(tracks, t) ==
            Keep(tracks, (track: VisualTrack) =>
                   t >= track.startTimeMs
                   && (track.persistent || track.kind == MoveToTrack || track.kind == PathTrack
                       || track.kind == PropertyTrack || t <= track.startTimeMs + track.durationMs))
  {
    KeepAlike(tracks, track => ShouldRetainTrack(track, t), (track: VisualTrack) =>
                   t >= track.startTimeMs
                   && (track.persistent || track.kind == MoveToTrack || track.kind == PathTrack
                       || track.kind == PropertyTrack || t <= track.startTimeMs + track.durationMs));
  }

  /** Tracks that have not started, orbits and attachments that are over, attachments to
      nothing and route trails do not show. */
  predicate ShowsNothing(track: VisualTrack, t: real) {
    || t < track.startTimeMs
    || track.kind == RouteTrailTrack
    || ((track.kind == OrbitTrack || track.kind == AttachTrack)
        && !track.persistent && t > track.startTimeMs + track.durationMs)
    || (track.kind == AttachTrack && track.targetObjectId.GetOr("") == "")
  }

  lemma {:induction false} IdleTracksDropped(host: Host, objects: seq<SceneObject>, tracks: seq<VisualTrack>, t: real)
    ensures var shown := Keep(tracks, (track: VisualTrack) => !ShowsNothing(track, t));
            && MoveAll(host, objects, shown, t) == MoveAll(host, objects, tracks, t)
            && AttachAll(objects, shown, t) == AttachAll(objects, tracks, t)
  {
    if tracks != [] {
      var front, last := tracks[..|tracks| - 1], tracks[|tracks| - 1];
      IdleTracksDropped(host, objects, front, t);
      var kept := Keep(front, (track: VisualTrack) => !ShowsNothing(track, t));
      assert (kept + [last])[..|kept|] == kept;
      MovesMeans(last, t);
      AttachesMeans(last, t);
      hide MovesAt, AttachesAt;
    }
  }

  /** The picture is that of the tracks that show. */
  lemma PictureOfShownTracks(host: Host, objects: seq<SceneObject>, tracks: seq<VisualTrack>, t: real)
    ensures SampleObjects(host, objects, Keep(tracks, (track: VisualTrack) => !ShowsNothing(track, t)), t)
         == SampleObjects(host, objects, tracks, t)
  {
    StartOrderIsPreorder();
    var ordered := Sort(tracks, StartsNoLater);
    SortKept(tracks, (track: VisualTrack) => !ShowsNothing(track, t), StartsNoLater);
    IdleTracksDropped(host, objects, ordered, t);
    IdleTracksDropped(host, MoveAll(host, objects, ordered, t), ordered, t);
  }

  /** The last track that acts on an object, if it animates a number, leaves that number on its
      way and everything else as the tracks before it drew it. */
  lemma NumberTrackShows(host: Host, objects: seq<SceneObject>, tracks: seq<VisualTrack>, last: VisualTrack, t: real,
                         k: nat)
    returns (v: real)
    requires k < |objects| && last.kind == PropertyTrack && last.property.Some? && t >= last.startTimeMs
    requires objects[k].id == last.objectId || objects[k].entityId == Some(last.objectId)
    ensures var key := match last.property.value
                       case Opacity => "opacity"
                       case Rotation => "rotation"
                       case X => "x"
                       case Y => "y"
                       case ZIndex => "zIndex";
            var a := if key in last.from then last.from[key] else 0.0;
            OnItsWay(last, t, a, if key in last.to then last.to[key] else a, v)
    ensures var before, after := MoveAll(host, objects, tracks, t)[k], MoveAll(host, objects, tracks + [last], t)[k];
            after == match last.property.value
                     case Opacity => before.(opacity := Some(v))
                     case Rotation => before.(rotation := Some(v))
                     case X => before.(x := v)
                     case Y => before.(y := v)
                     case ZIndex => before.(zIndex := Some(v))
  {
    hide OnItsWay, InterpolateKey;
    assert (tracks + [last])[..|tracks|] == tracks;
    MoveAllKeepsItems(host, objects, tracks, t);
    assert SameItem(objects[k], MoveAll(host, objects, tracks, t)[k]);
    v := InterpolateKey(last, PropertyKey(last.property.value), t);
    NumberMeans(last, PropertyKey(last.property.value), t);
  }
}
