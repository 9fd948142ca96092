/** Tracks over time (`trackRuntime.ts`). */
module TrackRuntime {
  import opened Wrappers
  import opened Contracts

  function Clamp(progress: real): real {
    if progress < 0.0 then 0.0 else if progress > 1.0 then 1.0 else progress
  }

  function ApplyEasing(progress: real, easing: Easing): real {
    var bounded := Clamp(progress);
    match easing
    case EaseIn => bounded * bounded
    case EaseOut => 1.0 - (1.0 - bounded) * (1.0 - bounded)
    case EaseInOut =>
      if bounded < 0.5 then 2.0 * bounded * bounded
      else 1.0 - (-2.0 * bounded + 2.0) * (-2.0 * bounded + 2.0) / 2.0
    case Linear => bounded
  }

  function GetTrackProgress(track: VisualTrack, timeMs: real): real {
    if track.durationMs <= 0.0 then if timeMs >= track.startTimeMs then 1.0 else 0.0
    else Clamp((timeMs - track.startTimeMs) / track.durationMs)
  }

  /** The fraction of its path a track has covered at a time. */
  function Eased(track: VisualTrack, timeMs: real): real {
    ApplyEasing(GetTrackProgress(track, timeMs), track.easing)
  }

  function InterpolateNumber(from: real, to: real, progress: real, easing: Easing): real {
    from + (to - from) * ApplyEasing(progress, easing)
  }

  /** `record?.[key] ?? default` */
  function Coordinate(record: map<string, real>, key: string, default: real): real {
    if key in record then record[key] else default
  }

  function InterpolateKey(track: VisualTrack, key: string, timeMs: real): real {
    var from := Coordinate(track.from, key, 0.0);
    InterpolateNumber(from, Coordinate(track.to, key, from), GetTrackProgress(track, timeMs), track.easing)
  }

  function SampleMoveToTrack(track: VisualTrack, timeMs: real): Point {
    Point(InterpolateKey(track, "x", timeMs), InterpolateKey(track, "y", timeMs))
  }

  function SampleOrbitTrack(host: Host, track: VisualTrack, timeMs: real, target: Option<SceneObject>): Point {
    var centre := if target.Some? then Point(target.value.x, target.value.y) else Point(50.0, 50.0);
    OnCircle(host, Point(centre.x + track.offset.x, centre.y + track.offset.y), track.radius.GetOr(8.0),
             Angle(host, GetTrackProgress(track, timeMs), track.speed.GetOr(1.0)))
  }

  function Angle(host: Host, progress: real, rotations: real): real { progress * rotations * host.pi * 2.0 }

  function OnCircle(host: Host, centre: Point, radius: real, angle: real): Point {
    Point(centre.x + host.cosine(angle) * radius, centre.y + host.sine(angle) * radius)
  }

  function PropertyKey(property: NumericProperty): string {
    match property
    case Opacity => "opacity"
    case Rotation => "rotation"
    case X => "x"
    case Y => "y"
    case ZIndex => "zIndex"
  }

  function ApplyAttachment(base: SceneObject, target: SceneObject, offset: Point): SceneObject {
    base.(x := target.x + offset.x, y := target.y + offset.y)
  }

  predicate IsTrackVisibleAtTime(track: VisualTrack, timeMs: real) {
    && track.startTimeMs <= timeMs
    && (track.persistent || timeMs <= track.startTimeMs + track.durationMs)
  }

  // -------------------------------------------------------------------- paths

  function SegmentLength(host: Host, path: seq<Point>, i: nat): real
    requires i + 1 < |path|
  {
    host.hypot(path[i + 1].x - path[i].x, path[i + 1].y - path[i].y)
  }

  /** The length of the first `k` segments. */
  function LengthUpTo(host: Host, path: seq<Point>, k: nat): real
    requires k < |path|
  {
    if k == 0 then 0.0 else LengthUpTo(host, path, k - 1) + SegmentLength(host, path, k - 1)
  }

  function PathLength(host: Host, path: seq<Point>): real
    requires path != []
  {
    LengthUpTo(host, path, |path| - 1)
  }

  function Along(a: Point, b: Point, progress: real): Point {
    Point(InterpolateNumber(a.x, b.x, progress, Linear), InterpolateNumber(a.y, b.y, progress, Linear))
  }

  /** The point reached from vertex `i` after the arc length `remaining`. */
  function WalkFrom(host: Host, path: seq<Point>, i: nat, remaining: real): Point
    requires i < |path|
    decreases |path| - i
  {
    if i + 1 == |path| then path[i]
    else
      var length := SegmentLength(host, path, i);
      if remaining <= length then Along(path[i], path[i + 1], LocalProgress(remaining, length))
      else WalkFrom(host, path, i + 1, remaining - length)
  }

  function LocalProgress(remaining: real, length: real): real {
    if length <= 0.0 then 1.0 else remaining / length
  }

  function SamplePathTrack(host: Host, track: VisualTrack, timeMs: real): Point {
    if track.path == [] then Point(Coordinate(track.from, "x", 0.0), Coordinate(track.from, "y", 0.0))
    else if |track.path| == 1 then track.path[0]
    else
      var total := PathLength(host, track.path);
      if total <= 0.0 then track.path[|track.path| - 1]
      else WalkFrom(host, track.path, 0, Scaled(total, Eased(track, timeMs)))
  }

  function Scaled(total: real, share: real): real { total * share }

  /** The sampler's own loop over the segments, spending `remaining` as it goes. */
  method SampleMoveAlongPathTrack(host: Host, track: VisualTrack, timeMs: real) returns (point: Point)
    ensures point == SamplePathTrack(host, track, timeMs)
  {
    var path := track.path;
    if |path| == 0 {
      return Point(Coordinate(track.from, "x", 0.0), Coordinate(track.from, "y", 0.0));
    }
    if |path| == 1 {
      return path[0];
    }
    var totalLength := 0.0;
    for k := 0 to |path| - 1
      invariant totalLength == LengthUpTo(host, path, k)
    {
      totalLength := totalLength + SegmentLength(host, path, k);
    }
    if totalLength <= 0.0 {
      return path[|path| - 1];
    }
    var remaining := Scaled(totalLength, Eased(track, timeMs));
    ghost var start := remaining;
    for index := 0 to |path| - 1
      invariant WalkFrom(host, path, index, remaining) == WalkFrom(host, path, 0, start)
    {
      var length := SegmentLength(host, path, index);
      if remaining <= length {
        return Along(path[index], path[index + 1], LocalProgress(remaining, length));
      }
      remaining := remaining - length;
    }
    return path[|path| - 1];
  }

  // ------------------------------------------------------------------- easing

  function Square(a: real): real { a * a }

  lemma SquareBounds(a: real)
    requires 0.0 <= a <= 1.0
    ensures 0.0 <= Square(a) <= a
    ensures a <= 0.5 ==> Square(a) <= 0.25
    ensures a == 1.0 ==> Square(a) == 1.0
  {
    assert a * (1.0 - a) == a - a * a;
    ProductNotNegative(a, 1.0 - a);
    ProductNotNegative(a, a);
    if a <= 0.5 {
      Squares(a, 0.5);
    }
  }

  lemma ProductNotNegative(a: real, b: real)
    requires a >= 0.0 && b >= 0.0
    ensures a * b >= 0.0
  {
  }

  lemma Squares(a: real, b: real)
    requires 0.0 <= a <= b
    ensures Square(a) <= Square(b)
  {
    ProductNotNegative(b - a, b + a);
    assert b * b - a * a == (b - a) * (b + a);
  }

  lemma EasingInSquares(progress: real, easing: Easing)
    ensures var b := Clamp(progress);
            ApplyEasing(progress, easing) ==
            match easing
            case Linear => b
            case EaseIn => Square(b)
            case EaseOut => 1.0 - Square(1.0 - b)
            case EaseInOut => if b < 0.5 then 2.0 * Square(b) else 1.0 - 2.0 * Square(1.0 - b)
  {
    var b := Clamp(progress);
    assert 2.0 * b * b == 2.0 * (b * b);
    assert (-2.0 * b + 2.0) * (-2.0 * b + 2.0) == 4.0 * ((1.0 - b) * (1.0 - b));
  }

  lemma EasingRange(progress: real, easing: Easing)
    ensures 0.0 <= ApplyEasing(progress, easing) <= 1.0
    ensures progress <= 0.0 ==> ApplyEasing(progress, easing) == 0.0
    ensures progress >= 1.0 ==> ApplyEasing(progress, easing) == 1.0
  {
    hide ApplyEasing, Square;
    var b := Clamp(progress);
    EasingInSquares(progress, easing);
    SquareBounds(b);
    SquareBounds(1.0 - b);
  }

  /** All four easings are non-decreasing. */
  lemma EasingMonotone(p: real, q: real, easing: Easing)
    requires p <= q
    ensures ApplyEasing(p, easing) <= ApplyEasing(q, easing)
  {
    hide ApplyEasing, Square;
    var a, b := Clamp(p), Clamp(q);
    EasingInSquares(p, easing);
    EasingInSquares(q, easing);
    Squares(a, b);
    Squares(1.0 - b, 1.0 - a);
    SquareBounds(a);
    SquareBounds(1.0 - b);
  }

  lemma ProgressMonotone(track: VisualTrack, t: real, u: real)
    requires t <= u
    ensures 0.0 <= GetTrackProgress(track, t) <= GetTrackProgress(track, u) <= 1.0
  {
    if track.durationMs > 0.0 {
      var a, b := (t - track.startTimeMs) / track.durationMs, (u - track.startTimeMs) / track.durationMs;
      assert b - a == (u - t) / track.durationMs >= 0.0;
    }
  }

  lemma RatioBounds(part: real, whole: real)
    requires whole > 0.0
    ensures part <= 0.0 ==> part / whole <= 0.0
    ensures part >= whole ==> part / whole >= 1.0
  {
    var ratio := part / whole;
    assert ratio * whole == part;
    if ratio < 1.0 { assert (1.0 - ratio) * whole > 0.0; }
  }

  lemma RatioInUnit(part: real, whole: real)
    requires 0.0 <= part <= whole && whole > 0.0
    ensures 0.0 <= part / whole <= 1.0 && part / whole * whole == part
  {
    var ratio := part / whole;
    assert ratio * whole == part;
    assert (ratio - 1.0) * whole == part - whole;
    ProductSign(ratio, whole);
    ProductSign(ratio - 1.0, whole);
  }

  lemma ProductSign(a: real, b: real)
    requires b > 0.0
    ensures a < 0.0 ==> a * b < 0.0
    ensures a > 0.0 ==> a * b > 0.0
  {
  }

  /** A track covers nothing until it starts and everything once its duration is over. */
  lemma EasedEnds(track: VisualTrack, t: real)
    ensures 0.0 <= Eased(track, t) <= 1.0
    ensures t < track.startTimeMs ==> Eased(track, t) == 0.0
    ensures t == track.startTimeMs && track.durationMs > 0.0 ==> Eased(track, t) == 0.0
    ensures t >= track.startTimeMs && t >= track.startTimeMs + track.durationMs ==> Eased(track, t) == 1.0
  {
    EasingRange(GetTrackProgress(track, t), track.easing);
    if track.durationMs > 0.0 {
      RatioBounds(t - track.startTimeMs, track.durationMs);
    }
  }

  // ------------------------------------------------------ the arc length of a point

  function Between(a: Point, b: Point, local: real): Point {
    Point(a.x + (b.x - a.x) * local, a.y + (b.y - a.y) * local)
  }

  /** `p` divides segment `i` in the ratio `local` and lies `arc` along the path. */
  ghost predicate OnSegment(host: Host, path: seq<Point>, arc: real, p: Point, i: nat, local: real) {
    && i + 1 < |path|
    && 0.0 <= local <= 1.0
    && p == Between(path[i], path[i + 1], local)
    && LengthUpTo(host, path, i) + local * SegmentLength(host, path, i) == arc
  }

  ghost predicate AtArc(host: Host, path: seq<Point>, arc: real, p: Point) {
    exists i: nat, local: real :: OnSegment(host, path, arc, p, i, local)
  }

  lemma ReachesHere(host: Host, path: seq<Point>, i: nat, remaining: real)
    requires MeasuresLength(host)
    requires i + 1 < |path| && 0.0 <= remaining <= SegmentLength(host, path, i)
    ensures AtArc(host, path, LengthUpTo(host, path, i) + remaining, WalkFrom(host, path, i, remaining))
  {
    hide LengthUpTo;
    var length := SegmentLength(host, path, i);
    var local := LocalProgress(remaining, length);
    if length > 0.0 {
      RatioInUnit(remaining, length);
    }
    AlongIsBetween(path[i], path[i + 1], local);
    hide Along, Between;
    assert OnSegment(host, path, LengthUpTo(host, path, i) + remaining, WalkFrom(host, path, i, remaining), i, local);
  }

  lemma AlongIsBetween(p: Point, q: Point, local: real)
    requires 0.0 <= local <= 1.0
    ensures Along(p, q, local) == Between(p, q, local)
  {
    hide ApplyEasing;
    LinearEasesNothing(local);
  }

  lemma LinearEasesNothing(progress: real)
    requires 0.0 <= progress <= 1.0
    ensures ApplyEasing(progress, Linear) == progress
  {
  }

  /** The walk stops on a segment, never at the fall-through, while length remains. */
  lemma {:induction false} WalkReaches(host: Host, path: seq<Point>, i: nat, remaining: real)
    requires MeasuresLength(host)
    requires i + 1 < |path|
    requires 0.0 <= remaining <= PathLength(host, path) - LengthUpTo(host, path, i)
    ensures AtArc(host, path, LengthUpTo(host, path, i) + remaining, WalkFrom(host, path, i, remaining))
    decreases |path| - i
  {
    hide AtArc, MeasuresLength, Between;
    var length := SegmentLength(host, path, i);
    if remaining <= length {
      ReachesHere(host, path, i, remaining);
    } else {
      assert LengthUpTo(host, path, i + 1) == LengthUpTo(host, path, i) + length;
      if i + 2 == |path| {
        assert false;
      } else {
        WalkReaches(host, path, i + 1, remaining - length);
      }
    }
  }

  lemma {:induction false} LengthMonotone(host: Host, path: seq<Point>, i: nat, j: nat)
    requires MeasuresLength(host)
    requires i <= j < |path|
    ensures LengthUpTo(host, path, i) <= LengthUpTo(host, path, j)
    ensures LengthUpTo(host, path, i) == LengthUpTo(host, path, j) ==> path[i] == path[j]
    decreases j - i
  {
    if i < j {
      LengthMonotone(host, path, i, j - 1);
      assert SegmentLength(host, path, j - 1) >= 0.0;
    }
  }

  /** An arc length names one point: two points of the path at the same arc are equal. */
  lemma ArcDeterminesPoint(host: Host, path: seq<Point>, arc: real, p: Point, q: Point)
    requires MeasuresLength(host)
    requires AtArc(host, path, arc, p) && AtArc(host, path, arc, q)
    ensures p == q
  {
    var i: nat, a: real :| OnSegment(host, path, arc, p, i, a);
    var j: nat, b: real :| OnSegment(host, path, arc, q, j, b);
    if i < j {
      SamePointLater(host, path, arc, p, i, a, q, j, b);
    } else if j < i {
      SamePointLater(host, path, arc, q, j, b, p, i, a);
    } else {
      SamePointHere(host, path, arc, p, a, q, b, i);
    }
  }

  lemma SamePointHere(host: Host, path: seq<Point>, arc: real, p: Point, a: real, q: Point, b: real, i: nat)
    requires MeasuresLength(host)
    requires OnSegment(host, path, arc, p, i, a) && OnSegment(host, path, arc, q, i, b)
    ensures p == q
  {
    var length := SegmentLength(host, path, i);
    assert a * length == b * length;
    assert a == b || length == 0.0 by {
      assert (a - b) * length == 0.0;
    }
    if length == 0.0 {
      assert Between(path[i], path[i + 1], a) == path[i] == Between(path[i], path[i + 1], b) by {
        assert 0.0 * a == 0.0 && 0.0 * b == 0.0;
      }
    }
  }

  lemma MulMonotone(total: real, a: real, b: real)
    requires total >= 0.0 && a <= b
    ensures Scaled(total, a) <= Scaled(total, b)
  {
    assert total * (b - a) == total * b - total * a;
  }

  lemma SamePointLater(host: Host, path: seq<Point>, arc: real, p: Point, i: nat, a: real, q: Point, j: nat, b: real)
    requires MeasuresLength(host)
    requires i < j && OnSegment(host, path, arc, p, i, a) && OnSegment(host, path, arc, q, j, b)
    ensures p == q == path[j]
  {
    var s, r := SegmentLength(host, path, i), SegmentLength(host, path, j);
    LengthMonotone(host, path, i + 1, j);
    assert LengthUpTo(host, path, i + 1) == LengthUpTo(host, path, i) + s;
    NothingBetween(LengthUpTo(host, path, i), s, a, LengthUpTo(host, path, j), r, b);
    BetweenEnds(path[i], path[i + 1], a);
    BetweenEnds(path[j], path[j + 1], b);
    assert s == 0.0 ==> path[i] == path[i + 1];
    assert r == 0.0 ==> path[j] == path[j + 1];
    hide Between, LengthUpTo;
  }

  /** Nothing is left of the earlier segment, nothing is used of the later one, and nothing
      lies between. */
  lemma NothingBetween(start: real, s: real, a: real, later: real, r: real, b: real)
    requires s >= 0.0 && r >= 0.0 && 0.0 <= a <= 1.0 && 0.0 <= b <= 1.0
    requires start + s <= later && start + a * s == later + b * r
    ensures start + s == later && (a == 1.0 || s == 0.0) && (b == 0.0 || r == 0.0)
  {
    assert (1.0 - a) * s >= 0.0 && b * r >= 0.0;
    assert (1.0 - a) * s == s - a * s;
    assert (1.0 - a) * s == 0.0 && b * r == 0.0;
  }

  lemma BetweenEnds(p: Point, q: Point, local: real)
    ensures local == 0.0 || p == q ==> Between(p, q, local) == p
    ensures local == 1.0 ==> Between(p, q, local) == q
  {
    if p == q {
      assert 0.0 * local == 0.0;
    }
  }

  /** The arc length a track has covered: the eased share of its whole path. */
  function ArcCovered(host: Host, track: VisualTrack, timeMs: real): real
    requires track.path != []
  {
    Scaled(PathLength(host, track.path), Eased(track, timeMs))
  }

  /** A track on a path of positive length is, at every time, at the one point whose arc
      length is the eased share of the whole. */
  lemma PathSampleAtArc(host: Host, track: VisualTrack, timeMs: real, p: Point)
    requires MeasuresLength(host) && |track.path| >= 2 && PathLength(host, track.path) > 0.0
    ensures p == SamplePathTrack(host, track, timeMs) <==>
              AtArc(host, track.path, ArcCovered(host, track, timeMs), p)
  {
    var total, eased := PathLength(host, track.path), Eased(track, timeMs);
    EasedEnds(track, timeMs);
    MulMonotone(total, 0.0, eased);
    MulMonotone(total, eased, 1.0);
    WalkReaches(host, track.path, 0, Scaled(total, eased));
    if AtArc(host, track.path, ArcCovered(host, track, timeMs), p) {
      ArcDeterminesPoint(host, track.path, Scaled(total, eased), p, SamplePathTrack(host, track, timeMs));
    }
  }

  /** The arc covered never decreases with time, for each of the four easings. */
  lemma PathArcMonotone(host: Host, track: VisualTrack, t: real, u: real)
    requires MeasuresLength(host) && |track.path| >= 2 && t <= u
    ensures ArcCovered(host, track, t) <= ArcCovered(host, track, u)
  {
    ProgressMonotone(track, t, u);
    EasingMonotone(GetTrackProgress(track, t), GetTrackProgress(track, u), track.easing);
    LengthMonotone(host, track.path, 0, |track.path| - 1);
    MulMonotone(PathLength(host, track.path), Eased(track, t), Eased(track, u));
  }

  /** A timed track starts at the first point of its path and ends at the last, also when
      the path has segments of no length, or no length at all. */
  lemma PathEnds(host: Host, track: VisualTrack, timeMs: real)
    requires MeasuresLength(host) && track.path != []
    ensures timeMs <= track.startTimeMs && track.durationMs > 0.0 ==>
              SamplePathTrack(host, track, timeMs) == track.path[0]
    ensures timeMs >= track.startTimeMs && timeMs >= track.startTimeMs + track.durationMs ==>
              SamplePathTrack(host, track, timeMs) == track.path[|track.path| - 1]
  {
    var path := track.path;
    if |path| >= 2 {
      var total, n := PathLength(host, path), |path| - 1;
      EasedEnds(track, timeMs);
      LengthMonotone(host, path, 0, n);
      if total > 0.0 {
        assert OnSegment(host, path, 0.0, path[0], 0, 0.0);
        assert OnSegment(host, path, total, path[n], n - 1, 1.0);
        PathSampleAtArc(host, track, timeMs, path[0]);
        PathSampleAtArc(host, track, timeMs, path[n]);
      }
    }
  }
}
