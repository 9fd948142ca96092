/** What the drawn scene shows, whatever objects, tracks and time it is drawn from. */
module SamplingProperties {
  import opened Wrappers
  import opened Contracts
  import opened StableSort
  import opened TrackRuntime
  import opened Sampling

  function Position(item: SceneObject): Point { Point(item.x, item.y) }

  function Plus(p: Point, offset: Point): Point { Point(p.x + offset.x, p.y + offset.y) }

  lemma StartOrderIsPreorder()
    ensures TotalPreorder(StartsNoLater)
  {
  }

  // ---------------------------------------------------------- identity is kept

  /** `b` is `a` drawn elsewhere: only the five animated numbers may differ. */
  predicate SameItem(a: SceneObject, b: SceneObject) {
    b == a.(x := b.x, y := b.y, opacity := b.opacity, rotation := b.rotation, zIndex := b.zIndex)
  }

  predicate SameItems(s: seq<SceneObject>, r: seq<SceneObject>) {
    |s| == |r| && forall i | 0 <= i < |s| :: SameItem(s[i], r[i])
  }

  lemma SameItemTrans(a: SceneObject, b: SceneObject, c: SceneObject)
    requires SameItem(a, b) && SameItem(b, c)
    ensures SameItem(a, c)
  {
  }

  lemma MovedKeepsItem(host: Host, drawn: seq<SceneObject>, item: SceneObject, track: VisualTrack, t: real)
    ensures SameItem(item, Moved(host, drawn, item, track, t))
  {
    hide SampleMoveToTrack, SamplePathTrack, SampleOrbitTrack, InterpolateKey, PropertyKey, FindById, WithNumber,
        WithPosition;
    if track.kind == PropertyTrack && track.property.Some? {
      NumberKeepsItem(item, track.property.value, InterpolateKey(track, PropertyKey(track.property.value), t));
    }
    PlaceKeepsItem(item);
  }

  lemma NumberKeepsItem(item: SceneObject, property: NumericProperty, value: real)
    ensures SameItem(item, WithNumber(item, property, value))
  {
  }

  lemma PlaceKeepsItem(item: SceneObject)
    ensures SameItem(item, item) && forall p: Point :: SameItem(item, WithPosition(item, p))
  {
  }

  lemma MoveOneKeepsItems(host: Host, objects: seq<SceneObject>, drawn: seq<SceneObject>, track: VisualTrack, t: real)
    requires SameItems(objects, drawn)
    ensures SameItems(objects, MoveOne(host, drawn, track, t))
  {
    forall i | 0 <= i < |objects| ensures SameItem(objects[i], MoveOne(host, drawn, track, t)[i]) {
      MovedKeepsItem(host, drawn, drawn[i], track, t);
      assert SameItem(objects[i], drawn[i]);
      SameItemTrans(objects[i], drawn[i], Moved(host, drawn, drawn[i], track, t));
    }
  }

  lemma {:induction false} MoveAllKeepsItems(host: Host, objects: seq<SceneObject>, tracks: seq<VisualTrack>, t: real)
    ensures SameItems(objects, MoveAll(host, objects, tracks, t))
  {
    if tracks != [] {
      var front := tracks[..|tracks| - 1];
      MoveAllKeepsItems(host, objects, front, t);
      MoveOneKeepsItems(host, objects, MoveAll(host, objects, front, t), tracks[|tracks| - 1], t);
    }
  }

  lemma {:induction false} AttachAllKeepsItems(objects: seq<SceneObject>, tracks: seq<VisualTrack>, t: real)
    ensures SameItems(objects, AttachAll(objects, tracks, t))
  {
    if tracks != [] { AttachAllKeepsItems(objects, tracks[..|tracks| - 1], t); }
  }

  /** Drawing keeps every object, its place in the list and everything but the five
      animated numbers. */
  lemma SamplingKeepsItems(host: Host, objects: seq<SceneObject>, tracks: seq<VisualTrack>, t: real)
    ensures SameItems(objects, SampleObjects(host, objects, tracks, t))
  {
    var ordered := Sort(tracks, StartsNoLater);
    MoveAllKeepsItems(host, objects, ordered, t);
    AttachAllKeepsItems(MoveAll(host, objects, ordered, t), ordered, t);
  }

  /** An object is found in the drawn scene under exactly the names it has in the stage. */
  lemma {:induction false} FindInSame(s: seq<SceneObject>, r: seq<SceneObject>, id: string)
    requires SameItems(s, r)
    ensures FindObject(s, id).Some? == FindObject(r, id).Some?
    ensures FindObject(s, id).Some? ==> SameItem(FindObject(s, id).value, FindObject(r, id).value)
  {
    if s != [] { FindInSame(s[1..], r[1..], id); }
  }

  // ---------------------------------------------- dropping tracks is invisible

  lemma {:induction false} DroppedTracksDoNothing(host: Host, objects: seq<SceneObject>, tracks: seq<VisualTrack>,
                                                  t: real)
    ensures MoveAll(host, objects, RetainedTracks(tracks, t), t) == MoveAll(host, objects, tracks, t)
    ensures AttachAll(objects, RetainedTracks(tracks, t), t) == AttachAll(objects, tracks, t)
  {
    if tracks != [] {
      var front, last := tracks[..|tracks| - 1], tracks[|tracks| - 1];
      DroppedTracksDoNothing(host, objects, front, t);
      var kept := RetainedTracks(front, t);
      assert (kept + [last])[..|kept|] == kept;
      assert !ShouldRetainTrack(last, t) ==> !MovesAt(last, t) && !AttachesAt(last, t);
    }
  }

  /** `shouldRetainTrack` drops only tracks that do not show: the picture of the retained
      tracks is the picture of all tracks. */
  lemma SamplingIgnoresDroppedTracks(host: Host, objects: seq<SceneObject>, tracks: seq<VisualTrack>, t: real)
    ensures SampleObjects(host, objects, RetainedTracks(tracks, t), t) == SampleObjects(host, objects, tracks, t)
  {
    StartOrderIsPreorder();
    var ordered := Sort(tracks, StartsNoLater);
    SortKept(tracks, track => ShouldRetainTrack(track, t), StartsNoLater);
    DroppedTracksDoNothing(host, objects, ordered, t);
    DroppedTracksDoNothing(host, MoveAll(host, objects, ordered, t), ordered, t);
  }

  // --------------------------------------------------------- where objects end up

  ghost predicate UniqueIds(objects: seq<SceneObject>) {
    forall i, j | 0 <= i < j < |objects| :: objects[i].id != objects[j].id
  }

  lemma {:induction false} FindByUniqueId(objects: seq<SceneObject>, i: nat)
    requires UniqueIds(objects) && i < |objects|
    ensures FindById(objects, objects[i].id) == Some(objects[i])
  {
    if i > 0 { FindByUniqueId(objects[1..], i - 1); }
  }

  /** Track `n` of the list attaches object `k` to an object that exists. */
  predicate Attaches(objects: seq<SceneObject>, tracks: seq<VisualTrack>, t: real, n: nat, k: nat)
    requires n < |tracks| && k < |objects|
  {
    && AttachesAt(tracks[n], t)
    && Answers(objects[k], tracks[n].objectId)
    && FindById(objects, tracks[n].targetObjectId.value).Some?
  }

  /** Track `n` is the last one that attaches object `k`. */
  predicate LastAttachment(objects: seq<SceneObject>, tracks: seq<VisualTrack>, t: real, n: nat, k: nat)
    requires n < |tracks| && k < |objects|
  {
    && Attaches(objects, tracks, t, n, k)
    && forall m: nat | n < m < |tracks| :: !Attaches(objects, tracks, t, m, k)
  }

  predicate Unattached(objects: seq<SceneObject>, tracks: seq<VisualTrack>, t: real, k: nat)
    requires k < |objects|
  {
    forall m: nat | m < |tracks| :: !Attaches(objects, tracks, t, m, k)
  }

  /** Whatever moves a parent comes before what attaches a child to it. In particular no
      object is attached to itself. */
  predicate ParentsBeforeChildren(objects: seq<SceneObject>, tracks: seq<VisualTrack>, t: real) {
    forall m: nat, n: nat, p: nat | m < |tracks| && n < |tracks| && p < |objects| ::
      (Attaches(objects, tracks, t, m, p)
       && AttachesAt(tracks[n], t)
       && tracks[n].targetObjectId == Some(objects[p].id))
      ==> m < n
  }

  lemma {:induction false} SameItemsFind(s: seq<SceneObject>, r: seq<SceneObject>, id: string)
    requires SameItems(s, r)
    ensures FindById(s, id).Some? == FindById(r, id).Some?
  {
    if s != [] { SameItemsFind(s[1..], r[1..], id); }
  }

  /** An attachment that does not act on object `k` leaves it where it is. */
  lemma {:induction false} AttachAllUntouched(objects: seq<SceneObject>, tracks: seq<VisualTrack>, t: real, n: nat,
                                              k: nat)
    requires n <= |tracks| && k < |objects|
    requires forall m: nat | n <= m < |tracks| :: !Attaches(objects, tracks, t, m, k)
    ensures AttachAll(objects, tracks, t)[k] == AttachAll(objects, tracks[..n], t)[k]
    decreases |tracks| - n
  {
    if n == |tracks| {
      assert tracks[..n] == tracks;
    } else {
      var front := tracks[..|tracks| - 1];
      assert front[..n] == tracks[..n];
      assert forall m: nat | n <= m < |front| ::
          Attaches(objects, front, t, m, k) == Attaches(objects, tracks, t, m, k);
      AttachAllUntouched(objects, front, t, n, k);
      var before := AttachAll(objects, front, t);
      AttachAllKeepsItems(objects, front, t);
      assert SameItem(objects[k], before[k]);
      assert !Attaches(objects, tracks, t, |tracks| - 1, k);
      if AttachesAt(tracks[|tracks| - 1], t) {
        SameItemsFind(objects, before, tracks[|tracks| - 1].targetObjectId.value);
      }
    }
  }

  lemma AttachesShows(objects: seq<SceneObject>, tracks: seq<VisualTrack>, t: real, n: nat, k: nat)
    requires n < |tracks| && k < |objects| && Attaches(objects, tracks, t, n, k)
    ensures AttachesAt(tracks[n], t) && Answers(objects[k], tracks[n].objectId)
  {
  }

  /** The attachments of the object come before track `n`. */
  predicate SettledBefore(objects: seq<SceneObject>, tracks: seq<VisualTrack>, t: real, n: nat, k: nat)
    requires k < |objects|
  {
    forall m: nat | n <= m < |tracks| :: !Attaches(objects, tracks, t, m, k)
  }

  /** The second pass puts an attached object at the final place of its parent, if the parent
      is settled before. */
  lemma AttachedFollowsParent(objects: seq<SceneObject>, tracks: seq<VisualTrack>, t: real, n: nat, k: nat, p: nat)
    requires UniqueIds(objects)
    requires n < |tracks| && k < |objects| && p < |objects| && SettledBefore(objects, tracks, t, n, p)
    requires LastAttachment(objects, tracks, t, n, k) && tracks[n].targetObjectId == Some(objects[p].id)
    ensures Position(AttachAll(objects, tracks, t)[k])
            == Plus(Position(AttachAll(objects, tracks, t)[p]), tracks[n].offset)
  {
    hide AttachOne, Attaches, FindById;
    AttachAllUntouched(objects, tracks, t, n + 1, k);
    AttachAllUntouched(objects, tracks, t, n, p);
    AttachesShows(objects, tracks, t, n, k);
    var before := AttachAll(objects, tracks[..n], t);
    AttachAllKeepsItems(objects, tracks[..n], t);
    assert tracks[..n + 1][..n] == tracks[..n];
    AttachOnePlaces(objects, before, tracks[n], t, k, p);
  }

  lemma AttachOnePlaces(objects: seq<SceneObject>, drawn: seq<SceneObject>, track: VisualTrack, t: real, k: nat, p: nat)
    requires UniqueIds(objects) && SameItems(objects, drawn)
    requires k < |objects| && p < |objects|
    requires AttachesAt(track, t) && track.targetObjectId == Some(objects[p].id) && Answers(objects[k], track.objectId)
    ensures Position(AttachOne(drawn, track, t)[k]) == Plus(Position(drawn[p]), track.offset)
  {
    assert SameItem(objects[p], drawn[p]) && SameItem(objects[k], drawn[k]);
    SameItemsUnique(objects, drawn);
    FindByUniqueId(drawn, p);
  }

  lemma SameItemsUnique(objects: seq<SceneObject>, drawn: seq<SceneObject>)
    requires SameItems(objects, drawn)
    ensures UniqueIds(objects) ==> UniqueIds(drawn)
  {
    assert forall i | 0 <= i < |objects| :: SameItem(objects[i], drawn[i]) && drawn[i].id == objects[i].id;
  }

  /** Track `n` of the list moves object `k`. */
  predicate Moves(objects: seq<SceneObject>, tracks: seq<VisualTrack>, t: real, n: nat, k: nat)
    requires n < |tracks| && k < |objects|
  {
    MovesAt(tracks[n], t) && Answers(objects[k], tracks[n].objectId)
  }

  lemma {:induction false} MoveAllUntouched(host: Host, objects: seq<SceneObject>, tracks: seq<VisualTrack>, t: real,
                                            n: nat, k: nat)
    requires n <= |tracks| && k < |objects|
    requires forall m: nat | n <= m < |tracks| :: !Moves(objects, tracks, t, m, k)
    ensures MoveAll(host, objects, tracks, t)[k] == MoveAll(host, objects, tracks[..n], t)[k]
    decreases |tracks| - n
  {
    if n == |tracks| {
      assert tracks[..n] == tracks;
    } else {
      var front := tracks[..|tracks| - 1];
      assert front[..n] == tracks[..n];
      assert forall m: nat | n <= m < |front| :: Moves(objects, front, t, m, k) == Moves(objects, tracks, t, m, k);
      MoveAllUntouched(host, objects, front, t, n, k);
      MoveAllKeepsItems(host, objects, front, t);
      assert SameItem(objects[k], MoveAll(host, objects, front, t)[k]);
      assert !Moves(objects, tracks, t, |tracks| - 1, k);
    }
  }

  /** Where one motion track puts its object, in the scene the tracks before it drew. */
  function MotionSample(host: Host, drawn: seq<SceneObject>, track: VisualTrack, t: real): Point
    requires track.kind in {MoveToTrack, PathTrack, OrbitTrack}
  {
    if track.kind == MoveToTrack then SampleMoveToTrack(track, t)
    else if track.kind == PathTrack then SamplePathTrack(host, track, t)
    else SampleOrbitTrack(host, track, t,
           if track.targetObjectId.Some? then FindById(drawn, track.targetObjectId.value) else None)
  }

  /** The first pass leaves an object at the sample of the last motion track that acts on
      it, and at its base position when none does. */
  lemma LastMotionWins(host: Host, objects: seq<SceneObject>, tracks: seq<VisualTrack>, t: real, k: nat)
    requires k < |objects|
    ensures (forall n: nat | n < |tracks| :: !Moves(objects, tracks, t, n, k)) ==>
              MoveAll(host, objects, tracks, t)[k] == objects[k]
    ensures forall n: nat | n < |tracks| && Moves(objects, tracks, t, n, k) && tracks[n].kind != PropertyTrack
                            && (forall m: nat | n < m < |tracks| :: !Moves(objects, tracks, t, m, k)) ::
              Position(MoveAll(host, objects, tracks, t)[k])
              == MotionSample(host, MoveAll(host, objects, tracks[..n], t), tracks[n], t)
  {
    hide SampleMoveToTrack, SamplePathTrack, SampleOrbitTrack, FindById, WithNumber;
    if forall n: nat | n < |tracks| :: !Moves(objects, tracks, t, n, k) {
      MoveAllUntouched(host, objects, tracks, t, 0, k);
    }
    forall n: nat | n < |tracks| && Moves(objects, tracks, t, n, k) && tracks[n].kind != PropertyTrack
                    && (forall m: nat | n < m < |tracks| :: !Moves(objects, tracks, t, m, k))
      ensures Position(MoveAll(host, objects, tracks, t)[k])
              == MotionSample(host, MoveAll(host, objects, tracks[..n], t), tracks[n], t)
    {
      MoveAllUntouched(host, objects, tracks, t, n + 1, k);
      LastTrackMoves(host, objects, tracks[..n], tracks[n], t, k);
      assert tracks[..n + 1] == tracks[..n] + [tracks[n]];
    }
  }

  lemma LastTrackMoves(host: Host, objects: seq<SceneObject>, tracks: seq<VisualTrack>, last: VisualTrack, t: real,
                       k: nat)
    requires k < |objects| && MovesAt(last, t) && last.kind != PropertyTrack && Answers(objects[k], last.objectId)
    ensures Position(MoveAll(host, objects, tracks + [last], t)[k])
            == MotionSample(host, MoveAll(host, objects, tracks, t), last, t)
  {
    hide SampleMoveToTrack, SamplePathTrack, SampleOrbitTrack, FindById, WithNumber;
    assert (tracks + [last])[..|tracks|] == tracks;
    MoveAllKeepsItems(host, objects, tracks, t);
    assert SameItem(objects[k], MoveAll(host, objects, tracks, t)[k]);
  }

  /** In the picture an attached object sits at its parent's drawn place plus the offset, if
      the parent is settled before. */
  lemma AttachedSitsAtParent(host: Host, objects: seq<SceneObject>, tracks: seq<VisualTrack>, t: real, n: nat,
                             k: nat, p: nat)
    requires UniqueIds(objects) && Sorted(tracks, StartsNoLater)
    requires n < |tracks| && k < |objects| && p < |objects| && SettledBefore(objects, tracks, t, n, p)
    requires LastAttachment(objects, tracks, t, n, k) && tracks[n].targetObjectId == Some(objects[p].id)
    ensures Position(SampleObjects(host, objects, tracks, t)[k])
         == Plus(Position(SampleObjects(host, objects, tracks, t)[p]), tracks[n].offset)
  {
    SortOfSorted(tracks, StartsNoLater);
    var moved := MoveAll(host, objects, tracks, t);
    MoveAllKeepsItems(host, objects, tracks, t);
    AttachmentsOfMoved(objects, moved, tracks, t);
    assert SameItem(objects[p], moved[p]);
    AttachedFollowsParent(moved, tracks, t, n, k, p);
  }

  /** The whole picture. An attached object sits at its parent's final position plus the
      offset; any other object sits where its last motion track puts it, or at its base. */
  lemma ScenePositions(host: Host, objects: seq<SceneObject>, tracks: seq<VisualTrack>, t: real, k: nat)
    requires UniqueIds(objects) && k < |objects|
    requires Sorted(tracks, StartsNoLater)
    requires ParentsBeforeChildren(objects, tracks, t)
    ensures forall n: nat, p: nat | n < |tracks| && p < |objects| && LastAttachment(objects, tracks, t, n, k)
                                    && tracks[n].targetObjectId == Some(objects[p].id) ::
              Position(SampleObjects(host, objects, tracks, t)[k])
              == Plus(Position(SampleObjects(host, objects, tracks, t)[p]), tracks[n].offset)
    ensures Unattached(objects, tracks, t, k) ==>
              SampleObjects(host, objects, tracks, t)[k] == MoveAll(host, objects, tracks, t)[k]
  {
    SortOfSorted(tracks, StartsNoLater);
    var moved := MoveAll(host, objects, tracks, t);
    MoveAllKeepsItems(host, objects, tracks, t);
    AttachmentsOfMoved(objects, moved, tracks, t);
    forall n: nat, p: nat | n < |tracks| && p < |objects| && LastAttachment(objects, tracks, t, n, k)
                            && tracks[n].targetObjectId == Some(objects[p].id)
      ensures Position(SampleObjects(host, objects, tracks, t)[k])
           == Plus(Position(SampleObjects(host, objects, tracks, t)[p]), tracks[n].offset)
    {
      assert SettledBefore(objects, tracks, t, n, p);
      AttachedSitsAtParent(host, objects, tracks, t, n, k, p);
    }
    if Unattached(objects, tracks, t, k) {
      AttachAllUntouched(moved, tracks, t, 0, k);
    }
  }

  /** The first pass does not change who is attached to whom. */
  lemma AttachmentsOfMoved(objects: seq<SceneObject>, moved: seq<SceneObject>, tracks: seq<VisualTrack>, t: real)
    requires SameItems(objects, moved)
    ensures UniqueIds(objects) ==> UniqueIds(moved)
    ensures forall n: nat, k: nat | n < |tracks| && k < |objects| ::
              Attaches(moved, tracks, t, n, k) == Attaches(objects, tracks, t, n, k)
    ensures ParentsBeforeChildren(objects, tracks, t) ==> ParentsBeforeChildren(moved, tracks, t)
  {
    SameItemsUnique(objects, moved);
    assert forall i | 0 <= i < |objects| :: SameItem(objects[i], moved[i]);
    forall n: nat, k: nat | n < |tracks| && k < |objects|
      ensures Attaches(moved, tracks, t, n, k) == Attaches(objects, tracks, t, n, k)
    {
      if AttachesAt(tracks[n], t) { SameItemsFind(objects, moved, tracks[n].targetObjectId.value); }
    }
  }

  // -------------------------------------------------------------- starting a move

  /** A move that starts now, lasts, and leaves from where its object is drawn. */
  predicate StartsFrom(track: VisualTrack, t: real, p: Point) {
    && track.kind == MoveToTrack
    && track.startTimeMs == t
    && track.durationMs > 0.0
    && Coordinate(track.from, "x", 0.0) == p.x
    && Coordinate(track.from, "y", 0.0) == p.y
  }

  lemma MoveStartsAtFrom(track: VisualTrack, t: real, p: Point)
    requires StartsFrom(track, t, p)
    ensures SampleMoveToTrack(track, t) == p
  {
    EasedEnds(track, t);
  }

  lemma MoveEndsAtTo(track: VisualTrack, t: real)
    requires track.kind == MoveToTrack && "x" in track.to && "y" in track.to
    requires t >= track.startTimeMs && t >= track.startTimeMs + track.durationMs
    ensures SampleMoveToTrack(track, t) == Point(track.to["x"], track.to["y"])
  {
    EasedEnds(track, t);
  }

  /** Adding a move that leaves from the drawn position of its object changes nothing in the
      picture of that moment, provided no visible attachment holds an object that answers to
      the track's id, if and only if all objects that answer to it are drawn at one place. */
  lemma StartingMoveIsInvisible(host: Host, objects: seq<SceneObject>, tracks: seq<VisualTrack>, track: VisualTrack,
                                t: real, p: Point)
    requires forall other | other in tracks :: other.startTimeMs <= t
    requires forall i | 0 <= i < |objects| && Answers(objects[i], track.objectId) ::
               Unattached(objects, Sort(tracks, StartsNoLater), t, i)
    requires StartsFrom(track, t, p)
    ensures SampleObjects(host, objects, tracks + [track], t) == SampleObjects(host, objects, tracks, t) <==>
              forall i | 0 <= i < |objects| && Answers(objects[i], track.objectId) ::
                Position(SampleObjects(host, objects, tracks, t)[i]) == p
  {
    var ordered := Sort(tracks, StartsNoLater);
    LatestSortsLast(tracks, track);
    AddedMove(host, objects, ordered, track, t);
    var moved := MoveAll(host, objects, ordered, t);
    MoveAllKeepsItems(host, objects, ordered, t);
    MoveStartsAtFrom(track, t, p);
    RestartIsInvisible(host, objects, moved, ordered, track, t, p);
  }

  lemma RestartIsInvisible(host: Host, objects: seq<SceneObject>, moved: seq<SceneObject>, ordered: seq<VisualTrack>,
                           track: VisualTrack, t: real, p: Point)
    requires SameItems(objects, moved)
    requires forall i | 0 <= i < |objects| && Answers(objects[i], track.objectId) :: Unattached(objects, ordered, t, i)
    requires MovesAt(track, t) && track.kind == MoveToTrack && SampleMoveToTrack(track, t) == p
    ensures AttachAll(MoveOne(host, moved, track, t), ordered, t) == AttachAll(moved, ordered, t) <==>
              forall i | 0 <= i < |objects| && Answers(objects[i], track.objectId) ::
                Position(AttachAll(moved, ordered, t)[i]) == p
  {
    var restarted := MoveOne(host, moved, track, t);
    forall i | 0 <= i < |objects| && Answers(objects[i], track.objectId)
      ensures AttachAll(moved, ordered, t)[i] == moved[i]
      ensures AttachAll(restarted, ordered, t)[i] == WithPosition(moved[i], p)
    {
      RestartedAt(host, objects, moved, ordered, track, t, p, i);
    }
    if forall i | 0 <= i < |objects| && Answers(objects[i], track.objectId) ::
        Position(AttachAll(moved, ordered, t)[i]) == p {
      MovedInPlace(host, objects, moved, track, t);
    }
  }

  lemma RestartedAt(host: Host, objects: seq<SceneObject>, moved: seq<SceneObject>, ordered: seq<VisualTrack>,
                    track: VisualTrack, t: real, p: Point, i: nat)
    requires SameItems(objects, moved) && i < |objects|
    requires Answers(objects[i], track.objectId) && Unattached(objects, ordered, t, i)
    requires MovesAt(track, t) && track.kind == MoveToTrack && SampleMoveToTrack(track, t) == p
    ensures AttachAll(moved, ordered, t)[i] == moved[i]
    ensures AttachAll(MoveOne(host, moved, track, t), ordered, t)[i] == WithPosition(moved[i], p)
  {
    var restarted := MoveOne(host, moved, track, t);
    MoveOneKeepsItems(host, objects, moved, track, t);
    AttachmentsOfMoved(objects, moved, ordered, t);
    AttachmentsOfMoved(objects, restarted, ordered, t);
    AttachAllUntouched(moved, ordered, t, 0, i);
    AttachAllUntouched(restarted, ordered, t, 0, i);
    assert SameItem(objects[i], moved[i]);
  }

  /** The picture with a move added last: the first pass takes one more step. */
  lemma AddedMove(host: Host, objects: seq<SceneObject>, ordered: seq<VisualTrack>, track: VisualTrack, t: real)
    requires track.kind == MoveToTrack
    ensures MoveAll(host, objects, ordered + [track], t) == MoveOne(host, MoveAll(host, objects, ordered, t), track, t)
    ensures forall drawn :: AttachAll(drawn, ordered + [track], t) == AttachAll(drawn, ordered, t)
  {
    assert (ordered + [track])[..|ordered|] == ordered;
  }

  lemma LatestSortsLast(tracks: seq<VisualTrack>, track: VisualTrack)
    requires forall other | other in tracks :: other.startTimeMs <= track.startTimeMs
    ensures Sort(tracks + [track], StartsNoLater) == Sort(tracks, StartsNoLater) + [track]
  {
    var ordered := Sort(tracks, StartsNoLater);
    assert (tracks + [track])[..|tracks|] == tracks;
    SortMultiset(tracks, StartsNoLater);
    InsertBehind(ordered, [], track, StartsNoLater);
    assert ordered + [] == ordered;
  }

  lemma MovedInPlace(host: Host, objects: seq<SceneObject>, moved: seq<SceneObject>, track: VisualTrack, t: real)
    requires SameItems(objects, moved) && track.kind == MoveToTrack
    requires forall i | 0 <= i < |objects| && Answers(objects[i], track.objectId) ::
             SampleMoveToTrack(track, t) == Position(moved[i])
    ensures MoveOne(host, moved, track, t) == moved
  {
    forall i | 0 <= i < |moved| ensures MoveOne(host, moved, track, t)[i] == moved[i] {
      assert SameItem(objects[i], moved[i]);
    }
  }

  /** Once a move is over its object stays at the destination, for as long as the move is
      the last motion that acts on it and nothing attaches it. */
  lemma FinishedMoveRests(host: Host, objects: seq<SceneObject>, tracks: seq<VisualTrack>, t: real, n: nat, k: nat)
    requires k < |objects| && n < |tracks|
    requires Sorted(tracks, StartsNoLater)
    requires tracks[n].kind == MoveToTrack && "x" in tracks[n].to && "y" in tracks[n].to
    requires t >= tracks[n].startTimeMs && t >= tracks[n].startTimeMs + tracks[n].durationMs
    requires Answers(objects[k], tracks[n].objectId)
    requires forall m: nat | n < m < |tracks| :: !Moves(objects, tracks, t, m, k)
    requires Unattached(objects, tracks, t, k)
    ensures Position(SampleObjects(host, objects, tracks, t)[k]) == Point(tracks[n].to["x"], tracks[n].to["y"])
  {
    SortOfSorted(tracks, StartsNoLater);
    var moved := MoveAll(host, objects, tracks, t);
    LastMotionWins(host, objects, tracks, t, k);
    MoveEndsAtTo(tracks[n], t);
    MoveAllKeepsItems(host, objects, tracks, t);
    AttachmentsOfMoved(objects, moved, tracks, t);
    AttachAllUntouched(moved, tracks, t, 0, k);
  }

  /** Looking up an id finds the first object that has it. */
  lemma {:induction false} FindByIdIsFirst(objects: seq<SceneObject>, id: string, k: nat)
    requires k < |objects| && objects[k].id == id && forall j | 0 <= j < k :: objects[j].id != id
    ensures FindById(objects, id) == Some(objects[k])
  {
    if k > 0 {
      FindByIdIsFirst(objects[1..], id, k - 1);
    }
  }
}
