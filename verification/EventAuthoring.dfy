/** Editing the event timeline (`eventAuthoring.ts`). */
module EventAuthoring {
  import opened Wrappers
  import opened Contracts
  import opened StableSort

  // -------------------------------------------------------------------- event ids

  function Digit(d: nat): char
    requires d < 10
  {
    "0123456789"[d]
  }

  /** A whole number as `${index}` prints it. */
  function DecimalText(n: nat): string {
    (if n < 10 then [] else DecimalText(n / 10)) + [Digit(n % 10)]
  }

  function DecimalValue(text: string): nat {
    if text == [] then 0
    else 10 * DecimalValue(text[..|text| - 1]) + DigitValue(text[|text| - 1])
  }

  function DigitValue(c: char): nat {
    if '0' <= c <= '9' then (c - '0') as nat else 0
  }

  lemma {:induction false} DecimalRoundTrip(n: nat)
    ensures DecimalValue(DecimalText(n)) == n
  {
    var text := DecimalText(n);
    var last := text[|text| - 1];
    assert last == Digit(n % 10) && DigitValue(last) == n % 10;
    assert text[..|text| - 1] == if n < 10 then [] else DecimalText(n / 10);
    hide Digit, DigitValue;
    if n >= 10 {
      DecimalRoundTrip(n / 10);
    }
  }

  function Candidate(safeBase: string, index: nat): string { safeBase + "-" + DecimalText(index) }

  lemma CandidatesDiffer(safeBase: string, i: nat, j: nat)
    ensures Candidate(safeBase, i) == Candidate(safeBase, j) ==> i == j
  {
    var prefix := safeBase + "-";
    assert Candidate(safeBase, i)[|prefix|..] == DecimalText(i);
    assert Candidate(safeBase, j)[|prefix|..] == DecimalText(j);
    DecimalRoundTrip(i);
    DecimalRoundTrip(j);
  }

  function Ids(events: seq<VisualEvent>): set<string> { set event | event in events :: event.eventId }

  /** The first index from `index` on whose candidate is not taken. */
  function FirstFree(safeBase: string, taken: set<string>, index: nat): nat
    decreases taken
  {
    if Candidate(safeBase, index) in taken then FirstFree(safeBase, taken - {Candidate(safeBase, index)}, index + 1)
    else index
  }

  /** The search tries at most one candidate more than there are taken ids, and what it
      finds is the first free one. */
  lemma {:induction false} FirstFreeIsFree(safeBase: string, taken: set<string>, index: nat)
    ensures var k := FirstFree(safeBase, taken, index);
            && index <= k <= index + |taken|
            && Candidate(safeBase, k) !in taken
            && forall i: nat | index <= i < k :: Candidate(safeBase, i) in taken
    decreases taken
  {
    hide Candidate;
    var candidate := Candidate(safeBase, index);
    if candidate in taken {
      FirstFreeIsFree(safeBase, taken - {candidate}, index + 1);
      CandidatesDiffer(safeBase, FirstFree(safeBase, taken, index), index);
    }
  }

  /** The id search. `safeBase` is the base with everything but letters and digits dashed. */
  method MakeEventId(safeBase: string, events: seq<VisualEvent>) returns (eventId: string)
    ensures eventId == FreshId(safeBase, events)
  {
    var index := |events| + 1;
    eventId := Candidate(safeBase, index);
    ghost var untried := Ids(events);
    while exists event | event in events :: event.eventId == eventId
      invariant index >= |events| + 1 && eventId == Candidate(safeBase, index)
      invariant untried <= Ids(events)
      invariant forall i: nat | i >= index && Candidate(safeBase, i) in Ids(events) :: Candidate(safeBase, i) in untried
      invariant FirstFree(safeBase, untried, index) == FirstFree(safeBase, Ids(events), |events| + 1)
      decreases untried
    {
      assert eventId in untried;
      forall i: nat | i >= index + 1
          && Candidate(safeBase, i) in Ids(events) ensures Candidate(safeBase, i) in untried - {eventId} {
        CandidatesDiffer(safeBase, i, index);
      }
      untried := untried - {eventId};
      index := index + 1;
      eventId := Candidate(safeBase, index);
    }
    assert eventId !in Ids(events);
  }

  function FreshId(safeBase: string, events: seq<VisualEvent>): string {
    Candidate(safeBase, FirstFree(safeBase, Ids(events), |events| + 1))
  }

  lemma {:induction false} FewIds(events: seq<VisualEvent>)
    ensures |Ids(events)| <= |events|
  {
    if events != [] {
      var front, last := events[..|events| - 1], events[|events| - 1];
      FewIds(front);
      assert events == front + [last];
      assert Ids(events) == Ids(front) + {last.eventId};
    }
  }

  /** A new id is taken by no event, and among the first `events.length + 1` candidates. */
  lemma FreshIdIsFree(safeBase: string, events: seq<VisualEvent>)
    ensures forall event | event in events :: event.eventId != FreshId(safeBase, events)
    ensures exists k: nat ::
            |events| + 1 <= k <= 2 * |events| + 1 && FreshId(safeBase, events) == Candidate(safeBase, k)
  {
    FirstFreeIsFree(safeBase, Ids(events), |events| + 1);
    FewIds(events);
    assert FreshId(safeBase, events) == Candidate(safeBase, FirstFree(safeBase, Ids(events), |events| + 1));
  }

  // --------------------------------------------------------------------- timeline

  /** What `localeCompare` decides: an order of ids, possibly with ties. */
  type Collation = (string, string) -> bool

  ghost predicate Collates(collation: Collation) {
    && (forall a, b :: collation(a, b) || collation(b, a))
    && (forall a, b, c :: collation(a, b) && collation(b, c) ==> collation(a, c))
  }

  function TimelineOrder(collation: Collation): (VisualEvent, VisualEvent) -> bool {
    (a: VisualEvent, b: VisualEvent) => a.ts < b.ts || (a.ts == b.ts && collation(a.eventId, b.eventId))
  }

  function SortEventsByTimestamp(collation: Collation, events: seq<VisualEvent>): seq<VisualEvent> {
    Sort(events, TimelineOrder(collation))
  }

  function LeastTs(events: seq<VisualEvent>): real
    requires events != []
  {
    var last := events[|events| - 1].ts;
    if |events| == 1 then last
    else
      var earlier := LeastTs(events[..|events| - 1]);
      if earlier <= last then earlier else last
  }

  function ScenarioStartMs(events: seq<VisualEvent>): real {
    if events == [] then 0.0 else LeastTs(events)
  }

  function EventOffsetMs(event: VisualEvent, startMs: real): real {
    event.offsetMs.GetOr(event.ts - startMs)
  }

  function Placed(event: VisualEvent, startMs: real): VisualEvent {
    if event.offsetMs.Some? then event.(ts := startMs + event.offsetMs.value) else event
  }

  function PlacedAll(events: seq<VisualEvent>, startMs: real): seq<VisualEvent> {
    seq(|events|, i requires 0 <= i < |events| => Placed(events[i], startMs))
  }

  function NormalizeEventTimeline(collation: Collation, events: seq<VisualEvent>): seq<VisualEvent> {
    SortEventsByTimestamp(collation, PlacedAll(events, ScenarioStartMs(events)))
  }

  function GreatestOffset(events: seq<VisualEvent>, startMs: real): real
    requires events != []
  {
    var last := EventOffsetMs(events[|events| - 1], startMs);
    if |events| == 1 then last
    else
      var earlier := GreatestOffset(events[..|events| - 1], startMs);
      if earlier >= last then earlier else last
  }

  function NextOffsetMs(events: seq<VisualEvent>): real {
    if events == [] then 0.0 else GreatestOffset(events, ScenarioStartMs(events)) + 1000.0
  }

  /** A new event of a template; what the template fills in is given by `kind` and `data`. */
  function CreateEventFromTemplate(safeBase: string, kind: string, data: map<string, Value>,
                                   events: seq<VisualEvent>): VisualEvent {
    var offsetMs := NextOffsetMs(events);
    VisualEvent(FreshId(safeBase, events), ScenarioStartMs(events) + offsetMs, Some(offsetMs), kind, data)
  }

  function DuplicateEvent(safeBase: string, event: VisualEvent, events: seq<VisualEvent>): VisualEvent {
    var offsetMs := EventOffsetMs(event, ScenarioStartMs(events)) + 250.0;
    event.(eventId := FreshId(safeBase, events), offsetMs := Some(offsetMs), ts := ScenarioStartMs(events) + offsetMs)
  }

  lemma {:induction false} LeastIsLeast(events: seq<VisualEvent>)
    requires events != []
    ensures forall event | event in events :: LeastTs(events) <= event.ts
    ensures exists event | event in events :: event.ts == LeastTs(events)
  {
    var front, last := events[..|events| - 1], events[|events| - 1];
    assert events == front + [last];
    if |events| > 1 { LeastIsLeast(front); }
    assert last in events;
  }

  lemma {:induction false} GreatestIsGreatest(events: seq<VisualEvent>, startMs: real)
    requires events != []
    ensures forall event | event in events :: EventOffsetMs(event, startMs) <= GreatestOffset(events, startMs)
  {
    var front, last := events[..|events| - 1], events[|events| - 1];
    if |events| > 1 { GreatestIsGreatest(front, startMs); }
    hide EventOffsetMs;
    assert events == front + [last];
  }

  /** The start is determined by being a lower bound that is attained. */
  lemma StartIs(events: seq<VisualEvent>, startMs: real)
    requires events != [] && (forall event | event in events :: startMs <= event.ts)
    requires exists event | event in events :: event.ts == startMs
    ensures ScenarioStartMs(events) == startMs
  {
    LeastIsLeast(events);
  }

  lemma OrderIsPreorder(collation: Collation)
    requires Collates(collation)
    ensures TotalPreorder(TimelineOrder(collation))
  {
    var le := TimelineOrder(collation);
    forall x, y ensures le(x, y) || le(y, x) {
      assert collation(x.eventId, y.eventId) || collation(y.eventId, x.eventId);
    }
    forall x, y, z | le(x, y) && le(y, z) ensures le(x, z) {
      assert collation(x.eventId, y.eventId) && collation(y.eventId, z.eventId) ==> collation(x.eventId, z.eventId);
    }
  }

  /** The events say the same thing twice: a time, and an offset from the start. */
  predicate Aligned(events: seq<VisualEvent>) {
    forall i | 0 <= i < |events| :: AlignedAt(events[i], ScenarioStartMs(events))
  }

  predicate AlignedAt(event: VisualEvent, startMs: real) {
    event.offsetMs.Some? ==> event.ts == startMs + event.offsetMs.value
  }

  lemma SortKeepsTimeline(collation: Collation, events: seq<VisualEvent>)
    ensures var sorted := SortEventsByTimestamp(collation, events);
            && multiset(sorted) == multiset(events)
            && (forall event :: event in sorted <==> event in events)
            && ScenarioStartMs(sorted) == ScenarioStartMs(events)
            && (Aligned(events) ==> Aligned(sorted))
  {
    var sorted := SortEventsByTimestamp(collation, events);
    SortMultiset(events, TimelineOrder(collation));
    if events != [] {
      LeastIsLeast(events);
      StartIs(sorted, ScenarioStartMs(events));
    }
    if Aligned(events) {
      forall i | 0 <= i < |sorted| ensures AlignedAt(sorted[i], ScenarioStartMs(events)) {
        assert sorted[i] in events;
      }
    }
  }

  /** No drift: normalising an aligned timeline only sorts it, keeps its start and all its
      events, and normalising again changes nothing. */
  lemma NormalizeAligned(collation: Collation, events: seq<VisualEvent>)
    requires Collates(collation) && Aligned(events)
    ensures var normal := NormalizeEventTimeline(collation, events);
            && normal == SortEventsByTimestamp(collation, events)
            && multiset(normal) == multiset(events)
            && Aligned(normal) && ScenarioStartMs(normal) == ScenarioStartMs(events)
            && NormalizeEventTimeline(collation, normal) == normal
  {
    assert PlacedAll(events, ScenarioStartMs(events)) == events;
    SortKeepsTimeline(collation, events);
    var normal := NormalizeEventTimeline(collation, events);
    assert PlacedAll(normal, ScenarioStartMs(normal)) == normal;
    OrderIsPreorder(collation);
    SortSorted(events, TimelineOrder(collation));
    SortOfSorted(normal, TimelineOrder(collation));
  }

  // ----------------------------------------------- when normalising is idempotent

  /** Normalising finds the same start again: no offset lies before it, and some event is
      put exactly on it. Without offsets nothing is moved at all. */
  predicate StartHolds(events: seq<VisualEvent>) {
    || (forall i | 0 <= i < |events| :: events[i].offsetMs.None?)
    || ((forall i | 0 <= i < |events| && events[i].offsetMs.Some? :: events[i].offsetMs.value >= 0.0)
        && exists i | 0 <= i < |events| :: EventOffsetMs(events[i], ScenarioStartMs(events)) == 0.0)
  }

  /** Normalising is idempotent exactly on the timelines whose start holds. */
  lemma NormalizeIdempotentIff(collation: Collation, events: seq<VisualEvent>)
    requires Collates(collation)
    ensures var normal := NormalizeEventTimeline(collation, events);
            NormalizeEventTimeline(collation, normal) == normal <==> StartHolds(events)
  {
    var start := ScenarioStartMs(events);
    var placed := PlacedAll(events, start);
    var normal := NormalizeEventTimeline(collation, events);
    SortKeepsTimeline(collation, placed);
    if StartHolds(events) {
      StartHeld(events);
      forall i | 0 <= i < |normal| ensures Placed(normal[i], ScenarioStartMs(normal)) == normal[i] {
        assert normal[i] in placed;
      }
      assert PlacedAll(normal, ScenarioStartMs(normal)) == normal;
      OrderIsPreorder(collation);
      SortSorted(placed, TimelineOrder(collation));
      SortOfSorted(normal, TimelineOrder(collation));
    }
    if NormalizeEventTimeline(collation, normal) == normal && exists i ::
        0 <= i < |events| && events[i].offsetMs.Some? {
      IdempotentKeepsStart(collation, events);
      KeptStartHolds(events);
    }
  }

  /** An event whose offset lies behind its time moves on with every normalisation. */
  lemma NormalizingDrifts(collation: Collation, kind: string)
    ensures var late := VisualEvent("e", 0.0, Some(5.0), kind, map[]);
            var once := NormalizeEventTimeline(collation, [late]);
            once == [late.(ts := 5.0)] && NormalizeEventTimeline(collation, once) == [late.(ts := 10.0)]
  {
    var late := VisualEvent("e", 0.0, Some(5.0), kind, map[]);
    NormalizeOne(collation, late);
    NormalizeOne(collation, late.(ts := 5.0));
  }

  lemma NormalizeOne(collation: Collation, event: VisualEvent)
    ensures NormalizeEventTimeline(collation, [event]) == [Placed(event, event.ts)]
  {
    assert PlacedAll([event], event.ts) == [Placed(event, event.ts)];
    assert [Placed(event, event.ts)][..0] == [];
  }

  /** If normalising twice gives the same events, both times found the same start. */
  lemma IdempotentKeepsStart(collation: Collation, events: seq<VisualEvent>)
    requires var normal := NormalizeEventTimeline(collation, events);
             NormalizeEventTimeline(collation, normal) == normal
    requires exists i | 0 <= i < |events| :: events[i].offsetMs.Some?
    ensures ScenarioStartMs(PlacedAll(events, ScenarioStartMs(events))) == ScenarioStartMs(events)
  {
    var placed := PlacedAll(events, ScenarioStartMs(events));
    var normal := NormalizeEventTimeline(collation, events);
    SortKeepsTimeline(collation, placed);
    var again := PlacedAll(normal, ScenarioStartMs(normal));
    SortMultiset(again, TimelineOrder(collation));
    var i :| 0 <= i < |events| && events[i].offsetMs.Some?;
    assert placed[i] in placed && placed[i] in normal && placed[i] in again;
    var k :| 0 <= k < |again| && again[k] == placed[i];
    assert again[k] == Placed(normal[k], ScenarioStartMs(normal));
  }

  lemma KeptStartHolds(events: seq<VisualEvent>)
    requires exists i | 0 <= i < |events| :: events[i].offsetMs.Some?
    requires ScenarioStartMs(PlacedAll(events, ScenarioStartMs(events))) == ScenarioStartMs(events)
    ensures StartHolds(events)
  {
    var start := ScenarioStartMs(events);
    var placed := PlacedAll(events, start);
    LeastIsLeast(placed);
    forall i | 0 <= i < |events| && events[i].offsetMs.Some? ensures events[i].offsetMs.value >= 0.0 {
      assert placed[i] in placed;
    }
    var event :| event in placed && event.ts == start;
    var k :| 0 <= k < |placed| && placed[k] == event;
    assert EventOffsetMs(events[k], start) == 0.0;
  }

  lemma StartHeld(events: seq<VisualEvent>)
    requires StartHolds(events)
    ensures var placed := PlacedAll(events, ScenarioStartMs(events));
            (forall event | event in placed :: event.offsetMs.None?)
                || ScenarioStartMs(placed) == ScenarioStartMs(events)
  {
    var start := ScenarioStartMs(events);
    var placed := PlacedAll(events, start);
    if i :| 0 <= i < |events| && events[i].offsetMs.Some? {
      LeastIsLeast(events);
      forall event | event in placed ensures start <= event.ts {
        var k :| 0 <= k < |placed| && placed[k] == event;
        assert events[k] in events;
      }
      var k :| 0 <= k < |events| && EventOffsetMs(events[k], start) == 0.0;
      assert placed[k] in placed && placed[k].ts == start;
      StartIs(placed, start);
    }
  }

  // ------------------------------------------------------------------ editing a feed

  datatype Edit =
    | Create(safeBase: string, kind: string, data: map<string, Value>)
    | Duplicate(base: string, position: nat)
    | Renormalize

  /** One edit as the editor applies it: new events are appended and the feed is sorted. */
  function ApplyEdit(collation: Collation, events: seq<VisualEvent>, edit: Edit): seq<VisualEvent> {
    match edit
    case Create(safeBase, kind, data) =>
      SortEventsByTimestamp(collation, events + [CreateEventFromTemplate(safeBase, kind, data, events)])
    case Duplicate(base, position) =>
      if position >= |events| then events
      else SortEventsByTimestamp(collation, events + [DuplicateEvent(base, events[position], events)])
    case Renormalize => NormalizeEventTimeline(collation, events)
  }

  function ApplyEdits(collation: Collation, events: seq<VisualEvent>, edits: seq<Edit>): seq<VisualEvent>
    decreases |edits|
  {
    if edits == [] then events
    else ApplyEdits(collation, ApplyEdit(collation, events, edits[0]), edits[1..])
  }

  /** Every event is there once, and no other event has its id. */
  ghost predicate DistinctIds(events: seq<VisualEvent>) {
    IdsDistinct(multiset(events))
  }

  ghost predicate IdsDistinct(events: multiset<VisualEvent>) {
    forall event | event in events ::
        events[event] == 1 && forall other | other in events && other.eventId == event.eventId :: other == event
  }

  /** Appending an event on or after the start, placed by its offset, keeps the timeline. */
  lemma AppendKeepsTimeline(collation: Collation, events: seq<VisualEvent>, event: VisualEvent)
    requires Aligned(events) && AlignedAt(event, ScenarioStartMs(events))
    requires event.ts >= ScenarioStartMs(events) && (events == [] ==> event.ts == 0.0)
    ensures var next := SortEventsByTimestamp(collation, events + [event]);
            && Aligned(next) && ScenarioStartMs(next) == ScenarioStartMs(events)
            && multiset(next) == multiset(events) + multiset{event}
  {
    var grown := events + [event];
    if events != [] { LeastIsLeast(events); }
    assert event in grown;
    forall e | e in events ensures e in grown { }
    StartIs(grown, ScenarioStartMs(events));
    SortKeepsTimeline(collation, grown);
  }

  lemma AppendKeepsIds(collation: Collation, events: seq<VisualEvent>, event: VisualEvent)
    requires DistinctIds(events) && event.eventId !in Ids(events)
    ensures DistinctIds(SortEventsByTimestamp(collation, events + [event]))
  {
    var grown := events + [event];
    SortMultiset(grown, TimelineOrder(collation));
    forall other | other in multiset(events) ensures other.eventId != event.eventId {
      assert other in events && other.eventId in Ids(events);
    }
    assert multiset(grown) == multiset(events) + multiset{event};
  }

  lemma CreateKeepsTimeline(events: seq<VisualEvent>, safeBase: string, kind: string, data: map<string, Value>)
    requires Aligned(events)
    ensures var event := CreateEventFromTemplate(safeBase, kind, data, events);
            && event.eventId !in Ids(events) && AlignedAt(event, ScenarioStartMs(events))
            && event.ts >= ScenarioStartMs(events) && (events == [] ==> event.ts == 0.0)
  {
    FreshIdIsFree(safeBase, events);
    NextOffsetNotNegative(events);
    hide FreshId, LeastTs, GreatestOffset;
  }

  lemma DuplicateKeepsTimeline(events: seq<VisualEvent>, base: string, position: nat)
    requires Aligned(events) && position < |events|
    ensures var event := DuplicateEvent(base, events[position], events);
            && event.eventId !in Ids(events) && AlignedAt(event, ScenarioStartMs(events))
            && event.ts >= ScenarioStartMs(events)
  {
    FreshIdIsFree(base, events);
    OffsetsNotNegative(events);
    assert EventOffsetMs(events[position], ScenarioStartMs(events)) >= 0.0;
    hide FreshId, LeastTs, Aligned;
  }

  lemma EditKeepsTimeline(collation: Collation, events: seq<VisualEvent>, edit: Edit)
    requires Collates(collation) && Aligned(events)
    ensures var next := ApplyEdit(collation, events, edit);
            && Aligned(next) && ScenarioStartMs(next) == ScenarioStartMs(events)
            && multiset(events) <= multiset(next)
    ensures DistinctIds(events) ==> DistinctIds(ApplyEdit(collation, events, edit))
  {
    hide Aligned, ScenarioStartMs, FreshId, CreateEventFromTemplate, DuplicateEvent, SortEventsByTimestamp,
        NormalizeEventTimeline, Ids;
    match edit
    case Create(safeBase, kind, data) =>
      CreateKeepsTimeline(events, safeBase, kind, data);
      var event := CreateEventFromTemplate(safeBase, kind, data, events);
      AppendKeepsTimeline(collation, events, event);
      if DistinctIds(events) { AppendKeepsIds(collation, events, event); }
    case Duplicate(base, position) =>
      if position < |events| {
        DuplicateKeepsTimeline(events, base, position);
        var event := DuplicateEvent(base, events[position], events);
        AppendKeepsTimeline(collation, events, event);
        if DistinctIds(events) { AppendKeepsIds(collation, events, event); }
      }
    case Renormalize =>
      NormalizeAligned(collation, events);
  }

  lemma OffsetsNotNegative(events: seq<VisualEvent>)
    requires Aligned(events)
    ensures forall i | 0 <= i < |events| :: EventOffsetMs(events[i], ScenarioStartMs(events)) >= 0.0
  {
    if events != [] { LeastIsLeast(events); }
    forall i | 0 <= i < |events| ensures EventOffsetMs(events[i], ScenarioStartMs(events)) >= 0.0 {
      assert events[i] in events;
      assert AlignedAt(events[i], ScenarioStartMs(events));
    }
  }

  lemma NextOffsetNotNegative(events: seq<VisualEvent>)
    requires Aligned(events)
    ensures NextOffsetMs(events) >= 0.0
  {
    if events != [] {
      OffsetsNotNegative(events);
      GreatestIsGreatest(events, ScenarioStartMs(events));
      assert events[0] in events;
    }
  }

  /** Any sequence of edits keeps the start and every event as it was, times included, and
      keeps ids distinct. */
  lemma {:induction false} EditsNeverDrift(collation: Collation, events: seq<VisualEvent>, edits: seq<Edit>)
    requires Collates(collation) && Aligned(events)
    ensures var next := ApplyEdits(collation, events, edits);
            && Aligned(next) && ScenarioStartMs(next) == ScenarioStartMs(events)
            && multiset(events) <= multiset(next)
    ensures DistinctIds(events) ==> DistinctIds(ApplyEdits(collation, events, edits))
    decreases |edits|
  {
    if edits != [] {
      EditKeepsTimeline(collation, events, edits[0]);
      EditsNeverDrift(collation, ApplyEdit(collation, events, edits[0]), edits[1..]);
    }
  }

  // ------------------------------------------------------------------ what edits say

  /** The text is the number in decimal, without leading zeros. */
  predicate IsDecimal(text: string, n: nat) {
    && text != ""
    && text[|text| - 1] == "0123456789"[n % 10]
    && (if n < 10 then |text| == 1 else IsDecimal(text[..|text| - 1], n / 10))
  }

  lemma {:induction false} DecimalTextIsDecimal(n: nat)
    ensures IsDecimal(DecimalText(n), n)
  {
    var text := DecimalText(n);
    assert text[|text| - 1] == Digit(n % 10);
    if n >= 10 {
      DecimalTextIsDecimal(n / 10);
      assert text[..|text| - 1] == DecimalText(n / 10);
    }
  }

  lemma {:induction false} DecimalIsOne(n: nat, one: string, other: string)
    requires IsDecimal(one, n) && IsDecimal(other, n)
    ensures one == other
  {
    assert one == one[..|one| - 1] + [one[|one| - 1]] && other == other[..|other| - 1] + [other[|other| - 1]];
    if n >= 10 {
      DecimalIsOne(n / 10, one[..|one| - 1], other[..|other| - 1]);
    }
  }

  /** The new id is the base, a dash and the first number after the count of events for which
      no event has that id. */
  lemma FreshIdMeans(safeBase: string, events: seq<VisualEvent>) returns (k: nat, text: string)
    ensures k > |events| && IsDecimal(text, k) && FreshId(safeBase, events) == safeBase + "-" + text
    ensures forall event | event in events :: event.eventId != FreshId(safeBase, events)
    ensures forall i: nat, other | |events| < i < k && IsDecimal(other, i) ::
              exists event | event in events :: event.eventId == safeBase + "-" + other
  {
    FreshIdIsFree(safeBase, events);
    FirstFreeIsFree(safeBase, Ids(events), |events| + 1);
    k := FirstFree(safeBase, Ids(events), |events| + 1);
    text := DecimalText(k);
    DecimalTextIsDecimal(k);
    forall i: nat, other | |events| < i < k && IsDecimal(other, i)
      ensures exists event | event in events :: event.eventId == safeBase + "-" + other
    {
      DecimalTextIsDecimal(i);
      DecimalIsOne(i, DecimalText(i), other);
      assert Candidate(safeBase, i) in Ids(events);
    }
    hide DecimalText, IsDecimal, FirstFree;
  }

  /** The time is the earliest of the feed, or zero for an empty one. */
  ghost predicate StartsAt(events: seq<VisualEvent>, ms: real) {
    if events == [] then ms == 0.0
    else (forall event | event in events :: ms <= event.ts) && exists event | event in events :: event.ts == ms
  }

  lemma StartMeans(events: seq<VisualEvent>, ms: real)
    ensures StartsAt(events, ms) <==> ScenarioStartMs(events) == ms
  {
    if events != [] {
      LeastIsLeast(events);
      if StartsAt(events, ms) {
        StartIs(events, ms);
      }
    }
  }

  /** An event's place on the timeline: its offset if it has one, else its distance from the start. */
  function PlaceOf(event: VisualEvent, startMs: real): real {
    if event.offsetMs.Some? then event.offsetMs.value else event.ts - startMs
  }

  /** A second behind the last event, or at the start of an empty feed. */
  ghost predicate NextPlace(events: seq<VisualEvent>, startMs: real, ms: real) {
    if events == [] then ms == 0.0
    else
      && (forall event | event in events :: PlaceOf(event, startMs) + 1000.0 <= ms)
      && exists event | event in events :: PlaceOf(event, startMs) + 1000.0 == ms
  }

  lemma {:induction false} GreatestIsAttained(events: seq<VisualEvent>, startMs: real)
    requires events != []
    ensures exists event | event in events :: EventOffsetMs(event, startMs) == GreatestOffset(events, startMs)
  {
    var front, last := events[..|events| - 1], events[|events| - 1];
    assert events == front + [last] && last in events;
    if |events| > 1 {
      GreatestIsAttained(front, startMs);
      var event :| event in front && EventOffsetMs(event, startMs) == GreatestOffset(front, startMs);
      assert event in events;
    }
  }

  /** A new event goes a second behind the last one, with time and offset in agreement. */
  lemma NewEventMeans(safeBase: string, kind: string, data: map<string, Value>, events: seq<VisualEvent>)
    returns (startMs: real, ms: real)
    ensures StartsAt(events, startMs) && NextPlace(events, startMs, ms)
    ensures CreateEventFromTemplate(safeBase, kind, data, events)
         == VisualEvent(FreshId(safeBase, events), startMs + ms, Some(ms), kind, data)
  {
    hide FreshId;
    startMs := ScenarioStartMs(events);
    ms := NextOffsetMs(events);
    StartMeans(events, startMs);
    if events != [] {
      GreatestIsGreatest(events, startMs);
      GreatestIsAttained(events, startMs);
      assert forall event: VisualEvent :: PlaceOf(event, startMs) == EventOffsetMs(event, startMs);
      hide GreatestOffset, EventOffsetMs, PlaceOf;
    }
  }

  /** A copy goes a quarter of a second behind its original and is like it otherwise. */
  lemma CopyMeans(safeBase: string, event: VisualEvent, events: seq<VisualEvent>) returns (startMs: real)
    ensures StartsAt(events, startMs)
    ensures var ms := PlaceOf(event, startMs) + 250.0;
            DuplicateEvent(safeBase, event, events)
            == VisualEvent(FreshId(safeBase, events), startMs + ms, Some(ms), event.kind, event.data)
  {
    hide FreshId, LeastTs;
    startMs := ScenarioStartMs(events);
    StartMeans(events, startMs);
  }

  /** The timeline is sorted by time, then by the order of ids, and ties stay as they were. */
  lemma TimelineMeans(collation: Collation, events: seq<VisualEvent>)
    requires Collates(collation)
    ensures IsStableSortOf(SortEventsByTimestamp(collation, events), events,
              (a: VisualEvent, b: VisualEvent) => a.ts < b.ts || (a.ts == b.ts && collation(a.eventId, b.eventId)))
  {
    OrderIsPreorder(collation);
    SortIsStable(events, TimelineOrder(collation));
    StableAlike(SortEventsByTimestamp(collation, events), events, TimelineOrder(collation),
      (a: VisualEvent, b: VisualEvent) => a.ts < b.ts || (a.ts == b.ts && collation(a.eventId, b.eventId)));
  }

  /** Normalising puts every event with an offset at the start plus its offset, leaves the
      others, and sorts. */
  lemma NormalizeMeans(collation: Collation, events: seq<VisualEvent>) returns (startMs: real, placed: seq<VisualEvent>)
    ensures StartsAt(events, startMs) && |placed| == |events|
    ensures forall i | 0 <= i < |events| ::
              placed[i] == if events[i].offsetMs.Some?
                           then events[i].(ts := startMs + events[i].offsetMs.value) else events[i]
    ensures NormalizeEventTimeline(collation, events) == SortEventsByTimestamp(collation, placed)
  {
    startMs := ScenarioStartMs(events);
    StartMeans(events, startMs);
    placed := PlacedAll(events, startMs);
    hide LeastTs;
  }
}
