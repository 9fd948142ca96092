/**
  The summary of a Git diff (`git_diff.rs`): status entries and line counts are gathered per
  file, and the totals are taken over all files before the list is cut.
*/
module DiffTotals {
  import opened Wrappers

  /** The kind of one change, and the status of a file. */
  datatype Status = Added | Modified | Deleted | Renamed | Copied | Untracked | Conflicted | Unknown

  datatype Area = StagedArea | UnstagedArea | UntrackedArea

  datatype Flag = IsStaged | IsUnstaged | IsUntracked | IsConflicted

  datatype Side = Additions | Deletions

  datatype Change = Change(path: string, kind: Status, area: Area) {
    predicate Sets(flag: Flag) {
      match flag
      case IsStaged => area == StagedArea
      case IsUnstaged => area == UnstagedArea
      case IsUntracked => area == UntrackedArea
      case IsConflicted => kind == Conflicted
    }
  }

  /** One row of `git diff --numstat`; binary files have no counts. */
  datatype LineDelta = LineDelta(additions: Option<nat>, deletions: Option<nat>, path: string) {
    function Lines(side: Side): Option<nat> {
      match side case Additions => additions case Deletions => deletions
    }
  }

  datatype FileSummary = FileSummary(
    path: string, status: Status,
    staged: bool, unstaged: bool, untracked: bool, conflicted: bool,
    additions: Option<nat>, deletions: Option<nat>)
  {
    predicate Has(flag: Flag) {
      match flag
      case IsStaged => staged
      case IsUnstaged => unstaged
      case IsUntracked => untracked
      case IsConflicted => conflicted
    }

    function Lines(side: Side): Option<nat> {
      match side case Additions => additions case Deletions => deletions
    }
  }

  datatype Totals = Totals(
    totalFiles: nat, stagedCount: nat, unstagedCount: nat, untrackedCount: nat, conflictedCount: nat,
    totalAdditions: Option<nat>, totalDeletions: Option<nat>)
  {
    function Count(flag: Flag): nat {
      match flag
      case IsStaged => stagedCount
      case IsUnstaged => unstagedCount
      case IsUntracked => untrackedCount
      case IsConflicted => conflictedCount
    }

    function Lines(side: Side): Option<nat> {
      match side case Additions => totalAdditions case Deletions => totalDeletions
    }
  }

  // --------------------------------------------------------------- the order of paths

  predicate LexLess(a: string, b: string) {
    b != "" && (a == "" || a[0] < b[0] || (a[0] == b[0] && LexLess(a[1..], b[1..])))
  }

  lemma {:induction false} LexTotal(a: string, b: string)
    ensures !(LexLess(a, b) && LexLess(b, a))
    ensures a == b <==> !LexLess(a, b) && !LexLess(b, a)
  {
    if a != "" && b != "" && a[0] == b[0] {
      LexTotal(a[1..], b[1..]);
      assert a == [a[0]] + a[1..] && b == [b[0]] + b[1..];
    }
  }

  lemma {:induction false} LexTransitive(a: string, b: string, c: string)
    requires LexLess(a, b) && LexLess(b, c)
    ensures LexLess(a, c)
  {
    if a != "" && a[0] == b[0] == c[0] {
      LexTransitive(a[1..], b[1..], c[1..]);
    }
  }

  predicate StrictlySorted(files: seq<FileSummary>) {
    forall i, j | 0 <= i < j < |files| :: LexLess(files[i].path, files[j].path)
  }

  function Paths(files: seq<FileSummary>): set<string> {
    set f | f in files :: f.path
  }

  // ------------------------------------------------------------------- merging changes

  function MergedStatus(current: Status, next: Status): Status {
    if next == Conflicted || current == Conflicted then Conflicted
    else if current == Unknown then next
    else if current == next then current
    else Modified
  }

  function DropUnknown(kinds: seq<Status>): seq<Status> {
    if kinds != [] && kinds[0] == Unknown then DropUnknown(kinds[1..]) else kinds
  }

  predicate AllAlike(kinds: seq<Status>) {
    forall k | k in kinds :: k == kinds[0]
  }

  /** The status of a file with changes of these kinds: a conflict wins; otherwise the kinds
      from the first known one on either agree or make the file modified. */
  function StatusOf(kinds: seq<Status>): Status {
    var known := DropUnknown(kinds);
    if Conflicted in kinds then Conflicted
    else if known == [] then Unknown
    else if AllAlike(known) then known[0]
    else Modified
  }

  lemma {:induction false} DropUnknownSnoc(kinds: seq<Status>, k: Status)
    ensures DropUnknown(kinds + [k]) ==
            if DropUnknown(kinds) == [] && k == Unknown then [] else DropUnknown(kinds) + [k]
    ensures forall x | x in DropUnknown(kinds) :: x in kinds
    ensures DropUnknown(kinds) != [] ==> DropUnknown(kinds)[0] != Unknown
  {
    if kinds != [] && kinds[0] == Unknown {
      assert (kinds + [k])[1..] == kinds[1..] + [k];
      DropUnknownSnoc(kinds[1..], k);
    } else if kinds == [] {
      assert [k][1..] == [] && kinds + [k] == [k];
    }
  }

  /** Merging the kinds one by one gives the status of all of them. */
  lemma MergingStatuses(kinds: seq<Status>, k: Status)
    ensures MergedStatus(StatusOf(kinds), k) == StatusOf(kinds + [k])
  {
    hide DropUnknown, AllAlike;
    DropUnknownSnoc(kinds, k);
    MemberSnoc(kinds, k);
    var known := DropUnknown(kinds);
    if known != [] {
      AlikeSnoc(known, k);
      assert known[0] in kinds;
    } else {
      assert known + [k] == [k];
      OneIsAlike(k);
    }
  }

  lemma MemberSnoc<T>(s: seq<T>, x: T)
    ensures forall y :: y in s + [x] <==> y in s || y == x
  {
    assert (s + [x])[|s|] == x;
  }

  lemma AlikeSnoc(kinds: seq<Status>, k: Status)
    requires kinds != []
    ensures AllAlike(kinds + [k]) <==> AllAlike(kinds) && k == kinds[0]
  {
    var longer := kinds + [k];
    MemberSnoc(kinds, k);
    if AllAlike(longer) {
      assert k in longer;
      forall x | x in kinds ensures x == kinds[0] {
        assert x in longer;
      }
    }
    if AllAlike(kinds) && k == kinds[0] {
      forall x | x in longer ensures x == longer[0] {
        assert x in kinds || x == k;
      }
    }
  }

  lemma OneIsAlike(k: Status)
    ensures AllAlike([k])
  {
  }

  function KindsAt(changes: seq<Change>, path: string): seq<Status> {
    if changes == [] then []
    else
      var last := changes[|changes| - 1];
      KindsAt(changes[..|changes| - 1], path) + if last.path == path then [last.kind] else []
  }

  predicate Sees(changes: seq<Change>, path: string, flag: Flag) {
    exists c | c in changes :: c.path == path && c.Sets(flag)
  }

  /** A file's summary, from all changes reported for its path. */
  function SummaryOf(changes: seq<Change>, path: string): FileSummary {
    FileSummary(path, StatusOf(KindsAt(changes, path)),
                Sees(changes, path, IsStaged), Sees(changes, path, IsUnstaged),
                Sees(changes, path, IsUntracked), Sees(changes, path, IsConflicted), None, None)
  }

  function ChangedPaths(changes: seq<Change>): set<string> {
    set c | c in changes :: c.path
  }

  function NewEntry(path: string): FileSummary {
    FileSummary(path, Unknown, false, false, false, false, None, None)
  }

  function Noted(f: FileSummary, change: Change): FileSummary {
    f.(status := MergedStatus(f.status, change.kind),
       staged := f.staged || change.area == StagedArea,
       unstaged := f.unstaged || change.area == UnstagedArea,
       untracked := f.untracked || change.area == UntrackedArea,
       conflicted := f.conflicted || change.kind == Conflicted)
  }

  lemma {:induction false} NoKinds(changes: seq<Change>, path: string)
    requires path !in ChangedPaths(changes)
    ensures KindsAt(changes, path) == []
  {
    if changes != [] {
      assert changes[|changes| - 1] in changes;
      NoKinds(changes[..|changes| - 1], path);
    }
  }

  lemma SeesSnoc(changes: seq<Change>, change: Change, path: string, flag: Flag)
    ensures Sees(changes + [change], path, flag) <==>
            Sees(changes, path, flag) || (change.path == path && change.Sets(flag))
  {
    var longer := changes + [change];
    assert change in longer && forall c | c in changes :: c in longer;
    assert forall c | c in longer :: c in changes || c == change;
  }

  lemma SummarySnoc(changes: seq<Change>, change: Change, path: string)
    ensures SummaryOf(changes + [change], path) ==
            if change.path == path then Noted(SummaryOf(changes, path), change) else SummaryOf(changes, path)
    ensures path !in ChangedPaths(changes) ==> SummaryOf(changes, path) == NewEntry(path)
  {
    forall flag: Flag ensures Sees(changes + [change], path, flag) <==>
                              Sees(changes, path, flag) || (change.path == path && change.Sets(flag)) {
      SeesSnoc(changes, change, path, flag);
    }
    assert (changes + [change])[..|changes|] == changes;
    assert KindsAt(changes, path) + [] == KindsAt(changes, path);
    MergingStatuses(KindsAt(changes, path), change.kind);
    if path !in ChangedPaths(changes) {
      NoKinds(changes, path);
    }
  }

  // ----------------------------------------------------------------- the map of files

  /** The index of the first file whose path is not less than `path`. */
  function Position(files: seq<FileSummary>, path: string): (k: nat)
    ensures k <= |files|
    ensures forall i | 0 <= i < k :: LexLess(files[i].path, path)
    ensures k < |files| ==> !LexLess(files[k].path, path)
  {
    if files == [] || !LexLess(files[0].path, path) then 0 else 1 + Position(files[1..], path)
  }

  lemma PositionFinds(files: seq<FileSummary>, path: string)
    requires StrictlySorted(files)
    ensures var k := Position(files, path);
            && (path in Paths(files) <==> k < |files| && files[k].path == path)
            && (forall i | k < i < |files| :: LexLess(path, files[i].path))
            && (k < |files| && files[k].path != path ==> LexLess(path, files[k].path))
  {
    var k := Position(files, path);
    if k < |files| {
      assert files[k] in files;
      LexTotal(files[k].path, path);
      forall i | k < i < |files| ensures LexLess(path, files[i].path) {
        if files[k].path != path {
          LexTransitive(path, files[k].path, files[i].path);
        }
      }
    }
    if path in Paths(files) {
      var i :| 0 <= i < |files| && files[i].path == path;
      LexTotal(path, path);
    }
  }

  predicate SamePaths(files: seq<FileSummary>, others: seq<FileSummary>) {
    |files| == |others| && forall i | 0 <= i < |files| :: files[i].path == others[i].path
  }

  lemma SamePathsKeep(files: seq<FileSummary>, others: seq<FileSummary>)
    requires SamePaths(files, others)
    ensures Paths(files) == Paths(others)
    ensures StrictlySorted(files) <==> StrictlySorted(others)
  {
    forall p ensures p in Paths(files) <==> p in Paths(others) {
      if p in Paths(files) {
        var i :| 0 <= i < |files| && files[i].path == p;
        assert others[i] in others;
      }
      if p in Paths(others) {
        var i :| 0 <= i < |others| && others[i].path == p;
        assert files[i] in files;
      }
    }
  }

  /** `after` has an entry for the path: the one of `before`, or a new one. */
  predicate Entered(before: seq<FileSummary>, after: seq<FileSummary>, path: string) {
    && Paths(after) == Paths(before) + {path}
    && (forall f | f in after :: f in before || (f == NewEntry(path) && path !in Paths(before)))
  }

  lemma InsertEnters(before: seq<FileSummary>, k: nat, path: string)
    requires k <= |before| && path !in Paths(before)
    ensures Entered(before, before[..k] + [NewEntry(path)] + before[k..], path)
  {
    var after := before[..k] + [NewEntry(path)] + before[k..];
    assert before == before[..k] + before[k..];
    assert NewEntry(path) in after && forall f | f in before :: f in after;
    assert forall f | f in after :: f in before || f == NewEntry(path);
  }

  /** An ordered map from paths to files, as the list of its values in key order. */
  class FileTable {
    var files: seq<FileSummary>

    constructor ()
      ensures files == []
    {
      files := [];
    }

    ghost predicate Valid()
      reads this
    {
      StrictlySorted(files)
    }

    method Entry(path: string) returns (k: nat)
      requires Valid()
      modifies this
      ensures Valid()
      ensures k < |files| && files[k].path == path
      ensures Entered(old(files), files, path)
      ensures path in Paths(old(files)) ==> files == old(files)
      ensures path !in Paths(old(files)) ==>
                k <= |old(files)| && files == old(files)[..k] + [NewEntry(path)] + old(files)[k..]
    {
      k := Position(files, path);
      PositionFinds(files, path);
      if k == |files| || files[k].path != path {
        InsertEnters(files, k, path);
        files := files[..k] + [NewEntry(path)] + files[k..];
      }
    }

    method Lookup(path: string) returns (r: Option<nat>)
      requires Valid()
      ensures r.Some? <==> path in Paths(files)
      ensures r.Some? ==> r.value < |files| && files[r.value].path == path
    {
      var k := Position(files, path);
      PositionFinds(files, path);
      r := if k < |files| && files[k].path == path then Some(k) else None;
    }
  }

  predicate ListsFiles(files: seq<FileSummary>, changes: seq<Change>) {
    && StrictlySorted(files)
    && Paths(files) == ChangedPaths(changes)
    && (forall f | f in files :: f == SummaryOf(changes, f.path))
  }

  /** A change is noted in the entry of its path; no other entry changes. */
  lemma NoteKeepsList(was: seq<FileSummary>, entered: seq<FileSummary>, k: nat, changes: seq<Change>, change: Change)
    requires ListsFiles(was, changes)
    requires StrictlySorted(entered) && k < |entered| && entered[k].path == change.path
    requires Entered(was, entered, change.path)
    ensures ListsFiles(entered[k := Noted(entered[k], change)], changes + [change])
    ensures StrictlySorted(entered[k := Noted(entered[k], change)])
  {
    hide StatusOf, KindsAt, Sees, MergedStatus, LexLess;
    var next := entered[k := Noted(entered[k], change)];
    SamePathsKeep(entered, next);
    assert ChangedPaths(changes + [change]) == ChangedPaths(changes) + {change.path} by {
      assert change in changes + [change] && forall c | c in changes :: c in changes + [change];
    }
    forall i | 0 <= i < |next| ensures next[i] == SummaryOf(changes + [change], next[i].path) {
      SummarySnoc(changes, change, next[i].path);
      assert entered[i] in entered;
      if i != k {
        DistinctPaths(entered, i, k);
      }
    }
  }

  lemma DistinctPaths(files: seq<FileSummary>, i: nat, j: nat)
    requires StrictlySorted(files) && i < |files| && j < |files| && i != j
    ensures files[i].path != files[j].path
  {
    LexTotal(files[i].path, files[i].path);
  }

  /** One entry per changed path, in path order, each gathering all changes of its path. */
  method AggregateStatusFiles(changes: seq<Change>) returns (table: FileTable)
    ensures fresh(table) && table.Valid()
    ensures ListsFiles(table.files, changes)
  {
    hide LexLess, SummaryOf, MergedStatus;
    table := new FileTable();
    for n := 0 to |changes|
      invariant fresh(table) && table.Valid()
      invariant ListsFiles(table.files, changes[..n])
    {
      var change := changes[n];
      ghost var was := table.files;
      var k := table.Entry(change.path);
      NoteKeepsList(was, table.files, k, changes[..n], change);
      assert changes[..n + 1] == changes[..n] + [change];
      var entry := table.files[k];
      ghost var found := entry;
      entry := entry.(status := MergedStatus(entry.status, change.kind));
      match change.area {
        case StagedArea => entry := entry.(staged := true);
        case UnstagedArea => entry := entry.(unstaged := true);
        case UntrackedArea => entry := entry.(untracked := true);
      }
      if change.kind == Conflicted {
        entry := entry.(conflicted := true);
      }
      assert entry == Noted(found, change);
      table.files := table.files[k := entry];
    }
    assert changes[..|changes|] == changes;
  }

  // ------------------------------------------------------------------------ line counts

  function SumOptional(left: Option<nat>, right: Option<nat>): Option<nat> {
    match (left, right)
    case (Some(l), Some(r)) => Some(l + r)
    case (Some(_), None) => left
    case (None, _) => right
  }

  /** The lines counted on one side by all rows for these paths. */
  function LineCount(rows: seq<LineDelta>, paths: set<string>, side: Side): nat {
    if rows == [] then 0
    else
      var last := rows[|rows| - 1];
      LineCount(rows[..|rows| - 1], paths, side) + if last.path in paths then last.Lines(side).GetOr(0) else 0
  }

  predicate AnyCounted(rows: seq<LineDelta>, paths: set<string>, side: Side) {
    exists row | row in rows :: row.path in paths && row.Lines(side).Some?
  }

  /** The count, or nothing when no row has one. */
  function Counted(rows: seq<LineDelta>, paths: set<string>, side: Side): Option<nat> {
    if AnyCounted(rows, paths, side) then Some(LineCount(rows, paths, side)) else None
  }

  lemma {:induction false} NothingCounted(rows: seq<LineDelta>, paths: set<string>, side: Side)
    requires !AnyCounted(rows, paths, side)
    ensures LineCount(rows, paths, side) == 0
  {
    if rows != [] {
      assert rows[|rows| - 1] in rows;
      NothingCounted(rows[..|rows| - 1], paths, side);
    }
  }

  lemma {:induction false} LineCountAppend(a: seq<LineDelta>, b: seq<LineDelta>, paths: set<string>, side: Side)
    ensures LineCount(a + b, paths, side) == LineCount(a, paths, side) + LineCount(b, paths, side)
  {
    if b == [] {
      assert a + b == a;
    } else {
      assert (a + b)[..|a + b| - 1] == a + b[..|b| - 1];
      LineCountAppend(a, b[..|b| - 1], paths, side);
    }
  }

  lemma CountedAppend(a: seq<LineDelta>, b: seq<LineDelta>, paths: set<string>, side: Side)
    ensures Counted(a + b, paths, side) == SumOptional(Counted(a, paths, side), Counted(b, paths, side))
  {
    LineCountAppend(a, b, paths, side);
    assert AnyCounted(a + b, paths, side) <==> AnyCounted(a, paths, side) || AnyCounted(b, paths, side) by {
      assert forall x | x in a || x in b :: x in a + b;
      assert forall x | x in a + b :: x in a || x in b;
    }
    if !AnyCounted(a, paths, side) {
      NothingCounted(a, paths, side);
    }
    if !AnyCounted(b, paths, side) {
      NothingCounted(b, paths, side);
    }
  }

  lemma CountedRow(row: LineDelta, paths: set<string>, side: Side)
    ensures Counted([row], paths, side) == if row.path in paths then row.Lines(side) else None
  {
    assert row in [row] && [row][..0] == [];
    assert LineCount([], paths, side) == 0;
  }

  lemma {:induction false} LineCountSplit(rows: seq<LineDelta>, some: set<string>, others: set<string>, side: Side)
    requires some !! others
    ensures LineCount(rows, some + others, side) == LineCount(rows, some, side) + LineCount(rows, others, side)
  {
    if rows != [] {
      LineCountSplit(rows[..|rows| - 1], some, others, side);
    }
  }

  lemma CountedSplit(rows: seq<LineDelta>, some: set<string>, others: set<string>, side: Side)
    requires some !! others
    ensures Counted(rows, some + others, side) == SumOptional(Counted(rows, some, side), Counted(rows, others, side))
  {
    LineCountSplit(rows, some, others, side);
    if !AnyCounted(rows, some, side) {
      NothingCounted(rows, some, side);
    }
    if !AnyCounted(rows, others, side) {
      NothingCounted(rows, others, side);
    }
  }

  /** The order of the rows does not matter. */
  lemma RowOrderDoesNotMatter(rows: seq<LineDelta>, permuted: seq<LineDelta>, paths: set<string>, side: Side)
    requires multiset(rows) == multiset(permuted)
    ensures Counted(rows, paths, side) == Counted(permuted, paths, side)
  {
    LineCountOfMultiset(rows, permuted, paths, side);
    assert forall row :: row in rows <==> row in multiset(rows);
    assert forall row :: row in permuted <==> row in multiset(permuted);
  }

  lemma LastRowElsewhere(rows: seq<LineDelta>, permuted: seq<LineDelta>)
    returns (left: seq<LineDelta>, right: seq<LineDelta>)
    requires rows != [] && multiset(rows) == multiset(permuted)
    ensures permuted == left + [rows[|rows| - 1]] + right
    ensures multiset(left + right) == multiset(rows[..|rows| - 1])
  {
    var front, last := rows[..|rows| - 1], rows[|rows| - 1];
    assert rows == front + [last];
    assert last in multiset(permuted);
    var j :| 0 <= j < |permuted| && permuted[j] == last;
    left, right := permuted[..j], permuted[j + 1..];
    assert permuted == left + [last] + right;
    assert multiset(left + right) == multiset(permuted) - multiset{last};
    assert multiset(front) == multiset(rows) - multiset{last};
  }

  lemma {:induction false} LineCountOfMultiset(rows: seq<LineDelta>, permuted: seq<LineDelta>, paths: set<string>,
                                               side: Side)
    requires multiset(rows) == multiset(permuted)
    ensures LineCount(rows, paths, side) == LineCount(permuted, paths, side)
  {
    if rows == [] {
      assert |multiset(permuted)| == 0;
    } else {
      var front, last := rows[..|rows| - 1], rows[|rows| - 1];
      var left, right := LastRowElsewhere(rows, permuted);
      LineCountOfMultiset(front, left + right, paths, side);
      LineCountAppend(left, right, paths, side);
      LineCountAppend(left + [last], right, paths, side);
      LineCountAppend(left, [last], paths, side);
      LineCountAppend(front, [last], paths, side);
      assert rows == front + [last];
    }
  }

  /** The file with the lines of these rows added to it. */
  function WithLines(f: FileSummary, rows: seq<LineDelta>): FileSummary {
    f.(additions := SumOptional(f.additions, Counted(rows, {f.path}, Additions)),
       deletions := SumOptional(f.deletions, Counted(rows, {f.path}, Deletions)))
  }

  lemma WithLinesSnoc(f: FileSummary, rows: seq<LineDelta>, row: LineDelta)
    ensures WithLines(f, rows + [row]) ==
            if row.path == f.path
            then WithLines(f, rows).(additions := SumOptional(WithLines(f, rows).additions, row.additions),
                                     deletions := SumOptional(WithLines(f, rows).deletions, row.deletions))
            else WithLines(f, rows)
  {
    CountedAppend(rows, [row], {f.path}, Additions);
    CountedAppend(rows, [row], {f.path}, Deletions);
    CountedRow(row, {f.path}, Additions);
    CountedRow(row, {f.path}, Deletions);
  }

  lemma WithLinesTwice(f: FileSummary, a: seq<LineDelta>, b: seq<LineDelta>)
    ensures WithLines(WithLines(f, a), b) == WithLines(f, a + b)
  {
    CountedAppend(a, b, {f.path}, Additions);
    CountedAppend(a, b, {f.path}, Deletions);
  }

  /** Every file gains the lines of its own rows; rows for other paths are ignored. */
  method ApplyLineDeltas(table: FileTable, deltas: seq<LineDelta>)
    requires table.Valid()
    modifies table
    ensures table.Valid()
    ensures |table.files| == |old(table.files)|
    ensures forall i | 0 <= i < |table.files| :: table.files[i] == WithLines(old(table.files)[i], deltas)
  {
    ghost var was := table.files;
    for n := 0 to |deltas|
      invariant table.Valid() && SamePaths(table.files, was)
      invariant forall i | 0 <= i < |was| :: table.files[i] == WithLines(was[i], deltas[..n])
    {
      hide LexLess, Counted;
      var delta := deltas[n];
      assert deltas[..n + 1] == deltas[..n] + [delta];
      var found := table.Lookup(delta.path);
      forall i | 0 <= i < |was| ensures WithLines(was[i], deltas[..n + 1]) ==
                                        if delta.path == was[i].path
                                        then table.files[i].(additions := SumOptional(table.files[i].additions,
                                            delta.additions),
                                                             deletions := SumOptional(table.files[i].deletions,
                                                                 delta.deletions))
                                        else table.files[i] {
        WithLinesSnoc(was[i], deltas[..n], delta);
        assert table.files[i] in table.files;
      }
      if found.Some? {
        var k := found.value;
        forall i | 0 <= i < |was| && i != k ensures was[i].path != delta.path {
          DistinctPaths(table.files, i, k);
        }
        var file := table.files[k];
        ghost var before := table.files;
        table.files := table.files[k := file.(additions := SumOptional(file.additions, delta.additions),
                                              deletions := SumOptional(file.deletions, delta.deletions))];
        SamePathsKeep(before, table.files);
      }
    }
    assert deltas[..|deltas|] == deltas;
  }

  // ----------------------------------------------------------------------------- totals

  function Selected(files: seq<FileSummary>, flag: Flag): set<string> {
    set f | f in files && f.Has(flag) :: f.path
  }

  function SumLines(files: seq<FileSummary>, side: Side): Option<nat> {
    if files == [] then None
    else SumOptional(SumLines(files[..|files| - 1], side), files[|files| - 1].Lines(side))
  }

  lemma SelectedSnoc(files: seq<FileSummary>, n: nat, flag: Flag)
    requires StrictlySorted(files) && n < |files|
    ensures |Selected(files[..n + 1], flag)| == |Selected(files[..n], flag)| + if files[n].Has(flag) then 1 else 0
  {
    assert files[..n + 1] == files[..n] + [files[n]];
    forall f | f in files[..n] ensures f.path != files[n].path {
      var i :| 0 <= i < n && files[i] == f;
      DistinctPaths(files, i, n);
    }
    forall f ensures f in files[..n + 1] <==> f in files[..n] || f == files[n] {
      MemberSnoc(files[..n], files[n]);
    }
    hide Selected, LexLess;
    SelectedLast(files[..n], files[n], files[..n + 1], flag);
  }

  lemma SelectedLast(front: seq<FileSummary>, last: FileSummary, files: seq<FileSummary>, flag: Flag)
    requires forall f :: f in files <==> f in front || f == last
    requires forall f | f in front :: f.path != last.path
    ensures |Selected(files, flag)| == |Selected(front, flag)| + if last.Has(flag) then 1 else 0
  {
    assert Selected(files, flag) == Selected(front, flag) + if last.Has(flag) then {last.path} else {};
  }

  /** The totals: how many paths carry each flag, and the lines of all files. */
  method SummarizeFiles(files: seq<FileSummary>, totalFileCount: nat) returns (totals: Totals)
    requires StrictlySorted(files)
    ensures totals.totalFiles == totalFileCount
    ensures forall flag: Flag :: totals.Count(flag) == |Selected(files, flag)|
    ensures forall side: Side :: totals.Lines(side) == SumLines(files, side)
  {
    hide LexLess, Selected, SumLines, SumOptional;
    totals := Totals(totalFileCount, 0, 0, 0, 0, None, None);
    NoFiles();
    for n := 0 to |files|
      invariant totals.totalFiles == totalFileCount
      invariant forall flag: Flag :: totals.Count(flag) == |Selected(files[..n], flag)|
      invariant forall side: Side :: totals.Lines(side) == SumLines(files[..n], side)
    {
      var file := files[n];
      ghost var before := totals;
      forall flag: Flag ensures |Selected(files[..n + 1], flag)|
          == |Selected(files[..n], flag)| + if file.Has(flag) then 1 else 0 {
        SelectedSnoc(files, n, flag);
      }
      forall side: Side ensures SumLines(files[..n + 1], side)
          == SumOptional(SumLines(files[..n], side), file.Lines(side)) {
        SumLinesSnoc(files, n, side);
      }
      if file.staged {
        totals := totals.(stagedCount := totals.stagedCount + 1);
      }
      if file.unstaged {
        totals := totals.(unstagedCount := totals.unstagedCount + 1);
      }
      if file.untracked {
        totals := totals.(untrackedCount := totals.untrackedCount + 1);
      }
      if file.conflicted {
        totals := totals.(conflictedCount := totals.conflictedCount + 1);
      }
      totals := totals.(totalAdditions := SumOptional(totals.totalAdditions, file.additions),
                        totalDeletions := SumOptional(totals.totalDeletions, file.deletions));
      assert forall flag: Flag :: totals.Count(flag) == before.Count(flag) + if file.Has(flag) then 1 else 0;
      assert forall side: Side :: totals.Lines(side) == SumOptional(before.Lines(side), file.Lines(side));
    }
    assert files[..|files|] == files;
  }

  lemma NoFiles()
    ensures forall flag: Flag :: Selected([], flag) == {}
    ensures forall side: Side :: SumLines([], side) == None
  {
  }

  lemma SumLinesSnoc(files: seq<FileSummary>, n: nat, side: Side)
    requires n < |files|
    ensures SumLines(files[..n + 1], side) == SumOptional(SumLines(files[..n], side), files[n].Lines(side))
  {
    assert files[..n + 1][..n] == files[..n];
  }

  /** The file carries exactly the lines of its own rows. */
  predicate CarriesLines(f: FileSummary, rows: seq<LineDelta>) {
    forall side: Side :: f.Lines(side) == Counted(rows, {f.path}, side)
  }

  /** No line is lost or counted twice: the files' lines add up to the lines of all rows
      whose path is one of theirs. */
  lemma {:induction false} LinesAreConserved(files: seq<FileSummary>, rows: seq<LineDelta>, side: Side)
    requires StrictlySorted(files)
    requires forall f | f in files :: CarriesLines(f, rows)
    ensures SumLines(files, side) == Counted(rows, Paths(files), side)
  {
    hide Counted, LexLess, Paths;
    if files == [] {
      NothingAtNoPath(rows, side);
    } else {
      var front, last := files[..|files| - 1], files[|files| - 1];
      LastPathIsNew(files);
      LinesAreConserved(front, rows, side);
      CountedSplit(rows, Paths(front), {last.path}, side);
      assert CarriesLines(last, rows);
    }
  }

  lemma NothingAtNoPath(rows: seq<LineDelta>, side: Side)
    ensures Counted(rows, Paths([]), side) == None
  {
  }

  lemma LastPathIsNew(files: seq<FileSummary>)
    requires StrictlySorted(files) && files != []
    ensures var front, last := files[..|files| - 1], files[|files| - 1];
            && last in files
            && (forall f | f in front :: f in files)
            && last.path !in Paths(front)
            && Paths(files) == Paths(front) + {last.path}
  {
    var n := |files| - 1;
    var front, last := files[..n], files[n];
    assert files == front + [last];
    forall f | f in front ensures f.path != last.path {
      var i :| 0 <= i < n && files[i] == f;
      DistinctPaths(files, i, n);
    }
  }

  // ------------------------------------------------------------------ the whole summary

  const DEFAULT_MAX_FILES: nat := 100
  const MAX_FILES_CAP: nat := 500

  function NormalizeMaxFiles(value: Option<nat>): nat {
    if value.GetOr(DEFAULT_MAX_FILES) < MAX_FILES_CAP then value.GetOr(DEFAULT_MAX_FILES) else MAX_FILES_CAP
  }

  datatype DiffSummary = DiffSummary(dirty: bool, files: seq<FileSummary>, totals: Totals)

  /** All files of the diff, before the list is cut. */
  predicate IsFileList(all: seq<FileSummary>, changes: seq<Change>, rows: seq<LineDelta>) {
    && StrictlySorted(all)
    && Paths(all) == ChangedPaths(changes)
    && (forall f | f in all :: f == WithLines(SummaryOf(changes, f.path), rows))
  }

  function FlaggedPaths(changes: seq<Change>, flag: Flag): set<string> {
    set c | c in changes && c.Sets(flag) :: c.path
  }

  lemma FlagsComeFromChanges(all: seq<FileSummary>, changes: seq<Change>, rows: seq<LineDelta>, flag: Flag)
    requires IsFileList(all, changes, rows)
    ensures Selected(all, flag) == FlaggedPaths(changes, flag)
  {
    forall f | f in all ensures f.Has(flag) <==> Sees(changes, f.path, flag) {
      assert f == WithLines(SummaryOf(changes, f.path), rows);
    }
    forall path | path in FlaggedPaths(changes, flag) ensures path in Selected(all, flag) {
      assert path in Paths(all);
    }
  }

  lemma FilesMatchPaths(files: seq<FileSummary>)
    requires StrictlySorted(files)
    ensures |Paths(files)| == |files|
  {
    if files != [] {
      LastPathIsNew(files);
      FilesMatchPaths(files[..|files| - 1]);
    }
  }

  ghost predicate IsPrefixOfFileList(files: seq<FileSummary>, n: nat, changes: seq<Change>, rows: seq<LineDelta>) {
    exists all | IsFileList(all, changes, rows) :: files == all[..if n < |all| then n else |all|]
  }

  /** The counts cover every changed path and the lines of every row, unstaged and staged,
      for such a path, whatever the limit cuts from the list of files. */
  method SummarizeDiff(changes: seq<Change>, unstaged: seq<LineDelta>, staged: seq<LineDelta>, maxFiles: Option<nat>)
    returns (r: DiffSummary)
    ensures r.dirty <==> changes != []
    ensures IsPrefixOfFileList(r.files, NormalizeMaxFiles(maxFiles), changes, unstaged + staged)
    ensures r.totals.totalFiles == |ChangedPaths(changes)|
    ensures r.totals.stagedCount == |set c | c in changes && c.area == StagedArea :: c.path|
    ensures r.totals.unstagedCount == |set c | c in changes && c.area == UnstagedArea :: c.path|
    ensures r.totals.untrackedCount == |set c | c in changes && c.area == UntrackedArea :: c.path|
    ensures r.totals.conflictedCount == |set c | c in changes && c.kind == Conflicted :: c.path|
    ensures r.totals.totalAdditions
         == AddedUp(unstaged + staged, set c | c in changes :: c.path, (row: LineDelta) => row.additions)
    ensures r.totals.totalDeletions
         == AddedUp(unstaged + staged, set c | c in changes :: c.path, (row: LineDelta) => row.deletions)
  {
    hide FlaggedPaths, Counted, AddedUp, LexLess;
    var table := AggregateStatusFiles(changes);
    var listed := table.files;
    var totalFileCount := |listed|;
    FilesMatchPaths(listed);
    if listed == [] {
      NothingChanged(changes, unstaged + staged);
      r := DiffSummary(false, [], Totals(0, 0, 0, 0, 0, None, None));
      TotalsMean(r.totals, changes, unstaged + staged);
      return;
    }
    ApplyLineDeltas(table, unstaged);
    var withUnstaged := table.files;
    ApplyLineDeltas(table, staged);
    var all := table.files;
    AllIsFileList(listed, withUnstaged, all, changes, unstaged, staged);
    var totals := SummarizeFiles(all, totalFileCount);
    var cut := NormalizeMaxFiles(maxFiles);
    TotalsOfFileList(all, changes, unstaged + staged);
    assert listed[0] in listed;
    r := DiffSummary(true, all[..if cut < |all| then cut else |all|], totals);
    TotalsMean(totals, changes, unstaged + staged);
  }

  lemma PathIsChanged(changes: seq<Change>, i: nat)
    requires i < |changes|
    ensures changes[i].path in ChangedPaths(changes)
  {
  }

  lemma NothingChanged(changes: seq<Change>, rows: seq<LineDelta>)
    requires ChangedPaths(changes) == {}
    ensures changes == [] && IsFileList([], changes, rows)
    ensures forall flag: Flag :: FlaggedPaths(changes, flag) == {}
    ensures forall side: Side :: Counted(rows, {}, side) == None
  {
    if changes != [] {
      PathIsChanged(changes, 0);
    }
  }

  lemma AllIsFileList(listed: seq<FileSummary>, withUnstaged: seq<FileSummary>, all: seq<FileSummary>,
                      changes: seq<Change>, unstaged: seq<LineDelta>, staged: seq<LineDelta>)
    requires ListsFiles(listed, changes)
    requires |listed| == |withUnstaged| == |all|
    requires forall i | 0 <= i < |all| :: withUnstaged[i] == WithLines(listed[i], unstaged)
    requires forall i | 0 <= i < |all| :: all[i] == WithLines(withUnstaged[i], staged)
    ensures IsFileList(all, changes, unstaged + staged)
  {
    hide Counted, SummaryOf, LexLess;
    SamePathsKeep(listed, all);
    forall f | f in all ensures f == WithLines(SummaryOf(changes, f.path), unstaged + staged) {
      var i :| 0 <= i < |all| && all[i] == f;
      assert listed[i] in listed;
      WithLinesTwice(listed[i], unstaged, staged);
    }
  }

  lemma TotalsOfFileList(all: seq<FileSummary>, changes: seq<Change>, rows: seq<LineDelta>)
    requires IsFileList(all, changes, rows)
    ensures forall flag: Flag :: Selected(all, flag) == FlaggedPaths(changes, flag)
    ensures forall side: Side :: SumLines(all, side) == Counted(rows, ChangedPaths(changes), side)
  {
    forall flag: Flag ensures Selected(all, flag) == FlaggedPaths(changes, flag) {
      FlagsComeFromChanges(all, changes, rows, flag);
    }
    forall f | f in all ensures CarriesLines(f, rows) {
      assert f == WithLines(SummaryOf(changes, f.path), rows);
    }
    forall side: Side ensures SumLines(all, side) == Counted(rows, ChangedPaths(changes), side) {
      LinesAreConserved(all, rows, side);
    }
  }

  /** The list of files is determined by the changes and the rows. */
  lemma FileListIsUnique(one: seq<FileSummary>, other: seq<FileSummary>, changes: seq<Change>, rows: seq<LineDelta>)
    requires IsFileList(one, changes, rows) && IsFileList(other, changes, rows)
    ensures one == other
  {
    hide WithLines, SummaryOf, LexLess;
    forall f ensures f in one <==> f in other {
      if f in one {
        MemberOfBoth(f, one, other, changes, rows);
      }
      if f in other {
        MemberOfBoth(f, other, one, changes, rows);
      }
    }
    SortedByMembers(one, other);
  }

  lemma MemberOfBoth(f: FileSummary, one: seq<FileSummary>, other: seq<FileSummary>, changes: seq<Change>,
                     rows: seq<LineDelta>)
    requires IsFileList(one, changes, rows) && IsFileList(other, changes, rows) && f in one
    ensures f in other
  {
    hide WithLines, SummaryOf, LexLess;
    assert f.path in Paths(one);
    var g :| g in other && g.path == f.path;
  }

  lemma {:induction false} SortedByMembers(one: seq<FileSummary>, other: seq<FileSummary>)
    requires StrictlySorted(one) && StrictlySorted(other)
    requires forall f :: f in one <==> f in other
    ensures one == other
  {
    if one != [] && other != [] {
      assert one[0] in other;
      assert other[0] in one;
      var i :| 0 <= i < |other| && other[i] == one[0];
      var j :| 0 <= j < |one| && one[j] == other[0];
      if i > 0 && j > 0 {
        LexTotal(one[0].path, other[0].path);
      }
      forall f ensures f in one[1..] <==> f in other[1..] {
        TailWithoutHead(one, f);
        TailWithoutHead(other, f);
      }
      SortedByMembers(one[1..], other[1..]);
      assert one == [one[0]] + one[1..] && other == [other[0]] + other[1..];
    } else {
      assert one == other by {
        if one != [] {
          HeadIsMember(one);
        }
        if other != [] {
          HeadIsMember(other);
        }
      }
    }
  }

  lemma HeadIsMember(files: seq<FileSummary>)
    requires files != []
    ensures files[0] in files
  {
  }

  lemma TailWithoutHead(files: seq<FileSummary>, f: FileSummary)
    requires StrictlySorted(files) && files != []
    ensures f in files[1..] <==> f in files && f != files[0]
  {
    if f in files[1..] {
      var i :| 1 <= i < |files| && files[i] == f;
      DistinctPaths(files, 0, i);
    }
  }

  // ------------------------------------------------------------------------- in words

  lemma {:induction false} DropUnknownMeans(kinds: seq<Status>) returns (n: nat)
    ensures n <= |kinds| && DropUnknown(kinds) == kinds[n..]
    ensures forall i | 0 <= i < n :: kinds[i] == Unknown
    ensures n < |kinds| ==> kinds[n] != Unknown
  {
    n := 0;
    if kinds != [] && kinds[0] == Unknown {
      var m := DropUnknownMeans(kinds[1..]);
      n := m + 1;
      assert forall i | 1 <= i < n :: kinds[i] == kinds[1..][i - 1];
    }
  }

  /** A conflict wins; changes of unknown kind in front do not count; the others agree, or the
      file is modified. */
  lemma StatusMeans(kinds: seq<Status>)
    ensures (exists i | 0 <= i < |kinds| :: kinds[i] == Conflicted) ==> StatusOf(kinds) == Conflicted
    ensures (forall i | 0 <= i < |kinds| :: kinds[i] == Unknown) ==> StatusOf(kinds) == Unknown
    ensures forall n: nat |
              && n < |kinds| && kinds[n] != Unknown && (forall i | 0 <= i < n :: kinds[i] == Unknown)
              && (forall i | 0 <= i < |kinds| :: kinds[i] != Conflicted) ::
              StatusOf(kinds) == if forall i | n <= i < |kinds| :: kinds[i] == kinds[n] then kinds[n] else Modified
  {
    var m := DropUnknownMeans(kinds);
    forall n: nat |
      && n < |kinds| && kinds[n] != Unknown && (forall i | 0 <= i < n :: kinds[i] == Unknown)
      && (forall i | 0 <= i < |kinds| :: kinds[i] != Conflicted)
      ensures StatusOf(kinds) == if forall i | n <= i < |kinds| :: kinds[i] == kinds[n] then kinds[n] else Modified
    {
      assert n == m;
      AlikeFrom(kinds, n);
    }
    hide DropUnknown, AllAlike;
  }

  lemma AlikeFrom(kinds: seq<Status>, n: nat)
    requires n < |kinds|
    ensures AllAlike(kinds[n..]) <==> forall i | n <= i < |kinds| :: kinds[i] == kinds[n]
  {
    var rest := kinds[n..];
    if AllAlike(rest) {
      forall i | n <= i < |kinds| ensures kinds[i] == kinds[n] {
        assert rest[i - n] in rest;
      }
    }
    if forall i | n <= i < |kinds| :: kinds[i] == kinds[n] {
      forall k | k in rest ensures k == rest[0] {
        var i :| 0 <= i < |rest| && rest[i] == k;
        assert kinds[n + i] == kinds[n];
      }
    }
  }

  /** Paths are ordered by their first difference; a path comes before its extensions. */
  lemma {:induction false} LexMeans(a: string, b: string)
    ensures LexLess(a, b) <==>
            exists n: nat :: FirstDifference(a, b, n) && n < |b| && (n == |a| || a[n] < b[n])
  {
    if a != "" && b != "" && a[0] == b[0] {
      LexMeans(a[1..], b[1..]);
      if n: nat :| FirstDifference(a[1..], b[1..], n) && n < |b[1..]| && (n == |a[1..]| || a[1..][n] < b[1..][n]) {
        assert a[..n + 1] == [a[0]] + a[1..][..n] && b[..n + 1] == [b[0]] + b[1..][..n];
        assert FirstDifference(a, b, n + 1);
      }
      if n: nat :| FirstDifference(a, b, n) && n < |b| && (n == |a| || a[n] < b[n]) {
        assert a[..n] == b[..n];
        assert n > 0;
        assert a[1..][..n - 1] == a[..n][1..] && b[1..][..n - 1] == b[..n][1..];
        assert FirstDifference(a[1..], b[1..], n - 1);
      }
    } else {
      assert a[..0] == b[..0] && FirstDifference(a, b, 0);
      if n: nat :| FirstDifference(a, b, n) && n < |b| && (n == |a| || a[n] < b[n]) {
        AgreeInFront(a, b, n);
      }
    }
  }

  lemma AgreeInFront(a: string, b: string, n: nat)
    requires FirstDifference(a, b, n)
    ensures n > 0 ==> a != "" && b != "" && a[0] == b[0]
  {
    if n > 0 {
      assert a[..n][0] == a[0] && b[..n][0] == b[0];
    }
  }

  /** The paths agree up to here. */
  predicate FirstDifference(a: string, b: string, n: nat) { n <= |a| && n <= |b| && a[..n] == b[..n] }

  /** At most five hundred files are listed, and a hundred if nothing is asked. */
  lemma LimitMeans(asked: Option<nat>)
    ensures asked.None? ==> NormalizeMaxFiles(asked) == 100
    ensures asked.Some? && asked.value <= 500 ==> NormalizeMaxFiles(asked) == asked.value
    ensures asked.Some? && asked.value > 500 ==> NormalizeMaxFiles(asked) == 500
  {
  }

  /** Which changes set which flag. */
  lemma FlagsMean(changes: seq<Change>)
    ensures FlaggedPaths(changes, IsStaged) == set c | c in changes && c.area == StagedArea :: c.path
    ensures FlaggedPaths(changes, IsUnstaged) == set c | c in changes && c.area == UnstagedArea :: c.path
    ensures FlaggedPaths(changes, IsUntracked) == set c | c in changes && c.area == UntrackedArea :: c.path
    ensures FlaggedPaths(changes, IsConflicted) == set c | c in changes && c.kind == Conflicted :: c.path
  {
  }

  /** The counts of all rows for these paths, added up; nothing if no such row has a count. */
  function AddedUp(rows: seq<LineDelta>, paths: set<string>, count: LineDelta -> Option<nat>): Option<nat> {
    if exists row | row in rows :: row.path in paths && count(row).Some? then Some(Sum(rows, paths, count)) else None
  }

  function Sum(rows: seq<LineDelta>, paths: set<string>, count: LineDelta -> Option<nat>): nat {
    if rows == [] then 0
    else
      (if rows[0].path in paths && count(rows[0]).Some? then count(rows[0]).value else 0) + Sum(rows[1..], paths, count)
  }

  lemma {:induction false} SumIsLineCount(rows: seq<LineDelta>, paths: set<string>, side: Side,
                                          count: LineDelta -> Option<nat>)
    requires forall row: LineDelta :: count(row) == row.Lines(side)
    ensures Sum(rows, paths, count) == LineCount(rows, paths, side)
  {
    if rows != [] {
      SumIsLineCount(rows[1..], paths, side, count);
      LineCountAppend([rows[0]], rows[1..], paths, side);
      assert [rows[0]] + rows[1..] == rows;
      assert [rows[0]][..0] == [];
    }
  }

  /** What is counted on either side. */
  lemma CountsMean(rows: seq<LineDelta>, paths: set<string>)
    ensures Counted(rows, paths, Additions) == AddedUp(rows, paths, (row: LineDelta) => row.additions)
    ensures Counted(rows, paths, Deletions) == AddedUp(rows, paths, (row: LineDelta) => row.deletions)
  {
    SumIsLineCount(rows, paths, Additions, (row: LineDelta) => row.additions);
    SumIsLineCount(rows, paths, Deletions, (row: LineDelta) => row.deletions);
  }

  lemma TotalsMean(totals: Totals, changes: seq<Change>, rows: seq<LineDelta>)
    requires forall flag: Flag :: totals.Count(flag) == |FlaggedPaths(changes, flag)|
    requires forall side: Side :: totals.Lines(side) == Counted(rows, ChangedPaths(changes), side)
    ensures totals.stagedCount == |set c | c in changes && c.area == StagedArea :: c.path|
    ensures totals.unstagedCount == |set c | c in changes && c.area == UnstagedArea :: c.path|
    ensures totals.untrackedCount == |set c | c in changes && c.area == UntrackedArea :: c.path|
    ensures totals.conflictedCount == |set c | c in changes && c.kind == Conflicted :: c.path|
    ensures totals.totalAdditions
         == AddedUp(rows, set c | c in changes :: c.path, (row: LineDelta) => row.additions)
    ensures totals.totalDeletions
         == AddedUp(rows, set c | c in changes :: c.path, (row: LineDelta) => row.deletions)
  {
    FlagsMean(changes);
    CountsMean(rows, ChangedPaths(changes));
    hide FlaggedPaths, Counted, AddedUp;
    assert totals.stagedCount == totals.Count(IsStaged) && totals.unstagedCount == totals.Count(IsUnstaged);
    assert totals.untrackedCount == totals.Count(IsUntracked) && totals.conflictedCount == totals.Count(IsConflicted);
    assert totals.totalAdditions == totals.Lines(Additions) && totals.totalDeletions == totals.Lines(Deletions);
  }

  /** A listed file: its flags tell the areas and conflicts of the changes of its path, its
      status is that of their kinds, and its lines are those of the rows for its path. */
  lemma FileMeans(all: seq<FileSummary>, changes: seq<Change>, rows: seq<LineDelta>, f: FileSummary)
    requires IsFileList(all, changes, rows) && f in all
    ensures f.staged <==> exists c | c in changes :: c.path == f.path && c.area == StagedArea
    ensures f.unstaged <==> exists c | c in changes :: c.path == f.path && c.area == UnstagedArea
    ensures f.untracked <==> exists c | c in changes :: c.path == f.path && c.area == UntrackedArea
    ensures f.conflicted <==> exists c | c in changes :: c.path == f.path && c.kind == Conflicted
    ensures f.status == StatusOf(KindsAt(changes, f.path))
    ensures f.additions == AddedUp(rows, {f.path}, (row: LineDelta) => row.additions)
    ensures f.deletions == AddedUp(rows, {f.path}, (row: LineDelta) => row.deletions)
  {
    CountsMean(rows, {f.path});
    hide Counted, AddedUp, StatusOf, KindsAt, LexLess;
  }

  /** The kinds of the changes of a path, in order. */
  lemma {:induction false} KindsMean(changes: seq<Change>, path: string) returns (places: seq<nat>)
    ensures forall i, j | 0 <= i < j < |places| :: places[i] < places[j]
    ensures forall k: nat :: k in places <==> k < |changes| && changes[k].path == path
    ensures |KindsAt(changes, path)| == |places|
    ensures forall i | 0 <= i < |places| ::
              places[i] < |changes| && KindsAt(changes, path)[i] == changes[places[i]].kind
  {
    hide KindsAt;
    if changes == [] {
      places := [];
      NoChanges(path);
    } else {
      var n := |changes| - 1;
      var front := KindsMean(changes[..n], path);
      KindsSnoc(changes, path);
      assert forall k: nat | k < n :: changes[..n][k] == changes[k];
      assert forall k: nat :: k in front <==> k < n && changes[k].path == path;
      places := front;
      if changes[n].path == path {
        places := front + [n];
        ListedNext(front, n);
      }
    }
  }

  lemma NoChanges(path: string)
    ensures KindsAt([], path) == []
  {
  }

  lemma KindsSnoc(changes: seq<Change>, path: string)
    requires changes != []
    ensures var front, last := changes[..|changes| - 1], changes[|changes| - 1];
            KindsAt(changes, path)
            == if last.path == path then KindsAt(front, path) + [last.kind] else KindsAt(front, path)
  {
    var front := changes[..|changes| - 1];
    assert KindsAt(front, path) + [] == KindsAt(front, path);
  }

  lemma ListedNext(places: seq<nat>, n: nat)
    requires forall i, j | 0 <= i < j < |places| :: places[i] < places[j]
    requires forall i | 0 <= i < |places| :: places[i] < n
    ensures forall i, j | 0 <= i < j <= |places| :: (places + [n])[i] < (places + [n])[j]
    ensures forall k: nat :: k in places + [n] <==> k in places || k == n
  {
  }
}
