/**
 Reading the log under an epoch ceiling: what one page holds, and what a reader that follows the
 cursor has received.
 */
module GroupFetch {
  import opened Common
  import opened Records
  import opened GroupTransaction
  import opened GroupLog
  import opened ClassMasks

  datatype FetchRequest = FetchRequest(since: nat, limit: nat, headsOnly: bool, classMask: bv32, readEpoch: nat)

  datatype FetchResult = FetchResult(records: seq<Record>, nextRecordId: nat, highWater: nat, complete: bool)

  /** A record on the way out. */
  function ReadRow(row: RecordRow, headsOnly: bool): Record {
    var record := row.record.(pruneAfter := row.pruneAfter);
    if headsOnly then record.(ctBody := None) else record
  }

  function ReadRows(rows: seq<RecordRow>, headsOnly: bool): (records: seq<Record>)
    ensures |records| == |rows|
    ensures forall i :: 0 <= i < |rows| ==> records[i] == ReadRow(rows[i], headsOnly)
  {
    seq(|rows|, i requires 0 <= i < |rows| => ReadRow(rows[i], headsOnly))
  }

  /** The row's own record in every column, with the row's prune time, and its body unless heads alone were asked for. */
  predicate ServedFrom(record: Record, row: RecordRow, headsOnly: bool) {
    && record.(pruneAfter := row.record.pruneAfter, ctBody := row.record.ctBody) == row.record
    && record.pruneAfter == row.pruneAfter
    && record.ctBody == if headsOnly then None else row.record.ctBody
  }

  predicate AllServedFrom(records: seq<Record>, rows: seq<RecordRow>, headsOnly: bool) {
    |records| == |rows| && forall i :: 0 <= i < |rows| ==> ServedFrom(records[i], rows[i], headsOnly)
  }

  lemma RowsAreServed(rows: seq<RecordRow>, headsOnly: bool)
    ensures AllServedFrom(ReadRows(rows, headsOnly), rows, headsOnly)
  {
  }

  predicate Wanted(request: FetchRequest, row: RecordRow) {
    && row.record.epoch <= request.readEpoch
    && request.since < row.record.recordId
    && ClassIncluded(request.classMask, row.record.retentionClass)
  }

  /** Every row the request admits, in log order, whatever its limit. */
  function Selected(rows: seq<RecordRow>, request: FetchRequest): seq<RecordRow> {
    if |rows| == 0 then []
    else
      var rest := Selected(rows[..|rows| - 1], request);
      if Wanted(request, rows[|rows| - 1]) then rest + [rows[|rows| - 1]] else rest
  }

  /** The greatest id at or below the ceiling, and 0 when there is none. */
  function HighWater(rows: seq<RecordRow>, ceiling: nat): nat {
    if |rows| == 0 then 0
    else
      var rest := HighWater(rows[..|rows| - 1], ceiling);
      var last := rows[|rows| - 1].record;
      if last.epoch <= ceiling && rest < last.recordId then last.recordId else rest
  }

  /** Everything admitted, or its first `limit` rows and an answer that says so. */
  function Truncated(admitted: seq<RecordRow>, limit: nat): (seq<RecordRow>, bool) {
    if limit != 0 && limit < |admitted| then (admitted[..limit], true) else (admitted, false)
  }

  function PageOf(rows: seq<RecordRow>, request: FetchRequest): FetchResult {
    var (page, truncated) := Truncated(Selected(rows, request), request.limit);
    FetchResult(ReadRows(page, request.headsOnly),
                if |page| == 0 then request.since else page[|page| - 1].record.recordId,
                HighWater(rows, request.readEpoch), !truncated)
  }

  function Fetch(g: Group, request: FetchRequest): Option<FetchResult> {
    if g.closed then None else Some(PageOf(g.records, request))
  }

  // ---- what a page is, of any rows and any mask ----

  /** Row `k` is one the request admits: within its ceiling, past its cursor, of a class it asks for. */
  predicate Admitted(rows: seq<RecordRow>, request: FetchRequest, k: nat) {
    && k < |rows| && rows[k].record.epoch <= request.readEpoch && request.since < rows[k].record.recordId
    && ClassIncluded(request.classMask, rows[k].record.retentionClass)
  }

  ghost predicate Rising(at: seq<nat>) {
    forall m: nat, n: nat :: m < n < |at| ==> at[m] < at[n]
  }

  /** The rows at these places, in order, are the ones the request admits. */
  ghost predicate SelectedAt(rows: seq<RecordRow>, request: FetchRequest, at: seq<nat>, selected: seq<RecordRow>) {
    && Rising(at) && |at| == |selected|
    && (forall n: nat :: n < |at| ==> Admitted(rows, request, at[n]) && selected[n] == rows[at[n]])
    && (forall k: nat :: Admitted(rows, request, k) ==> k in at)
  }

  lemma {:induction false} SelectedPlaces(rows: seq<RecordRow>, request: FetchRequest) returns (at: seq<nat>)
    ensures SelectedAt(rows, request, at, Selected(rows, request))
  {
    at := [];
    if |rows| != 0 {
      var before := SelectedPlaces(rows[..|rows| - 1], request);
      at := if Wanted(request, rows[|rows| - 1]) then before + [|rows| - 1] else before;
      hide ClassIncluded, Selected, SelectedAt;
      LastSelected(rows, request, before, Selected(rows[..|rows| - 1], request));
      SelectedLast(rows, request);
    }
  }

  lemma SelectedLast(rows: seq<RecordRow>, request: FetchRequest)
    requires |rows| != 0
    ensures var rest := Selected(rows[..|rows| - 1], request);
            Selected(rows, request) == if Wanted(request, rows[|rows| - 1]) then rest + [rows[|rows| - 1]] else rest
  {
  }

  lemma LastSelected(rows: seq<RecordRow>, request: FetchRequest, before: seq<nat>, rest: seq<RecordRow>)
    requires |rows| != 0 && SelectedAt(rows[..|rows| - 1], request, before, rest)
    ensures var n := |rows| - 1;
            if Wanted(request, rows[n]) then SelectedAt(rows, request, before + [n], rest + [rows[n]])
            else SelectedAt(rows, request, before, rest)
  {
    hide ClassIncluded;
    var n := |rows| - 1;
    var at, selected := if Wanted(request, rows[n]) then before + [n] else before, if Wanted(request, rows[n]) then rest + [rows[n]] else rest;
    forall m: nat | m < |at| ensures Admitted(rows, request, at[m]) && selected[m] == rows[at[m]] {
      if m < |before| { assert Admitted(rows[..n], request, before[m]); }
    }
    forall k: nat | Admitted(rows, request, k) ensures k in at {
      if k < n { assert Admitted(rows[..n], request, k) && k in before; } else { assert at[|before|] == n; }
    }
  }

  /** The page serves the first of the admitted rows, in order, and says whether those are all. */
  ghost predicate Pages(rows: seq<RecordRow>, request: FetchRequest, page: FetchResult, at: seq<nat>) {
    && Rising(at) && |at| == |page.records| && (request.limit != 0 ==> |at| <= request.limit)
    && (forall n: nat :: n < |at| ==> Admitted(rows, request, at[n]) && ServedFrom(page.records[n], rows[at[n]], request.headsOnly))
    && (forall k: nat :: Admitted(rows, request, k) ==> k in at || (!page.complete && forall n: nat :: n < |at| ==> at[n] < k))
    && (page.complete <==> forall k: nat :: Admitted(rows, request, k) ==> k in at)
    && (!page.complete ==> request.limit != 0 && |at| == request.limit)
    && page.nextRecordId == if at == [] then request.since else rows[at[|at| - 1]].record.recordId
  }

  /** The greatest id there is at or below the ceiling, whatever else was asked. */
  ghost predicate IsHighWater(rows: seq<RecordRow>, ceiling: nat, top: nat) {
    && (forall k: nat :: k < |rows| && rows[k].record.epoch <= ceiling ==> rows[k].record.recordId <= top)
    && (top != 0 ==> exists k: nat :: k < |rows| && rows[k].record.epoch <= ceiling && rows[k].record.recordId == top)
  }

  lemma {:induction false} HighWaterIsTheGreatest(rows: seq<RecordRow>, ceiling: nat)
    ensures IsHighWater(rows, ceiling, HighWater(rows, ceiling))
  {
    if |rows| != 0 {
      var n := |rows| - 1;
      HighWaterIsTheGreatest(rows[..n], ceiling);
      assert forall k: nat :: k < n ==> rows[..n][k] == rows[k];
    }
  }

  /**
   Every page, of any rows, mask, limit and ceiling: exactly the admitted rows past the cursor, in log
   order, up to the limit, each served column by column; complete exactly when none is left over; the
   cursor at the last of them, and the high water that of the ceiling alone.
   */
  lemma PageIsExactly(rows: seq<RecordRow>, request: FetchRequest) returns (at: seq<nat>)
    ensures Pages(rows, request, PageOf(rows, request), at)
    ensures IsHighWater(rows, request.readEpoch, PageOf(rows, request).highWater)
  {
    hide Selected, HighWater, Admitted, ServedFrom, IsHighWater, Rising, SelectedAt;
    HighWaterIsTheGreatest(rows, request.readEpoch);
    var selected := Selected(rows, request);
    var all := SelectedPlaces(rows, request);
    var page := Truncated(selected, request.limit).0;
    RowsAreServed(page, request.headsOnly);
    SamePlaces(rows, request, all, selected);
    at := all[..|page|];
    FirstPlaces(rows, request, all, selected, |page|);
    forall n: nat | n < |at|
      ensures at[n] < |rows| && Admitted(rows, request, at[n]) && ServedFrom(PageOf(rows, request).records[n], rows[at[n]], request.headsOnly)
    {
      assert at[n] == all[n] && page[n] == selected[n];
    }
  }

  lemma SamePlaces(rows: seq<RecordRow>, request: FetchRequest, all: seq<nat>, selected: seq<RecordRow>)
    requires SelectedAt(rows, request, all, selected)
    ensures |all| == |selected|
    ensures forall n: nat :: n < |all| ==> all[n] < |rows| && Admitted(rows, request, all[n]) && selected[n] == rows[all[n]]
  {
    hide ClassIncluded;
  }

  /** The first of the admitted places: rising, every other admitted one after them, and all of them exactly when none is left. */
  lemma FirstPlaces(rows: seq<RecordRow>, request: FetchRequest, all: seq<nat>, selected: seq<RecordRow>, m: nat)
    requires SelectedAt(rows, request, all, selected) && m <= |all|
    ensures Rising(all[..m])
    ensures forall k: nat :: Admitted(rows, request, k) ==> k in all[..m] || (m < |all| && forall n: nat :: n < m ==> all[..m][n] < k)
    ensures m == |all| <==> forall k: nat :: Admitted(rows, request, k) ==> k in all[..m]
  {
    hide Admitted;
    var at := all[..m];
    forall k: nat | Admitted(rows, request, k) ensures k in at || (m < |all| && forall n: nat :: n < m ==> at[n] < k) {
      var i: nat :| i < |all| && all[i] == k;
      if i < m { assert at[i] == k; }
    }
    if m < |all| { assert Admitted(rows, request, all[m]) && all[m] !in at; }
  }

  // ---- what a page is, in a group of the log's shape ----

  /** Rows with ids 1, 2, ... and epochs that never decrease. */
  ghost predicate Ordered(rows: seq<RecordRow>) {
    && (forall i: nat :: i < |rows| ==> rows[i].record.recordId == i + 1)
    && (forall i: nat, j: nat :: i < j < |rows| ==> rows[i].record.epoch <= rows[j].record.epoch)
  }

  /** The ceiling cuts the log at its high water: a prefix is visible and nothing else is. */
  lemma {:induction false} CeilingCutsAPrefix(rows: seq<RecordRow>, ceiling: nat)
    requires Ordered(rows)
    ensures HighWater(rows, ceiling) <= |rows|
    ensures forall i: nat :: i < |rows| ==> (rows[i].record.epoch <= ceiling <==> i < HighWater(rows, ceiling))
  {
    if |rows| != 0 {
      CeilingCutsAPrefix(rows[..|rows| - 1], ceiling);
    }
  }

  lemma HighWaterSkips(rows: seq<RecordRow>, ceiling: nat)
    requires |rows| != 0 && ceiling < rows[|rows| - 1].record.epoch
    ensures HighWater(rows, ceiling) == HighWater(rows[..|rows| - 1], ceiling)
  {
  }

  lemma NoneSelected(rows: seq<RecordRow>, request: FetchRequest)
    requires |rows| == 0
    ensures Selected(rows, request) == []
  {
  }

  lemma EveryClassWanted(request: FetchRequest, row: RecordRow)
    requires request.classMask == 0
    ensures Wanted(request, row) <==> row.record.epoch <= request.readEpoch && request.since < row.record.recordId
  {
    hide Has;
  }

  /** One more row moves the high water to the end, or leaves it. */
  lemma TopSteps(rows: seq<RecordRow>, ceiling: nat)
    requires Ordered(rows) && |rows| != 0
    ensures var n := |rows| - 1;
            && HighWater(rows[..n], ceiling) <= n
            && (if rows[n].record.epoch <= ceiling then HighWater(rows, ceiling) == n + 1 && HighWater(rows[..n], ceiling) == n
                else HighWater(rows, ceiling) == HighWater(rows[..n], ceiling))
  {
    var n := |rows| - 1;
    CeilingCutsAPrefix(rows, ceiling);
    CeilingCutsAPrefix(rows[..n], ceiling);
    if ceiling < rows[n].record.epoch { HighWaterSkips(rows, ceiling); }
    hide HighWater;
    if n != 0 { assert rows[n - 1].record.epoch <= rows[n].record.epoch && rows[..n][n - 1] == rows[n - 1]; }
  }

  /** The part of a log between a cursor and a mark, and with one row more. */
  function Between(rows: seq<RecordRow>, since: nat, top: nat): seq<RecordRow>
    requires top <= |rows|
  {
    if since <= top then rows[since..top] else []
  }

  lemma BetweenGrows(rows: seq<RecordRow>, since: nat, top: nat)
    requires |rows| != 0 && top <= |rows| - 1
    ensures var n := |rows| - 1;
            && Between(rows, since, top) == Between(rows[..n], since, top)
            && Between(rows, since, n + 1) == Between(rows[..n], since, n) + if since <= n then [rows[n]] else []
  {
  }

  lemma NothingBetween(since: nat)
    ensures Between([], since, 0) == []
  {
  }

  /** With every class asked for, what a page selects is one contiguous run of the log. */
  lemma {:induction false} SelectionIsASlice(rows: seq<RecordRow>, request: FetchRequest)
    requires Ordered(rows) && request.classMask == 0
    ensures HighWater(rows, request.readEpoch) <= |rows|
    ensures Selected(rows, request) == Between(rows, request.since, HighWater(rows, request.readEpoch))
  {
    hide HighWater, Selected, Wanted, Between;
    if |rows| == 0 {
      NoneSelected(rows, request);
      NothingBetween(request.since);
      CeilingCutsAPrefix(rows, request.readEpoch);
    } else {
      var n := |rows| - 1;
      TopSteps(rows, request.readEpoch);
      SelectionIsASlice(rows[..n], request);
      SelectedLast(rows, request);
      EveryClassWanted(request, rows[n]);
      BetweenGrows(rows, request.since, HighWater(rows[..n], request.readEpoch));
    }
  }

  /** How many rows a reader standing at `since` is served when the ceiling shows the first `top`. */
  function PageLength(since: nat, top: nat, limit: nat): nat {
    if top <= since then 0
    else if limit != 0 && limit < top - since then limit
    else top - since
  }

  lemma TruncatedSlice(rows: seq<RecordRow>, since: nat, top: nat, limit: nat)
    requires since <= top <= |rows|
    ensures var k := PageLength(since, top, limit);
            Truncated(rows[since..top], limit) == (rows[since..since + k], k < top - since)
  {
    var k := PageLength(since, top, limit);
    assert rows[since..top][..k] == rows[since..since + k];
  }

  /**
   A page served to a reader standing at `since` is the next rows of the log, up to the ceiling or
   the limit; the cursor moves exactly past them, and a page that is complete ends at its own high
   water unless the reader was already past it.
   */
  lemma PageIsTheNextRows(rows: seq<RecordRow>, request: FetchRequest)
    requires Ordered(rows) && request.classMask == 0 && request.since <= |rows|
    ensures var page := PageOf(rows, request);
            var k := PageLength(request.since, page.highWater, request.limit);
            && page.highWater == HighWater(rows, request.readEpoch)
            && request.since + k <= |rows|
            && AllServedFrom(page.records, rows[request.since..request.since + k], request.headsOnly)
            && page.nextRecordId == request.since + k
            && (page.complete ==> page.nextRecordId == Max(request.since, page.highWater))
            && (request.limit == 0 ==> page.complete)
  {
    hide Selected, HighWater, ReadRows, AllServedFrom, Truncated, ClassIncluded;
    PageRows(rows, request);
    var k := PageLength(request.since, HighWater(rows, request.readEpoch), request.limit);
    RowsAreServed(rows[request.since..request.since + k], request.headsOnly);
  }

  lemma PageRows(rows: seq<RecordRow>, request: FetchRequest)
    requires Ordered(rows) && request.classMask == 0 && request.since <= |rows|
    ensures var top := HighWater(rows, request.readEpoch);
            var k := PageLength(request.since, top, request.limit);
            && top <= |rows| && request.since + k <= |rows|
            && Truncated(Selected(rows, request), request.limit) == (rows[request.since..request.since + k], request.since + k < top)
  {
    hide Selected, HighWater, ClassIncluded;
    SelectionIsASlice(rows, request);
    var top := HighWater(rows, request.readEpoch);
    if request.since <= top {
      TruncatedSlice(rows, request.since, top, request.limit);
    } else {
      assert rows[request.since..request.since] == [];
    }
  }

  lemma ShapeIsOrdered(g: Group)
    requires Gapless(g) && EpochsOrdered(g)
    ensures Ordered(g.records)
  {
    assert forall i: nat :: i < |g.records| ==> At(g, i) == g.records[i].record;
  }

  lemma GroupIsOrdered(g: Group)
    requires GroupInv(g)
    ensures Ordered(g.records)
  {
    ShapeIsOrdered(g);
  }

  lemma ServedOn(a: seq<Record>, b: seq<Record>, rows: seq<RecordRow>, lo: nat, hi: nat, headsOnly: bool)
    requires lo <= hi <= |rows| && AllServedFrom(a, rows[..lo], headsOnly) && AllServedFrom(b, rows[lo..hi], headsOnly)
    ensures AllServedFrom(a + b, rows[..hi], headsOnly)
  {
    hide ServedFrom;
    forall i | 0 <= i < hi ensures ServedFrom((a + b)[i], rows[..hi][i], headsOnly) {
      if i < lo { assert rows[..lo][i] == rows[i]; } else { assert rows[lo..hi][i - lo] == rows[i]; }
    }
  }

  // ---- catching up from nothing ----

  /** The epoch a page tells its reader to move to: the one the commit at `epoch` opens, if it is there. */
  function OpenedBy(page: seq<Record>, epoch: nat): Option<nat> {
    if |page| == 0 then None
    else if page[|page| - 1].isCommit && page[|page| - 1].epoch == epoch then OpensEpoch(page[|page| - 1])
    else OpenedBy(page[..|page| - 1], epoch)
  }

  /** Where a reader that has followed every commit below `epoch` stands. */
  ghost function ReachedAt(g: Group, epoch: nat): nat {
    if 0 < epoch && epoch - 1 in g.commits then g.commits[epoch - 1].recordId else 0
  }

  /** Under a ceiling of `epoch` the log is visible up to the commit that closes it, or to its end. */
  lemma HighWaterAtEpoch(g: Group, epoch: nat)
    requires GroupInv(g) && epoch <= g.currentEpoch
    ensures HighWater(g.records, epoch) == if epoch < g.currentEpoch then ReachedAt(g, epoch + 1) else |g.records|
    ensures ReachedAt(g, epoch) <= HighWater(g.records, epoch) <= |g.records|
  {
    hide PinsMatch, MarkersMatch, KeysMatch, AccountsMatch, SendersMatch, ClaimsMatch;
    ShapeIsOrdered(g);
    CeilingCutsAPrefix(g.records, epoch);
    var top := HighWater(g.records, epoch);
    if epoch < g.currentEpoch {
      var id := g.commits[epoch].recordId;
      assert CommitNames(g, epoch) && ClosesEpoch(g, epoch);
      assert At(g, id - 1).epoch <= epoch;
      if id < |g.records| { assert epoch < At(g, id).epoch; }
    } else if |g.records| > 0 {
      assert At(g, |g.records| - 1).epoch <= g.currentEpoch;
    }
    if epoch != 0 {
      assert CommitNames(g, epoch - 1);
      assert At(g, g.commits[epoch - 1].recordId - 1).epoch <= epoch;
    }
  }

  lemma {:induction false} NoCommitNoEpoch(page: seq<Record>, rows: seq<RecordRow>, epoch: nat)
    requires forall i :: 0 <= i < |rows| ==> !(rows[i].record.isCommit && rows[i].record.epoch == epoch)
    requires AllServedFrom(page, rows, false)
    ensures OpenedBy(page, epoch) == None
  {
    if |rows| != 0 {
      var n := |rows| - 1;
      NoCommitNoEpoch(page[..n], rows[..n], epoch);
      assert ServedFrom(page[n], rows[n], false);
    }
  }

  lemma EpochHasItsCommit(g: Group, epoch: nat)
    requires GroupInv(g) && epoch < g.currentEpoch
    ensures CommitNames(g, epoch) && ClosesEpoch(g, epoch) && EpochRowMatches(g, epoch + 1)
  {
    assert epoch in g.commits && epoch + 1 in g.epochs;
  }

  lemma CommitsInOrder(g: Group, a: nat, b: nat)
    requires Ordered(g.records) && CommitNames(g, a) && CommitNames(g, b) && a < b
    ensures g.commits[a].recordId < g.commits[b].recordId
  {
    assert At(g, g.commits[a].recordId - 1) == g.records[g.commits[a].recordId - 1].record;
    assert At(g, g.commits[b].recordId - 1) == g.records[g.commits[b].recordId - 1].record;
  }

  /** The commit that closes an epoch sits after everything a walker has already been served. */
  lemma CommitIsAhead(g: Group, epoch: nat)
    requires GroupInv(g) && epoch < g.currentEpoch
    ensures CommitNames(g, epoch) && EpochRowMatches(g, epoch + 1)
    ensures ReachedAt(g, epoch) < g.commits[epoch].recordId == ReachedAt(g, epoch + 1)
  {
    hide GroupInv, EpochRowMatches, Ordered;
    GroupIsOrdered(g);
    EpochHasItsCommit(g, epoch);
    if epoch != 0 {
      EpochHasItsCommit(g, epoch - 1);
      CommitsInOrder(g, epoch - 1, epoch);
    }
  }

  lemma PageLeadsOn(g: Group, page: seq<Record>, epoch: nat, lo: nat)
    requires CommitNames(g, epoch) && EpochRowMatches(g, epoch + 1) && lo < g.commits[epoch].recordId
    requires AllServedFrom(page, g.records[lo..g.commits[epoch].recordId], false)
    ensures OpenedBy(page, epoch) == Some(epoch + 1)
  {
    var rows := g.records[lo..g.commits[epoch].recordId];
    assert rows[|rows| - 1].record == At(g, g.commits[epoch].recordId - 1);
    assert ServedFrom(page[|rows| - 1], rows[|rows| - 1], false);
  }

  lemma PageEndsTheWalk(g: Group, page: seq<Record>, lo: nat)
    requires GroupInv(g) && lo <= |g.records| && AllServedFrom(page, g.records[lo..], false)
    ensures OpenedBy(page, g.currentEpoch) == None
  {
    hide ServedFrom;
    var rows := g.records[lo..];
    forall i | 0 <= i < |rows| ensures !(rows[i].record.isCommit && rows[i].record.epoch == g.currentEpoch) {
      assert rows[i].record == At(g, lo + i);
    }
    NoCommitNoEpoch(page, rows, g.currentEpoch);
  }

  /** What a page served at `epoch` tells a walker that stands where it should. */
  lemma PageTellsTheNextEpoch(g: Group, page: seq<Record>, epoch: nat)
    requires GroupInv(g) && epoch <= g.currentEpoch && ReachedAt(g, epoch) <= HighWater(g.records, epoch) <= |g.records|
    requires AllServedFrom(page, g.records[ReachedAt(g, epoch)..HighWater(g.records, epoch)], false)
    ensures OpenedBy(page, epoch) == (if epoch < g.currentEpoch then Some(epoch + 1) else None)
  {
    hide GroupInv, OpenedBy, HighWater, ServedFrom;
    HighWaterAtEpoch(g, epoch);
    if epoch < g.currentEpoch {
      CommitIsAhead(g, epoch);
      PageLeadsOn(g, page, epoch, ReachedAt(g, epoch));
    } else {
      assert g.records[ReachedAt(g, epoch)..] == g.records[ReachedAt(g, epoch)..|g.records|];
      PageEndsTheWalk(g, page, ReachedAt(g, epoch));
    }
  }

  function WalkRequest(cursor: nat, epoch: nat): FetchRequest {
    FetchRequest(cursor, 0, false, 0, epoch)
  }

  /** One round of the walk. */
  lemma WalkStep(g: Group, epoch: nat)
    requires GroupInv(g) && epoch <= g.currentEpoch
    ensures var lo, hi := ReachedAt(g, epoch), HighWater(g.records, epoch);
            var page := PageOf(g.records, WalkRequest(lo, epoch));
            && lo <= hi <= |g.records|
            && page.complete && page.nextRecordId == page.highWater == hi
            && AllServedFrom(page.records, g.records[lo..hi], false)
            && OpenedBy(page.records, epoch) == (if epoch < g.currentEpoch then Some(epoch + 1) else None)
            && hi == if epoch < g.currentEpoch then ReachedAt(g, epoch + 1) else |g.records|
  {
    hide GroupInv, OpenedBy, HighWater, PageOf, ServedFrom;
    HighWaterAtEpoch(g, epoch);
    GroupIsOrdered(g);
    PageIsTheNextRows(g.records, WalkRequest(ReachedAt(g, epoch), epoch));
    PageTellsTheNextEpoch(g, PageOf(g.records, WalkRequest(ReachedAt(g, epoch), epoch)).records, epoch);
  }

  /**
   A member that holds nothing, walking to the present one ceiling at a time and learning each next
   epoch from the commit it was served: it arrives with the whole log, in order, in exactly one
   fetch per epoch, and every page it is served is complete and ends at its own high water.
   */
  method CatchUp(g: Group) returns (received: seq<Record>, fetches: nat, epoch: nat)
    requires GroupInv(g) && !g.closed
    ensures AllServedFrom(received, g.records, false)
    ensures fetches == g.currentEpoch + 1
    ensures epoch == g.currentEpoch
  {
    hide GroupInv, PageOf, HighWater, ServedFrom;
    received, fetches, epoch := [], 0, 0;
    var cursor := 0;
    var following := true;
    while following
      invariant epoch <= g.currentEpoch
      invariant following ==> fetches == epoch && cursor == ReachedAt(g, epoch)
      invariant !following ==> fetches == g.currentEpoch + 1 && cursor == |g.records| && epoch == g.currentEpoch
      invariant cursor <= |g.records| && AllServedFrom(received, g.records[..cursor], false)
      decreases following, g.currentEpoch - epoch
    {
      var page := PageOf(g.records, WalkRequest(cursor, epoch));
      WalkStep(g, epoch);
      ServedOn(received, page.records, g.records, cursor, page.nextRecordId, false);
      received := received + page.records;
      cursor := page.nextRecordId;
      fetches := fetches + 1;
      match OpenedBy(page.records, epoch) {
        case Some(opens) => epoch := opens;
        case None => following := false;
      }
    }
    assert g.records[..|g.records|] == g.records;
  }
}
