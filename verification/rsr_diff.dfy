/** Compliance history and diff reports (src/rsr/diff.rs): the history
    keeps the newest runs first, at most a hundred of them, and a diff
    compares two runs' levels, scores and per-requirement outcomes.

    Map iteration order is unspecified in the source, so the diff picks
    the next requirement id from the ids not yet seen, and its contract
    speaks of every order at once. */
module Diff {
  import opened Wrappers
  import Compliance

  type Level = Compliance.Level

  /** One recorded run. `timestamp` is the clock reading the caller
      supplies. */
  datatype HistoryEntry = HistoryEntry(
    timestamp: string,
    level: Level,
    score: real,
    requirements: map<string, bool>,
    gitCommit: Option<string>)

  datatype ChangeDirection = Improved | Degraded | Unchanged | New

  datatype ChangeType = Fixed | Regressed | New | Removed | Unchanged

  datatype LevelChange = LevelChange(previous: Option<Level>, current: Level, direction: ChangeDirection)

  datatype ScoreChange = ScoreChange(previous: Option<real>, current: real, delta: real, percentageChange: real)

  datatype RequirementChange = RequirementChange(
    requirementId: string,
    previousMet: Option<bool>,
    currentMet: bool,
    changeType: ChangeType)

  datatype DiffSummary = DiffSummary(
    totalRequirements: nat,
    fixed: nat,
    regressed: nat,
    newPassing: nat,
    newFailing: nat,
    unchangedPassing: nat,
    unchangedFailing: nat)

  datatype ComplianceDiff = ComplianceDiff(
    previousTimestamp: Option<string>,
    currentTimestamp: string,
    levelChange: LevelChange,
    scoreChange: ScoreChange,
    requirementChanges: seq<RequirementChange>,
    summary: DiffSummary)

  /** The most entries a history keeps. */
  const MaxEntries: nat := 100

  // ---------------------------------------------------------------------
  // Entries

  /** The id-to-outcome map of a report; a later result for the same id
      replaces an earlier one, as collecting into a map does. */
  function MetMap(results: seq<Compliance.RequirementResult>): map<string, bool>
    decreases |results|
  {
    if results == [] then map[]
    else
      var last := results[|results| - 1];
      MetMap(results[..|results| - 1])[last.requirementId := last.met]
  }

  /** The map records exactly the reported ids, each with the outcome of
      its last result. */
  lemma {:induction false} MetMapRecordsLast(results: seq<Compliance.RequirementResult>)
    ensures forall i :: 0 <= i < |results| ==> results[i].requirementId in MetMap(results)
    ensures forall id :: id in MetMap(results) ==> exists i :: 0 <= i < |results| && results[i].requirementId == id
    ensures forall i :: 0 <= i < |results| && (forall j :: i < j < |results| ==> results[j].requirementId != results[i].requirementId) ==>
      MetMap(results)[results[i].requirementId] == results[i].met
    decreases |results|
  {
    if results != [] {
      var before := results[..|results| - 1];
      MetMapRecordsLast(before);
      assert forall i :: 0 <= i < |before| ==> before[i] == results[i];
    }
  }

  /** The entry `add_entry` records for a report. */
  function EntryOf(report: Compliance.Report, timestamp: string, gitCommit: Option<string>): HistoryEntry {
    HistoryEntry(timestamp, report.level, report.score, MetMap(report.requirements), gitCommit)
  }

  /** The entries after adding `e`: it goes first, and the oldest entry is
      dropped once there are more than `MaxEntries`. */
  function Added(entries: seq<HistoryEntry>, e: HistoryEntry): seq<HistoryEntry> {
    var grown := [e] + entries;
    if |grown| > MaxEntries then grown[..MaxEntries] else grown
  }

  /** Adding puts the entry first, shifts the others back by one, and
      never leaves more than `MaxEntries`; a history within the cap stays
      within it and keeps every entry while there is room. */
  lemma AddedKeepsNewestFirst(entries: seq<HistoryEntry>, e: HistoryEntry)
    ensures var r := Added(entries, e);
      && |r| == (if |entries| + 1 > MaxEntries then MaxEntries else |entries| + 1)
      && r[0] == e
      && (forall i :: 1 <= i < |r| ==> r[i] == entries[i - 1])
  {
  }

  // ---------------------------------------------------------------------
  // Level and score changes

  /** The direction of a level change: new without a previous run,
      otherwise by the levels' order. */
  function DirectionOf(previous: Option<Level>, current: Level): (d: ChangeDirection)
    ensures d == ChangeDirection.New <==> previous.None?
    ensures previous.Some? ==> (d == Improved <==> Compliance.LevelRank(current) > Compliance.LevelRank(previous.value))
    ensures previous.Some? ==> (d == Degraded <==> Compliance.LevelRank(current) < Compliance.LevelRank(previous.value))
    ensures previous.Some? ==> (d == ChangeDirection.Unchanged <==> current == previous.value)
  {
    match previous
    case None => ChangeDirection.New
    case Some(p) =>
      if Compliance.LevelRank(current) > Compliance.LevelRank(p) then Improved
      else if Compliance.LevelRank(current) < Compliance.LevelRank(p) then Degraded
      else ChangeDirection.Unchanged
  }

  function LevelChangeOf(previous: Option<HistoryEntry>, current: HistoryEntry): LevelChange {
    var p := if previous.Some? then Some(previous.value.level) else None;
    LevelChange(p, current.level, DirectionOf(p, current.level))
  }

  /** The score change: the difference to the previous score (to zero
      without one) and the relative change in percent, zero when there is
      no positive previous score. */
  function ScoreChangeOf(previous: Option<HistoryEntry>, current: HistoryEntry): (c: ScoreChange)
    ensures c.current == current.score
    ensures previous.None? ==> c.delta == current.score && c.percentageChange == 0.0
    ensures previous.Some? ==> c.previous == Some(previous.value.score) && c.delta + previous.value.score == current.score
    ensures previous.Some? && previous.value.score > 0.0 ==> c.percentageChange * previous.value.score == c.delta * 100.0
  {
    match previous
    case None => ScoreChange(None, current.score, current.score - 0.0, 0.0)
    case Some(p) =>
      ScoreChange(Some(p.score), current.score, current.score - p.score,
        if p.score > 0.0 then ((current.score - p.score) / p.score) * 100.0 else 0.0)
  }

  /** A rising score has a positive delta and a falling one a negative
      delta. */
  lemma DeltaFollowsScores(previous: HistoryEntry, current: HistoryEntry)
    ensures ScoreChangeOf(Some(previous), current).delta > 0.0 <==> current.score > previous.score
    ensures ScoreChangeOf(Some(previous), current).delta < 0.0 <==> current.score < previous.score
  {
  }

  // ---------------------------------------------------------------------
  // Requirement changes

  /** The change table: no previous outcome is new, no current outcome is
      removed, failing to passing is fixed, passing to failing is
      regressed, and equal outcomes are unchanged; an id in neither run
      has no change. */
  function Classify(previousMet: Option<bool>, currentMet: Option<bool>): (t: Option<ChangeType>)
    ensures t.None? <==> previousMet.None? && currentMet.None?
    ensures t == Some(ChangeType.New) <==> previousMet.None? && currentMet.Some?
    ensures t == Some(Removed) <==> previousMet.Some? && currentMet.None?
    ensures t == Some(Fixed) <==> previousMet == Some(false) && currentMet == Some(true)
    ensures t == Some(Regressed) <==> previousMet == Some(true) && currentMet == Some(false)
    ensures t == Some(ChangeType.Unchanged) <==> previousMet.Some? && previousMet == currentMet
  {
    match (previousMet, currentMet)
    case (None, Some(_)) => Some(ChangeType.New)
    case (None, None) => None
    case (Some(_), None) => Some(Removed)
    case (Some(false), Some(true)) => Some(Fixed)
    case (Some(true), Some(false)) => Some(Regressed)
    case (Some(_), Some(_)) => Some(ChangeType.Unchanged)
  }

  function Lookup(m: map<string, bool>, id: string): Option<bool> {
    if id in m then Some(m[id]) else None
  }

  function PreviousMet(previous: Option<HistoryEntry>, id: string): Option<bool> {
    if previous.Some? then Lookup(previous.value.requirements, id) else None
  }

  /** The change `diff_entries` reports for one id, if any. */
  function ChangeFor(previous: Option<HistoryEntry>, current: HistoryEntry, id: string): Option<RequirementChange> {
    var currentMet := Lookup(current.requirements, id);
    var previousMet := PreviousMet(previous, id);
    match Classify(previousMet, currentMet)
    case None => None
    case Some(t) => Some(RequirementChange(id, previousMet, currentMet.UnwrapOr(false), t))
  }

  /** Every id of either run has a change; a removed requirement reports
      itself as not met, and an id is removed exactly when only the
      previous run has it. */
  lemma ChangeForKnownIds(previous: Option<HistoryEntry>, current: HistoryEntry, id: string)
    requires id in AllIds(previous, current)
    ensures ChangeFor(previous, current, id).Some?
    ensures ChangeFor(previous, current, id).value.requirementId == id
    ensures ChangeFor(previous, current, id).value.changeType == Removed <==> id !in current.requirements
    ensures ChangeFor(previous, current, id).value.changeType == Removed ==> !ChangeFor(previous, current, id).value.currentMet
  {
  }

  /** The ids of either run. */
  function AllIds(previous: Option<HistoryEntry>, current: HistoryEntry): set<string> {
    current.requirements.Keys + (if previous.Some? then previous.value.requirements.Keys else {})
  }

  /** The ids a list of changes is about. */
  ghost function IdsOf(changes: seq<RequirementChange>): set<string> {
    set i | 0 <= i < |changes| :: changes[i].requirementId
  }

  predicate Distinct(changes: seq<RequirementChange>) {
    forall i, j :: 0 <= i < j < |changes| ==> changes[i].requirementId != changes[j].requirementId
  }

  // ---------------------------------------------------------------------
  // The summary

  /** The counters after one more change. */
  function Count(s: DiffSummary, c: RequirementChange): DiffSummary {
    var s' := s.(totalRequirements := s.totalRequirements + 1);
    match c.changeType
    case Fixed => s'.(fixed := s.fixed + 1)
    case Regressed => s'.(regressed := s.regressed + 1)
    case New => if c.currentMet then s'.(newPassing := s.newPassing + 1) else s'.(newFailing := s.newFailing + 1)
    case Unchanged =>
      if c.currentMet then s'.(unchangedPassing := s.unchangedPassing + 1) else s'.(unchangedFailing := s.unchangedFailing + 1)
    case Removed => s'
  }

  const NoChanges := DiffSummary(0, 0, 0, 0, 0, 0, 0)

  /** The summary of a list of changes, counted in order. */
  function Tally(changes: seq<RequirementChange>): DiffSummary
    decreases |changes|
  {
    if changes == [] then NoChanges
    else Count(Tally(changes[..|changes| - 1]), changes[|changes| - 1])
  }

  /** The number of removed requirements among the changes. */
  function RemovedCount(changes: seq<RequirementChange>): nat
    decreases |changes|
  {
    if changes == [] then 0
    else RemovedCount(changes[..|changes| - 1]) + (if changes[|changes| - 1].changeType == Removed then 1 else 0)
  }

  /** Every change is counted once: the total is the number of changes,
      and it is the sum of the six counters and the removed
      requirements, which no counter records. */
  lemma {:induction false} TallyTotal(changes: seq<RequirementChange>)
    ensures Tally(changes).totalRequirements == |changes|
    ensures var s := Tally(changes);
      s.totalRequirements
      == s.fixed + s.regressed + s.newPassing + s.newFailing + s.unchangedPassing + s.unchangedFailing + RemovedCount(changes)
    decreases |changes|
  {
    if changes != [] {
      TallyTotal(changes[..|changes| - 1]);
    }
  }

  // ---------------------------------------------------------------------
  // `diff_entries`

  /** What a diff of `current` against `previous` reports, whatever order
      the ids are visited in: the timestamps, the level and score changes,
      one change per id of either run (those only in the previous run,
      the removed ones, last), and the counters of those changes. */
  ghost predicate Describes(d: ComplianceDiff, previous: Option<HistoryEntry>, current: HistoryEntry) {
    var changes := d.requirementChanges;
    && d.previousTimestamp == (if previous.Some? then Some(previous.value.timestamp) else None)
    && d.currentTimestamp == current.timestamp
    && d.levelChange == LevelChangeOf(previous, current)
    && d.scoreChange == ScoreChangeOf(previous, current)
    && Distinct(changes)
    && IdsOf(changes) == AllIds(previous, current)
    && (forall i :: 0 <= i < |changes| ==> ChangeFor(previous, current, changes[i].requirementId) == Some(changes[i]))
    && (forall i, j :: 0 <= i < j < |changes| && changes[i].changeType == Removed ==> changes[j].changeType == Removed)
    && d.summary == Tally(changes)
  }

  /** The change of each id, as a closure over the two runs. */
  function Changes(previous: Option<HistoryEntry>, current: HistoryEntry): string -> Option<RequirementChange> {
    id => ChangeFor(previous, current, id)
  }

  /** A change function that reports each change under its own id. */
  ghost predicate SelfNamed(change: string -> Option<RequirementChange>) {
    forall x :: change(x).Some? ==> change(x).value.requirementId == x
  }

  /** One pass of the loop of `diff_entries` over a set of ids, visited in
      any order: each id that has a change adds it and counts it. */
  method VisitIds(change: string -> Option<RequirementChange>, ids: set<string>,
                  changes: seq<RequirementChange>, summary: DiffSummary)
    returns (changes': seq<RequirementChange>, summary': DiffSummary)
    requires SelfNamed(change)
    requires summary == Tally(changes)
    ensures |changes'| >= |changes| && changes'[..|changes|] == changes
    ensures Distinct(changes'[|changes|..])
    ensures forall x :: x in IdsOf(changes'[|changes|..]) <==> x in ids && change(x).Some?
    ensures forall i :: |changes| <= i < |changes'| ==> change(changes'[i].requirementId) == Some(changes'[i])
    ensures summary' == Tally(changes')
  {
    changes', summary' := changes, summary;
    var remaining := ids;
    ghost var added: seq<RequirementChange> := [];
    while remaining != {}
      invariant remaining <= ids
      invariant changes' == changes + added
      invariant Visited(change, ids, remaining, added)
      invariant summary' == Tally(changes')
      decreases |remaining|
    {
      var id :| id in remaining;
      var next := change(id);
      VisitStep(change, ids, remaining, added, id);
      if next.Some? {
        var c := next.value;
        TallyStep(changes', c);
        summary' := Count(summary', c);
        changes' := changes' + [c];
        added := added + [c];
      }
      remaining := remaining - {id};
    }
    assert changes'[|changes|..] == added;
    assert changes'[..|changes|] == changes;
  }

  /** `diff_entries`: the ids of the current run first, then those only
      the previous run has. */
  method DiffEntries(previous: Option<HistoryEntry>, current: HistoryEntry) returns (d: ComplianceDiff)
    ensures Describes(d, previous, current)
  {
    var levelChange := LevelChangeOf(previous, current);
    var scoreChange := ScoreChangeOf(previous, current);
    var currentIds := current.requirements.Keys;
    var previousIds := if previous.Some? then previous.value.requirements.Keys else {};
    var change := Changes(previous, current);
    ChangesKnown(previous, current);
    var changes, summary := VisitIds(change, currentIds, [], NoChanges);
    ghost var first := changes;
    changes, summary := VisitIds(change, previousIds - currentIds, changes, summary);
    ghost var second := changes[|first|..];
    assert changes == first + second;
    Halves(change, currentIds, previousIds, first, second);
    d := ComplianceDiff(
      if previous.Some? then Some(previous.value.timestamp) else None,
      current.timestamp,
      levelChange,
      scoreChange,
      changes,
      summary);
  }

  /** What the two passes rely on about the change of each id. */
  lemma ChangesKnown(previous: Option<HistoryEntry>, current: HistoryEntry)
    ensures SelfNamed(Changes(previous, current))
    ensures AllIds(previous, current) == current.requirements.Keys + (if previous.Some? then previous.value.requirements.Keys else {})
    ensures forall x :: x in AllIds(previous, current) ==> Changes(previous, current)(x).Some?
    ensures forall x :: Changes(previous, current)(x).Some? ==>
      (Changes(previous, current)(x).value.changeType == Removed <==> x !in current.requirements)
  {
    forall x | Changes(previous, current)(x).Some?
      ensures Changes(previous, current)(x).value.requirementId == x
      ensures Changes(previous, current)(x).value.changeType == Removed <==> x !in current.requirements
    {
      assert x in AllIds(previous, current);
      ChangeForKnownIds(previous, current, x);
    }
    forall x | x in AllIds(previous, current) ensures Changes(previous, current)(x).Some? {
      ChangeForKnownIds(previous, current, x);
    }
  }

  /** The two passes of `diff_entries` together cover every id once, the
      removed ones last. */
  lemma Halves(change: string -> Option<RequirementChange>, currentIds: set<string>, previousIds: set<string>,
               first: seq<RequirementChange>, second: seq<RequirementChange>)
    requires forall x :: x in currentIds + previousIds ==> change(x).Some?
    requires forall x :: change(x).Some? ==> (change(x).value.changeType == Removed <==> x !in currentIds)
    requires Distinct(first) && Distinct(second)
    requires forall x :: x in IdsOf(first) <==> x in currentIds && change(x).Some?
    requires forall x :: x in IdsOf(second) <==> x in previousIds - currentIds && change(x).Some?
    requires forall i :: 0 <= i < |first| ==> change(first[i].requirementId) == Some(first[i])
    requires forall i :: 0 <= i < |second| ==> change(second[i].requirementId) == Some(second[i])
    ensures Distinct(first + second)
    ensures IdsOf(first + second) == currentIds + previousIds
    ensures forall i :: 0 <= i < |first + second| ==> change((first + second)[i].requirementId) == Some((first + second)[i])
    ensures forall i, j :: 0 <= i < j < |first + second| && (first + second)[i].changeType == Removed ==>
      (first + second)[j].changeType == Removed
  {
    var all := first + second;
    IdsOfConcat(first, second);
    forall i | 0 <= i < |all| ensures change(all[i].requirementId) == Some(all[i]) && (all[i].changeType == Removed <==> i >= |first|) {
      if i < |first| {
        assert all[i] == first[i];
        assert all[i].requirementId in IdsOf(first);
      } else {
        assert all[i] == second[i - |first|];
        assert all[i].requirementId in IdsOf(second);
      }
    }
    forall i, j | 0 <= i < j < |all| ensures all[i].requirementId != all[j].requirementId {
      if j < |first| {
        assert all[i] == first[i] && all[j] == first[j];
      } else if i >= |first| {
        assert all[i] == second[i - |first|] && all[j] == second[j - |first|];
      } else {
        assert all[i] == first[i] && all[j] == second[j - |first|];
        assert all[i].requirementId in IdsOf(first);
        assert all[j].requirementId in IdsOf(second);
      }
    }
  }

  lemma IdsOfConcat(a: seq<RequirementChange>, b: seq<RequirementChange>)
    ensures IdsOf(a + b) == IdsOf(a) + IdsOf(b)
  {
    var all := a + b;
    forall x ensures x in IdsOf(all) <==> x in IdsOf(a) || x in IdsOf(b) {
      if x in IdsOf(all) {
        var i :| 0 <= i < |all| && all[i].requirementId == x;
        if i < |a| {
          assert a[i] == all[i];
        } else {
          assert b[i - |a|] == all[i];
        }
      }
      if x in IdsOf(a) {
        var i :| 0 <= i < |a| && a[i].requirementId == x;
        assert all[i] == a[i];
      }
      if x in IdsOf(b) {
        var i :| 0 <= i < |b| && b[i].requirementId == x;
        assert all[|a| + i] == b[i];
      }
    }
  }

  /** The loop invariant of `VisitIds`: the changes added so far are
      those of the visited ids, once each. */
  ghost predicate Visited(change: string -> Option<RequirementChange>, ids: set<string>, remaining: set<string>,
                          added: seq<RequirementChange>) {
    && Distinct(added)
    && (forall x :: x in IdsOf(added) <==> x in ids && x !in remaining && change(x).Some?)
    && (forall i :: 0 <= i < |added| ==> change(added[i].requirementId) == Some(added[i]))
  }

  lemma VisitStep(change: string -> Option<RequirementChange>, ids: set<string>, remaining: set<string>,
                  added: seq<RequirementChange>, id: string)
    requires SelfNamed(change) && id in remaining && remaining <= ids && Visited(change, ids, remaining, added)
    ensures change(id).None? ==> Visited(change, ids, remaining - {id}, added)
    ensures change(id).Some? ==> Visited(change, ids, remaining - {id}, added + [change(id).value])
  {
    if change(id).Some? {
      var c := change(id).value;
      var grown := added + [c];
      IdsOfSnoc(added, c);
      assert c.requirementId == id;
      forall x ensures x in IdsOf(grown) <==> x in ids && x !in remaining - {id} && change(x).Some? {
      }
      forall i | 0 <= i < |grown| ensures change(grown[i].requirementId) == Some(grown[i]) {
        if i < |added| {
          assert grown[i] == added[i];
        }
      }
      forall i, j | 0 <= i < j < |grown| ensures grown[i].requirementId != grown[j].requirementId {
        assert grown[i] == added[i];
        if j == |added| {
          assert added[i].requirementId in IdsOf(added);
        } else {
          assert grown[j] == added[j];
        }
      }
    }
  }

  lemma TallyStep(changes: seq<RequirementChange>, c: RequirementChange)
    ensures Tally(changes + [c]) == Count(Tally(changes), c)
  {
    assert (changes + [c])[..|changes|] == changes;
  }

  lemma IdsOfSnoc(changes: seq<RequirementChange>, c: RequirementChange)
    ensures IdsOf(changes + [c]) == IdsOf(changes) + {c.requirementId}
  {
    var all := changes + [c];
    forall x ensures x in IdsOf(all) <==> x in IdsOf(changes) || x == c.requirementId {
      if x in IdsOf(all) {
        var i :| 0 <= i < |all| && all[i].requirementId == x;
        if i < |changes| {
          assert changes[i] == all[i];
        }
      }
      if x in IdsOf(changes) {
        var i :| 0 <= i < |changes| && changes[i].requirementId == x;
        assert all[i] == changes[i];
      }
      if x == c.requirementId {
        assert all[|changes|] == c;
      }
    }
  }

  /** A distinct list of changes has as many changes as ids. */
  lemma {:induction false} DistinctCount(changes: seq<RequirementChange>)
    requires Distinct(changes)
    ensures |IdsOf(changes)| == |changes|
    decreases |changes|
  {
    if changes != [] {
      var before := changes[..|changes| - 1];
      var last := changes[|changes| - 1].requirementId;
      DistinctCount(before);
      assert IdsOf(changes) == IdsOf(before) + {last} by {
        forall id ensures id in IdsOf(changes) <==> id in IdsOf(before) || id == last {
          if id in IdsOf(changes) {
            var i :| 0 <= i < |changes| && changes[i].requirementId == id;
            if i < |before| {
              assert before[i] == changes[i];
            }
          }
          if id in IdsOf(before) {
            var i :| 0 <= i < |before| && before[i].requirementId == id;
            assert changes[i] == before[i];
          }
        }
      }
      assert last !in IdsOf(before);
    }
  }

  /** A diff counts each id of either run exactly once. */
  lemma DiffCountsEveryId(d: ComplianceDiff, previous: Option<HistoryEntry>, current: HistoryEntry)
    requires Describes(d, previous, current)
    ensures d.summary.totalRequirements == |d.requirementChanges| == |AllIds(previous, current)|
  {
    DistinctCount(d.requirementChanges);
    TallyTotal(d.requirementChanges);
  }

  /** The module's own tests: a requirement that went from failing to
      passing while the level rose is one fix in an improving diff, and
      the reverse is one regression in a degrading diff. */
  lemma DocumentedDiffs(d: ComplianceDiff, previous: HistoryEntry, current: HistoryEntry, id: string)
    requires Describes(d, Some(previous), current)
    requires id in current.requirements && current.requirements.Keys == {id}
    requires previous.requirements == map[id := !current.requirements[id]]
    ensures Compliance.LevelRank(current.level) > Compliance.LevelRank(previous.level) ==> d.levelChange.direction == Improved
    ensures Compliance.LevelRank(current.level) < Compliance.LevelRank(previous.level) ==> d.levelChange.direction == Degraded
    ensures current.requirements[id] ==> d.summary.fixed == 1 && d.summary.regressed == 0
    ensures !current.requirements[id] ==> d.summary.regressed == 1 && d.summary.fixed == 0
  {
    var changes := d.requirementChanges;
    DiffCountsEveryId(d, Some(previous), current);
    assert AllIds(Some(previous), current) == {id};
    assert |changes| == 1;
    assert changes[0].requirementId in IdsOf(changes);
    assert changes == [changes[0]];
    assert Tally(changes) == Count(NoChanges, changes[0]);
  }

  // ---------------------------------------------------------------------
  // The history

  class ComplianceHistory {
    /** Newest first. */
    var entries: seq<HistoryEntry>

    /** `new`: an empty history. */
    constructor()
      ensures entries == []
    {
      entries := [];
    }

    /** `add_entry`: record the report, newest first, keeping at most
        `MaxEntries` entries. */
    method AddEntry(report: Compliance.Report, timestamp: string, gitCommit: Option<string>)
      modifies this
      ensures entries == Added(old(entries), EntryOf(report, timestamp, gitCommit))
    {
      var entry := EntryOf(report, timestamp, gitCommit);
      entries := [entry] + entries;
      if |entries| > MaxEntries {
        entries := entries[..MaxEntries];
      }
    }

    /** `latest`: the first entry, if any. */
    function Latest(): (r: Option<HistoryEntry>)
      reads this
      ensures r.None? <==> entries == []
      ensures r.Some? ==> r.value == entries[0]
    {
      if entries == [] then None else Some(entries[0])
    }

    /** `previous`: the second entry, if any. */
    function Previous(): (r: Option<HistoryEntry>)
      reads this
      ensures r.None? <==> |entries| < 2
      ensures r.Some? ==> r.value == entries[1]
    {
      if |entries| < 2 then None else Some(entries[1])
    }

    /** `diff_latest`: no diff for an empty history, otherwise the diff of
        the latest entry against the one before it, if any. */
    method DiffLatest() returns (d: Option<ComplianceDiff>)
      ensures d.None? <==> entries == []
      ensures d.Some? ==> Describes(d.value, Previous(), entries[0])
    {
      var current := Latest();
      if current.None? {
        return None;
      }
      var diff := DiffEntries(Previous(), current.value);
      d := Some(diff);
    }

    /** `trend`: the timestamps and scores of the newest `count` entries,
        newest first. */
    function Trend(count: nat): (r: seq<(string, real)>)
      reads this
      ensures |r| == (if count < |entries| then count else |entries|)
      ensures forall i :: 0 <= i < |r| ==> r[i] == (entries[i].timestamp, entries[i].score)
    {
      var n := if count < |entries| then count else |entries|;
      TrendOf(entries, n)
    }
  }

  /** The first `n` entries as (timestamp, score) pairs. */
  function TrendOf(entries: seq<HistoryEntry>, n: nat): (r: seq<(string, real)>)
    requires n <= |entries|
    ensures |r| == n && forall i :: 0 <= i < n ==> r[i] == (entries[i].timestamp, entries[i].score)
  {
    if n == 0 then [] else TrendOf(entries, n - 1) + [(entries[n - 1].timestamp, entries[n - 1].score)]
  }

  /** After an entry is added it is the latest one, and the entry that was
      latest before is the previous one. */
  lemma AddThenLatest(entries: seq<HistoryEntry>, e: HistoryEntry)
    ensures Added(entries, e)[0] == e
    ensures entries != [] ==> |Added(entries, e)| >= 2 && Added(entries, e)[1] == entries[0]
  {
    AddedKeepsNewestFirst(entries, e);
  }
}
