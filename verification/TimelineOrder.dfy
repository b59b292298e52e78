/** The order in which the timeline is shown: by the time of each entry, then by its id.
    It is the order of the log exactly if no status change read an earlier clock than
    the entries it was added to. */
module TimelineOrder {
  import opened Common
  import opened Workflow
  import opened Procurement
  import opened Commands
  import opened Effects
  import opened Lifecycle
  import opened Timeline
  import opened Sorting

  /** Ids of the entries on the timeline. */
  function Ids(log: seq<LogEntry>): (ids: seq<nat>)
    ensures forall i :: i in ids <==> 0 <= i < |log| && OnTimeline(log[i])
    ensures forall j, k :: 0 <= j < k < |ids| ==> ids[j] < ids[k]
  {
    if log == [] then []
    else
      var n := |log| - 1;
      var before := Ids(log[..n]);
      assert forall k :: 0 <= k < |before| ==> before[k] in before;
      before + if OnTimeline(log[n]) then [n] else []
  }

  /** ORDER BY operated_at, log_id */
  function Earlier(log: seq<LogEntry>): (nat, nat) -> bool {
    (i: nat, j: nat) =>
      i < |log| && j < |log| && (log[i].at < log[j].at || (log[i].at == log[j].at && i < j))
  }

  /** The timeline as it is shown. */
  function Display(log: seq<LogEntry>): seq<LogEntry> {
    var ids := Sort(Earlier(log), Ids(log));
    SameMultisetSameElements(Ids(log), ids);
    seq(|ids|, k requires 0 <= k < |ids| => assert ids[k] in ids; log[ids[k]])
  }

  /** No entry of the timeline is earlier than one before it. */
  predicate Chronological(log: seq<LogEntry>) {
    forall i, j :: 0 <= i < j < |log| && OnTimeline(log[i]) && OnTimeline(log[j]) ==> log[i].at <= log[j].at
  }

  lemma {:induction false} TimelineById(log: seq<LogEntry>)
    ensures |TimelineOf(log)| == |Ids(log)|
    ensures forall k :: 0 <= k < |Ids(log)| ==> Ids(log)[k] < |log| && TimelineOf(log)[k] == log[Ids(log)[k]]
  {
    if log != [] {
      var n := |log| - 1;
      TimelineById(log[..n]);
      assert forall i :: i in Ids(log[..n]) ==> i < n;
    }
  }

  lemma EarlierIsTotal(log: seq<LogEntry>)
    ensures StrictTotal(Earlier(log), Elements(Ids(log)))
  {}

  /** In log order the ids are already sorted if the clocks agree. */
  lemma ChronologicalIsSorted(log: seq<LogEntry>)
    requires Chronological(log)
    ensures Sort(Earlier(log), Ids(log)) == Ids(log)
  {
    var ids, domain := Ids(log), Elements(Ids(log));
    EarlierIsTotal(log);
    SortOrdered(Earlier(log), domain, ids);
    forall j, k | 0 <= j < k < |ids| ensures Earlier(log)(ids[j], ids[k]) { assert ids[j] in ids && ids[k] in ids; }
    OrderedIsUnique(Earlier(log), domain, ids, Sort(Earlier(log), ids));
  }

  /** What is shown is ordered by time. */
  lemma DisplayAscends(log: seq<LogEntry>)
    ensures |Display(log)| == |Ids(log)|
    ensures forall j, k :: 0 <= j < k < |Display(log)| ==> Display(log)[j].at <= Display(log)[k].at
  {
    hide Ids, Sort;
    EarlierIsTotal(log);
    SortOrdered(Earlier(log), Elements(Ids(log)), Ids(log));
    var ids := Sort(Earlier(log), Ids(log));
    forall j, k | 0 <= j < k < |ids| ensures Display(log)[j].at <= Display(log)[k].at {
      assert Earlier(log)(ids[j], ids[k]);
    }
  }

  /** The timeline is shown in log order if and only if the clocks agree with it. */
  lemma DisplayExactly(log: seq<LogEntry>)
    ensures Display(log) == TimelineOf(log) <==> Chronological(log)
  {
    hide Sort, TimelineOf, OnTimeline, Display;
    TimelineById(log);
    DisplayAscends(log);
    if Chronological(log) { SortedDisplay(log); }
    if Display(log) == TimelineOf(log) {
      forall i, j | 0 <= i < j < |log| && OnTimeline(log[i]) && OnTimeline(log[j]) ensures log[i].at <= log[j].at {
        assert i in Ids(log) && j in Ids(log);
        var a :| 0 <= a < |Ids(log)| && Ids(log)[a] == i;
        var b :| 0 <= b < |Ids(log)| && Ids(log)[b] == j;
        assert a < b;
      }
    }
  }

  lemma SortedDisplay(log: seq<LogEntry>)
    requires Chronological(log)
    ensures Display(log) == TimelineOf(log)
  {
    hide Sort, TimelineOf, OnTimeline, Chronological, Ids;
    ChronologicalIsSorted(log);
    TimelineById(log);
  }

  /** Two entries with the clock turned back in between. */
  lemma TwoReversed(a: LogEntry, b: LogEntry)
    requires OnTimeline(a) && OnTimeline(b) && b.at < a.at
    ensures TimelineOf([a, b]) == [a, b] && Display([a, b]) == [b, a]
  {
    hide OnTimeline, Sort, TimelineOf, Ids;
    PairIds(a, b);
    SortedPair(Earlier([a, b]), 0, 1);
    TimelineById([a, b]);
  }

  lemma PairIds(a: LogEntry, b: LogEntry)
    requires OnTimeline(a) && OnTimeline(b)
    ensures Ids([a, b]) == [0, 1]
  {
    hide OnTimeline;
    assert [a, b][..1] == [a] && [a][..0] == [];
    assert Ids([a]) == [0];
  }

  lemma SortedPair(less: (nat, nat) -> bool, x: nat, y: nat)
    requires less(y, x)
    ensures Sort(less, [x, y]) == [y, x]
  {
    assert [x, y][..1] == [x] && [x][..0] == [];
    assert Sort(less, [x]) == [x];
  }

  /** The clock of a status change is behind an entry that is already on the timeline. */
  predicate ClockIsBehind(c: Call, s: Aggregate) {
    OperationOf(c.command).Some? &&
      exists i :: 0 <= i < |s.log| && OnTimeline(s.log[i]) && c.world.now < s.log[i].at
  }

  /** One command upsets the order if and only if its clock is behind. */
  lemma StepKeepsOrderExactly(c: Call, s: Aggregate, used: set<string>, t: Aggregate)
    requires Exec(c, s, used) == Ok(t)
    ensures Chronological(t.log) <==> Chronological(s.log) && !ClockIsBehind(c, s)
  {
    hide Exec, LegacyToken, Edge, NeedsWarehouse, LeadsTo, ValidateActor;
    ExecEffects(c, s, t, used);
    var n := |s.log|;
    assert forall i :: 0 <= i < n ==> t.log[i] == s.log[i];
    if OperationOf(c.command).Some? { MovesChangeStatus(OperationOf(c.command).value, s, t.request.status); }
  }

  /** Every successful status change of the run reads a clock that is not behind. */
  predicate ClocksAdvance(s: Aggregate, turns: seq<Turn>) {
    forall k :: 0 <= k < |turns| ==> var u := Run(s, turns[..k]);
      Exec(turns[k].call, u, turns[k].used).Ok? ==> !ClockIsBehind(turns[k].call, u)
  }

  /** Over every run from create_draft: the timeline is shown in the order in which
      things happened if and only if the clocks advance. */
  lemma {:induction false} ShownInOrderExactly(w: World, actor: nat, id: nat, building: nat, s: Aggregate,
                                               turns: seq<Turn>)
    requires NewRequest(w, actor, id, building) == Ok(s)
    ensures Display(Run(s, turns).log) == TimelineOf(Run(s, turns).log) <==> ClocksAdvance(s, turns)
  {
    hide Exec, NewRequest, ClockIsBehind, Chronological, Display, TimelineOf;
    DisplayExactly(Run(s, turns).log);
    if turns == [] { FreshIsChronological(w, actor, id, building, s); }
    else {
      var n := |turns| - 1;
      var front, last := turns[..n], turns[n];
      assert forall k :: 0 <= k < n ==> front[k] == turns[k] && front[..k] == turns[..k];
      ShownInOrderExactly(w, actor, id, building, s, front);
      DisplayExactly(Run(s, front).log);
      var u := Run(s, front);
      var r := Exec(last.call, u, last.used);
      if r.Ok? { StepKeepsOrderExactly(last.call, u, last.used, r.value); }
      assert ClocksAdvance(s, turns) <==> ClocksAdvance(s, front) && (r.Ok? ==> !ClockIsBehind(last.call, u));
    }
  }

  lemma FreshIsChronological(w: World, actor: nat, id: nat, building: nat, s: Aggregate)
    requires NewRequest(w, actor, id, building) == Ok(s)
    ensures Chronological(s.log)
  {}

  /** So with clocks that advance, what is shown is a path from the draft to the
      current status. */
  lemma ShownIsPath(w: World, actor: nat, id: nat, building: nat, s: Aggregate, turns: seq<Turn>)
    requires NewRequest(w, actor, id, building) == Ok(s) && ClocksAdvance(s, turns)
    ensures var t := Run(s, turns); var shown := Display(t.log);
      && shown != [] && Starts(shown[0], t.request.applicant)
      && (forall k :: 0 < k < |shown| ==> Follows(shown[k - 1], shown[k]))
      && shown[|shown| - 1].to == t.request.status && shown[|shown| - 1].assignedTo == t.request.handler
  {
    hide Run, NewRequest, ClocksAdvance, Display, TimelineOf, Starts, Follows;
    RunTimeline(w, actor, id, building, s, turns);
    ShownInOrderExactly(w, actor, id, building, s, turns);
  }
}
