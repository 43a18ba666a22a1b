// The batch executor: announce the calls, answer the known ones from their
// rows, run the reads in parallel, then the writes under an undo log, then the
// emails, then report.  Wherever it is killed, the store's history stays one
// the protocol allows.
module ToolBatch {
  import opened Events
  import opened Protocol
  import opened Invariant
  import opened History
  import opened Checking
  import opened Database
  import opened Guard
  import opened Workspace
  import opened Executor
  import opened Batch
  import opened Memory
  import opened Resume

  type Ordered = array<Option<ToolResult>>

  // Inside a batch, with the results so far and the rows in line.
  ghost predicate InResults(cfg: Config, db: AgentDatabase, step: nat, calls: seq<Call>, ordered: Ordered)
    reads db, ordered
  {
    InBatch(cfg, db, step, calls) && ordered.Length == |calls|
    && Backed(calls, ordered[..], db.execs) && Unseen(calls, ordered[..], db.execs)
  }

  predicate IsSideKey(k: Key) { k.EmailKey? || k.call.tool == WriteFile }

  // The rows of writes and emails are as they were.
  ghost predicate SideRowsKept(execs: map<Key, Exec>, execs': map<Key, Exec>) {
    forall k :: IsSideKey(k) ==> (k in execs' <==> k in execs) && (k in execs ==> execs'[k] == execs[k])
  }

  lemma StartAllowed(cfg: Config, d: Durable, index: nat)
    requires Executing(cfg, d) && index < |d.row.pending| && d.row.step > 0
    ensures MayLog(cfg, d, Started(d.row.step, index, d.row.pending[index]))
  {
  }

  lemma StartsGrow(log: seq<Event>, step: nat, calls: seq<Call>, index: nat)
    requires index < |calls| && AllStarted(log, step, calls[..index])
    ensures AllStarted(Insert(log, Started(step, index, calls[index])), step, calls[..index + 1])
  {
    var e := Started(step, index, calls[index]);
    hide AllStarted, Logged;
    InsertKeeps(log, e);
    StartsKept(log, Insert(log, e), step, calls[..index]);
    StartsMore(Insert(log, e), step, calls, index);
  }

  // The log after the starts of a batch.
  function WithStarts(log: seq<Event>, step: nat, calls: seq<Call>): seq<Event> {
    if calls == [] then log
    else
      var n := |calls| - 1;
      Insert(WithStarts(log, step, calls[..n]), Started(step, n, calls[n]))
  }

  // What that adds: for each call whose start was not logged, its start, in
  // the order of the batch.
  lemma {:induction false} StartsLogged(log: seq<Event>, step: nat, calls: seq<Call>)
    ensures var log' := WithStarts(log, step, calls);
      && log <= log' && (forall i :: 0 <= i < |calls| ==> Logged(log', StartSlot(step, i, KeyOf(calls[i]))))
      && (forall p :: |log| <= p < |log'| ==>
            && log'[p].Started? && log'[p].step == step && log'[p].index < |calls| && log'[p].call == calls[log'[p].index]
            && !Logged(log, EventKeyOf(log'[p])))
      && (forall p, q :: |log| <= p < q < |log'| ==> log'[p].index < log'[q].index)
  {
    hide Logged, KeyOf;
    if calls != [] {
      var n := |calls| - 1;
      StartsLogged(log, step, calls[..n]);
      var before, e := WithStarts(log, step, calls[..n]), Started(step, n, calls[n]);
      KeysInserted(before, e);
      KeysOfPrefix(log, before);
    }
  }

  lemma KeysInserted(log: seq<Event>, e: Event)
    requires EventKeyOf(e) != NoKey
    ensures Logged(Insert(log, e), EventKeyOf(e)) && forall k :: Logged(log, k) ==> Logged(Insert(log, e), k)
    ensures Insert(log, e) == log || (Insert(log, e) == log + [e] && !Logged(log, EventKeyOf(e)))
  {
    InsertKeeps(log, e);
  }

  lemma KeysOfPrefix(log: seq<Event>, log': seq<Event>)
    requires log <= log'
    ensures forall k :: Logged(log, k) ==> Logged(log', k)
  {
    forall k | Logged(log, k) ensures Logged(log', k) {
      var i :| 0 <= i < |log| && EventKeyOf(log[i]) == k;
      assert log'[i] == log[i];
    }
  }

  lemma WithStart(log: seq<Event>, step: nat, calls: seq<Call>, n: nat)
    requires n < |calls|
    ensures WithStarts(log, step, calls[..n + 1]) == Insert(WithStarts(log, step, calls[..n]), Started(step, n, calls[n]))
  {
    assert calls[..n + 1][..n] == calls[..n];
  }

  lemma NoStarts(log: seq<Event>, step: nat, calls: seq<Call>)
    ensures WithStarts(log, step, calls[..0]) == log && AllStarted(log, step, calls[..0])
  {
  }

  // Starts that are all logged add nothing, and no start changes what is left
  // to recover.
  lemma {:induction false} StartsIdle(log: seq<Event>, step: nat, calls: seq<Call>)
    requires AllStarted(log, step, calls)
    ensures WithStarts(log, step, calls) == log
  {
    hide Logged;
    if calls != [] {
      var n := |calls| - 1;
      assert calls[..n][..n] == calls[..n];
      StartsIdle(log, step, calls[..n]);
    }
  }

  lemma {:induction false} StartsRecoverSame(log: seq<Event>, step: nat, calls: seq<Call>)
    ensures RecoverCalls(WithStarts(log, step, calls), step) == RecoverCalls(log, step)
  {
    hide RecoverCalls, Insert;
    if calls != [] {
      var n := |calls| - 1;
      StartsRecoverSame(log, step, calls[..n]);
      StartRecoversSame(WithStarts(log, step, calls[..n]), step, Started(step, n, calls[n]));
    }
  }

  lemma StartRecoversSame(log: seq<Event>, step: nat, e: Event)
    requires e.Started?
    ensures RecoverCalls(Insert(log, e), step) == RecoverCalls(log, step)
  {
    hide Latest, CompletedKeys, Missing, Insert, Logged;
    InsertKeeps(log, e);
    LatestAppend(log, e, KParsed, step);
    CompletedAppend(log, e, step);
    assert CompletedKeys(log, step) + {} == CompletedKeys(log, step);
  }

  // The log after the results of a batch.
  function WithResults(log: seq<Event>, step: nat, results: seq<ToolResult>): seq<Event> {
    if results == [] then log
    else
      var n := |results| - 1;
      Insert(WithResults(log, step, results[..n]), Result(step, n, results[n]))
  }

  // What that adds: for each result whose key was not logged, this result, in
  // the order of the batch.
  lemma {:induction false} ResultsLogged(log: seq<Event>, step: nat, results: seq<ToolResult>)
    ensures var log' := WithResults(log, step, results);
      && log <= log'
      && (forall i :: 0 <= i < |results| ==> Logged(log', ResultKey(step, i, results[i].tool, results[i].key)))
      && (forall p :: |log| <= p < |log'| ==>
            && log'[p].Result? && log'[p].step == step && log'[p].index < |results| && log'[p].outcome == results[log'[p].index]
            && !Logged(log, EventKeyOf(log'[p])))
      && (forall p, q :: |log| <= p < q < |log'| ==> log'[p].index < log'[q].index)
  {
    hide Logged, ResultKey;
    if results != [] {
      var n := |results| - 1;
      ResultsLogged(log, step, results[..n]);
      var before, e := WithResults(log, step, results[..n]), Result(step, n, results[n]);
      ResultHasKey(e);
      KeysInserted(before, e);
      KeysOfPrefix(log, before);
    }
  }

  lemma ResultHasKey(e: Event)
    requires e.Result?
    ensures EventKeyOf(e) == ResultKey(e.step, e.index, e.outcome.tool, e.outcome.key) != NoKey
  {
  }

  lemma WithResult(log: seq<Event>, step: nat, results: seq<ToolResult>, r: ToolResult)
    ensures WithResults(log, step, results + [r]) == Insert(WithResults(log, step, results), Result(step, |results|, r))
  {
    assert (results + [r])[..|results|] == results;
  }

  lemma NoResults(log: seq<Event>, step: nat)
    ensures WithResults(log, step, []) == log
  {
  }

  lemma StartsMore(log: seq<Event>, step: nat, calls: seq<Call>, index: nat)
    requires index < |calls| && AllStarted(log, step, calls[..index]) && Logged(log, StartSlot(step, index, KeyOf(calls[index])))
    ensures AllStarted(log, step, calls[..index + 1])
  {
    hide Logged;
  }

  lemma StartsKept(log: seq<Event>, log': seq<Event>, step: nat, calls: seq<Call>)
    requires AllStarted(log, step, calls) && forall k :: Logged(log, k) ==> Logged(log', k)
    ensures AllStarted(log', step, calls)
  {
    hide Logged;
  }

  // Starts and results say nothing about progress.
  lemma StillExecuting(cfg: Config, d: Durable, e: Event)
    requires Executing(cfg, d) && !e.ProgressCheck?
    ensures Executing(cfg, Logging(d, e))
  {
    LatestProgressAppend(d.log, e);
  }

  // The reads that are still open have no result, the others of them have one,
  // and no other result has changed.
  ghost predicate ReadsDone(calls: seq<Call>, todo: set<nat>, open: set<nat>, rs: Results, rs': Results) {
    |rs| == |rs'| == |calls| && (forall i :: i in open ==> IsRead(calls, todo, i))
    && forall i :: 0 <= i < |calls| ==>
      if IsRead(calls, todo, i) then (i in open <==> rs'[i].None?) else rs'[i] == rs[i]
  }

  function ReadsOf(calls: seq<Call>, todo: set<nat>): set<nat> { set i | i in todo && IsRead(calls, todo, i) }

  // A worker that finished is no longer open, one that did not runs now.
  lemma OneStepOn(waiting: set<nat>, running: set<nat>, i: nat, finished: bool)
    requires i in waiting + running && (i in running ==> finished)
    ensures var running' := if finished then running - {i} else running + {i};
      && (waiting - {i}) + running' == (if finished then (waiting + running) - {i} else waiting + running)
      && 2 * |waiting - {i}| + |running'| < 2 * |waiting| + |running|
      && |(waiting - {i}) + running'| == |waiting + running| - if finished then 1 else 0
  {
  }

  lemma ReadsFew(calls: seq<Call>, todo: set<nat>)
    ensures |ReadsOf(calls, todo)| <= |calls|
  {
    hide IsRead;
    ReadsBelow(calls, todo);
    FewBelow(ReadsOf(calls, todo), |calls|);
  }

  lemma ReadsBelow(calls: seq<Call>, todo: set<nat>)
    ensures forall i :: i in ReadsOf(calls, todo) ==> i < |calls|
  {
  }

  lemma {:induction false} FewBelow(s: set<nat>, n: nat)
    requires forall i :: i in s ==> i < n
    ensures |s| <= n
  {
    if n > 0 {
      FewBelow(s - {n - 1}, n - 1);
    } else {
      assert s == {};
    }
  }

  lemma NoReadsDone(calls: seq<Call>, todo: set<nat>, rs: Results)
    requires |rs| == |calls| && forall i :: 0 <= i < |calls| && IsRead(calls, todo, i) ==> rs[i].None?
    ensures ReadsDone(calls, todo, ReadsOf(calls, todo), rs, rs)
  {
  }

  lemma OpenRead(calls: seq<Call>, todo: set<nat>, open: set<nat>, rs: Results, rs': Results, i: nat)
    requires ReadsDone(calls, todo, open, rs, rs') && i in open
    ensures i < |calls| == |rs'| && IsRead(calls, todo, i) && rs'[i].None? && calls[i].tool != Tool.WriteFile
  {
  }

  lemma ReadDone(calls: seq<Call>, todo: set<nat>, open: set<nat>, rs: Results, rs': Results, i: nat, r: ToolResult)
    requires ReadsDone(calls, todo, open, rs, rs') && i in open && i < |rs'|
    ensures ReadsDone(calls, todo, open - {i}, rs, rs'[i := Some(r)])
  {
  }

  lemma ReadsStopped(calls: seq<Call>, todo: set<nat>, open: set<nat>, rs: Results, rs': Results)
    requires ReadsDone(calls, todo, open, rs, rs')
    ensures |rs| == |rs'| == |calls|
    ensures forall i :: 0 <= i < |calls| && !IsRead(calls, todo, i) ==> rs'[i] == rs[i]
    ensures open == {} ==> forall i :: 0 <= i < |calls| && IsRead(calls, todo, i) ==> rs'[i].Some?
  {
  }

  // With distinct keys, what the finished reads left: each its own reply, in
  // its row and as its result, whatever the order they finished in.
  ghost predicate ReadsRecorded(
    calls: seq<Call>, todo: set<nat>, open: set<nat>, replies: seq<Exec>, before: map<Key, Exec>, execs: map<Key, Exec>, rs: Results)
    requires |rs| == |calls| == |replies|
  {
    DistinctKeys(calls) ==>
      && (forall i :: IsRead(calls, todo, i) ==>
            if i in open then KeyOf(calls[i]) !in execs
            else KeyOf(calls[i]) in execs && execs[KeyOf(calls[i])] == replies[i] && rs[i] == Some(ResultOf(calls[i], replies[i])))
      && forall k :: !IsReadKey(calls, todo, k) ==> (k in execs <==> k in before) && (k in before ==> execs[k] == before[k])
  }

  ghost predicate IsReadKey(calls: seq<Call>, todo: set<nat>, k: Key) {
    exists i :: IsRead(calls, todo, i) && KeyOf(calls[i]) == k
  }

  lemma NoneRecorded(calls: seq<Call>, todo: set<nat>, replies: seq<Exec>, execs: map<Key, Exec>, rs: Results)
    requires |rs| == |calls| == |replies| && Unseen(calls, rs, execs)
    requires forall i :: 0 <= i < |calls| && IsRead(calls, todo, i) ==> rs[i].None?
    ensures ReadsRecorded(calls, todo, ReadsOf(calls, todo), replies, execs, execs, rs)
  {
    hide IsReadKey;
  }

  lemma OneRecorded(
    calls: seq<Call>, todo: set<nat>, open: set<nat>, replies: seq<Exec>, before: map<Key, Exec>, execs: map<Key, Exec>, rs: Results, i: nat)
    requires |rs| == |calls| == |replies| && IsRead(calls, todo, i) && i in open
    requires ReadsRecorded(calls, todo, open, replies, before, execs, rs)
    ensures ReadsRecorded(
      calls, todo, open - {i}, replies, before, execs[KeyOf(calls[i]) := replies[i]], rs[i := Some(ResultOf(calls[i], replies[i]))])
  {
    assert IsReadKey(calls, todo, KeyOf(calls[i]));
    hide IsReadKey, ResultOf, KeyOf;
  }

  lemma AnsweredNotDistinct(
    calls: seq<Call>, todo: set<nat>, open: set<nat>, replies: seq<Exec>, before: map<Key, Exec>, execs: map<Key, Exec>, rs: Results, i: nat)
    requires |rs| == |calls| == |replies| && IsRead(calls, todo, i) && i in open && KeyOf(calls[i]) in execs
    requires ReadsRecorded(calls, todo, open, replies, before, execs, rs)
    ensures !DistinctKeys(calls)
  {
  }

  // Both of these facts about the workers' progress.
  ghost predicate ReadsAt(
    calls: seq<Call>, todo: set<nat>, open: set<nat>, replies: seq<Exec>, rs: Results, before: map<Key, Exec>,
    execs: map<Key, Exec>, rs': Results)
  {
    |replies| == |calls| && ReadsDone(calls, todo, open, rs, rs')
    && ReadsRecorded(calls, todo, open, replies, before, execs, rs') && SideRowsKept(before, execs)
  }

  lemma ReadsEnd(
    calls: seq<Call>, todo: set<nat>, open: set<nat>, replies: seq<Exec>, rs: Results, before: map<Key, Exec>,
    execs: map<Key, Exec>, rs': Results)
    requires ReadsAt(calls, todo, open, replies, rs, before, execs, rs')
    ensures |rs| == |rs'| == |calls| && SideRowsKept(before, execs)
    ensures forall i :: 0 <= i < |calls| && !IsRead(calls, todo, i) ==> rs'[i] == rs[i]
    ensures open == {} ==> forall i :: 0 <= i < |calls| && IsRead(calls, todo, i) ==> rs'[i].Some?
    ensures open == {} && DistinctKeys(calls) ==>
      execs == AfterReads(before, calls, todo, replies, |calls|) && AsReplied(calls, todo, replies, rs')
  {
    hide DistinctKeys, ReadsRecorded, ReadsDone, IsRead, AfterReads, ResultOf, AsReplied;
    ReadsStopped(calls, todo, open, rs, rs');
    if open == {} && DistinctKeys(calls) { ScheduleIrrelevant(calls, todo, replies, before, execs, rs'); }
  }

  // Each read's result answers its call and carries its own reply.
  ghost predicate AsReplied(calls: seq<Call>, todo: set<nat>, replies: seq<Exec>, rs: Results)
    requires |rs| == |calls| == |replies|
  {
    forall i :: IsRead(calls, todo, i) ==>
      && rs[i].Some? && Answers(calls[i], rs[i].value)
      && rs[i].value.body == replies[i].body && rs[i].value.error == replies[i].error
      && (rs[i].value.ok <==> replies[i].status == ExecCompleted && replies[i].error == "")
  }

  lemma NothingRecorded(
    calls: seq<Call>, todo: set<nat>, open: set<nat>, replies: seq<Exec>, before: map<Key, Exec>, execs: map<Key, Exec>, rs: Results)
    requires |rs| == |calls| == |replies| && !DistinctKeys(calls)
    ensures ReadsRecorded(calls, todo, open, replies, before, execs, rs)
  {
  }

  // Every schedule of the workers leaves the rows and the results of a run one
  // after the other.
  lemma ScheduleIrrelevant(
    calls: seq<Call>, todo: set<nat>, replies: seq<Exec>, before: map<Key, Exec>, execs: map<Key, Exec>, rs: Results)
    requires |rs| == |calls| == |replies| && DistinctKeys(calls)
    requires ReadsRecorded(calls, todo, {}, replies, before, execs, rs)
    ensures execs == AfterReads(before, calls, todo, replies, |calls|)
    ensures AsReplied(calls, todo, replies, rs)
  {
    var after := AfterReads(before, calls, todo, replies, |calls|);
    forall k ensures (k in execs <==> k in after) && (k in execs ==> execs[k] == after[k]) {
      AfterReadsAt(before, calls, todo, replies, |calls|, k);
      if i :| IsRead(calls, todo, i) && KeyOf(calls[i]) == k {
      } else {
        assert !IsReadKey(calls, todo, k);
      }
    }
  }

  // The call is answered from its row, which is new or was there before.
  ghost predicate Answered(call: Call, r: ToolResult, execs: map<Key, Exec>, execs': map<Key, Exec>) {
    var key := KeyOf(call);
    key in execs' && r == ResultOf(call, execs'[key]) && execs' == execs[key := execs'[key]] && (key in execs ==> execs' == execs)
  }

  // The results that were there, and those of the calls before n of one tool
  // that were to be executed.
  ghost predicate Filled(calls: seq<Call>, todo: set<nat>, tool: Tool, n: nat, rs: Results, rs': Results) {
    |rs| == |rs'| == |calls|
    && forall i :: 0 <= i < |calls| ==> (rs'[i].Some? <==> rs[i].Some? || (i < n && i in todo && calls[i].tool == tool))
  }

  lemma FilledNone(calls: seq<Call>, todo: set<nat>, tool: Tool, rs: Results)
    requires |rs| == |calls|
    ensures Filled(calls, todo, tool, 0, rs, rs)
  {
  }

  lemma StillNone(calls: seq<Call>, todo: set<nat>, tool: Tool, n: nat, rs: Results, rs': Results)
    requires Filled(calls, todo, tool, n, rs, rs') && n < |calls| && rs[n].None?
    ensures rs'[n].None?
  {
  }

  lemma FilledOne(calls: seq<Call>, todo: set<nat>, tool: Tool, n: nat, rs: Results, rs1: Results, rs': Results)
    requires Filled(calls, todo, tool, n, rs, rs1) && n < |calls| == |rs'|
    requires forall i :: 0 <= i < |rs'| && i != n ==> (rs'[i].Some? <==> rs1[i].Some?)
    requires if n in todo && calls[n].tool == tool then rs'[n].Some? else rs'[n] == rs1[n]
    ensures Filled(calls, todo, tool, n + 1, rs, rs')
  {
  }

  lemma PreimagesOrdered(w: Plan, p: Progress, failedAt: nat, n: nat)
    requires UpTo(w, p, failedAt, n)
    ensures InOrder(p.preimages)
  {
    hide WritesUpTo;
  }

  lemma PreimagesIndexed(w: Plan, p: Progress, failedAt: nat, n: nat, rs': Results)
    requires UpTo(w, p, failedAt, n)
    requires |rs'| == |p.rs| && forall i :: 0 <= i < |rs'| && p.rs[i].Some? ==> rs'[i].Some?
    ensures forall k :: 0 <= k < |p.preimages| ==>
      p.preimages[k].index < |rs'| && rs'[p.preimages[k].index].Some?
  {
    hide HasFailed, Clean, Back, Reported, RowsTell, Pins;
  }

  // Only writes are taken back.
  lemma RollbackSparesMail(
    w: Plan, p: Progress, failedAt: nat, n: nat, disk: Disk, disk': Disk, rs: Results, rs': Results, restored: set<nat>)
    requires UpTo(w, p, failedAt, n) && |rs| == |w.calls| && RolledBack(p.preimages, disk, disk', rs, rs', restored)
    ensures |rs'| == |rs| && forall i :: 0 <= i < |rs| && w.calls[i].tool == SendEmail ==> rs'[i] == rs[i]
  {
    hide HasFailed, Clean, Back, Reported, RowsTell, Pins, Agree, Undo, AccountedFor;
  }

  lemma RollbackKeeps(
    calls: seq<Call>, preimages: seq<Preimage>, disk: Disk, disk': Disk, rs: Results, rs': Results, restored: set<nat>,
    execs: map<Key, Exec>)
    requires RolledBack(preimages, disk, disk', rs, rs', restored) && Backed(calls, rs, execs) && Unseen(calls, rs, execs)
    ensures Backed(calls, rs', execs) && Unseen(calls, rs', execs)
    ensures |rs'| == |rs| && forall i :: 0 <= i < |rs| ==> (rs'[i].Some? <==> rs[i].Some?)
    ensures forall i :: 0 <= i < |rs| && rs[i].Some? && !rs[i].value.ok ==> !rs'[i].value.ok
  {
    WeakenedStays(calls, rs, rs', execs);
  }

  lemma WeakenedSame(rs: Results)
    ensures Weakened(rs, rs)
  {
  }

  lemma WeakenedMore(rs: Results, rs': Results, i: nat)
    requires Weakened(rs, rs') && i < |rs'| && rs'[i].Some?
    ensures Weakened(rs, rs'[i := Some(rs'[i].value.(ok := false, error := ROLLBACK_FAILED))])
  {
  }

  lemma AgreeSame(f: Files, except: set<Place>)
    ensures Agree(f, f, except)
  {
  }

  lemma UndoStep(files: Files, preimages: seq<Preimage>, k: nat)
    requires 0 < k <= |preimages|
    ensures Undo(files, preimages[..k])
      == Undo(Restored(files, preimages[k - 1].path, preimages[k - 1].content), preimages[..k - 1])
  {
    assert preimages[..k][..k - 1] == preimages[..k - 1];
  }

  lemma OneOf(preimages: seq<Preimage>, k: nat)
    requires k < |preimages|
    ensures preimages[k].index in IndexesOf(preimages)
  {
  }

  // The restored writes are among those from k on.
  ghost predicate Handled(preimages: seq<Preimage>, k: nat, restored: set<nat>) {
    forall i :: i in restored ==> exists j :: k <= j < |preimages| && preimages[j].index == i
  }

  // One more preimage is restored, or marked as one that could not be.
  lemma OneMoreBack(
    preimages: seq<Preimage>, k: nat, restored: set<nat>, restored': set<nat>, rs: Results, rs': Results, ok: bool)
    requires 0 < k <= |preimages| && InOrder(preimages) && Handled(preimages, k, restored)
    requires preimages[k - 1].index < |rs| == |rs'|
    requires ok ==> restored' == restored + {preimages[k - 1].index} && rs' == rs
    requires !ok ==> restored' == restored && var i := preimages[k - 1].index;
      rs' == rs[i := rs'[i]] && rs'[i].Some? && IsFault(rs'[i].value)
    ensures Handled(preimages, k - 1, restored')
    ensures forall q :: Unrestored(preimages[k..], restored, rs, q) ==> Unrestored(preimages[k - 1..], restored', rs', q)
    ensures !ok ==> Unrestored(preimages[k - 1..], restored', rs', preimages[k - 1].path)
  {
    hide IsFault;
    var now, before := preimages[k - 1..], preimages[k..];
    assert now[0] == preimages[k - 1];
    forall q | Unrestored(before, restored, rs, q) ensures Unrestored(now, restored', rs', q) {
      var j :| 0 <= j < |before| && before[j].path == q && Marked(rs, restored, before[j].index);
      assert now[j + 1] == before[j] == preimages[k + j];
      assert Marked(rs', restored', now[j + 1].index);
    }
    if !ok { assert Marked(rs', restored', now[0].index); }
  }

  lemma UndoNone(files: Files, preimages: seq<Preimage>)
    ensures Undo(files, preimages[..0]) == files
  {
  }

  // What is reported of a settled call: a write that was taken back failed.
  function Final(r: ToolResult, takenBack: bool): ToolResult {
    if takenBack then r.(ok := false, error := ROLLED_BACK) else r
  }

  // The rows of the restored writes before n say so, all others are as before.
  ghost predicate Corrected(calls: seq<Call>, restored: set<nat>, n: nat, before: map<Key, Exec>, execs: map<Key, Exec>) {
    n <= |calls|
    && (forall i :: 0 <= i < n && i in restored ==>
          KeyOf(calls[i]) in execs && execs[KeyOf(calls[i])].status == ExecFailed && execs[KeyOf(calls[i])].error == ROLLED_BACK)
    && forall k :: (forall i :: 0 <= i < n && i in restored ==> KeyOf(calls[i]) != k) ==>
         (k in execs <==> k in before) && (k in before ==> execs[k] == before[k])
  }

  // A correction keeps what the row carries.
  ghost predicate BodiesKept(before: map<Key, Exec>, execs: map<Key, Exec>) {
    forall k :: k in before ==> k in execs && execs[k].body == before[k].body
  }

  // Each result carries the body of its key's row, and its error but where it
  // could not be taken back; two reads of one key that ran at once aside, and
  // for the error any calls of one key.
  lemma RowsCarried(
    calls: seq<Call>, rs: Results, restored: set<nat>, before: map<Key, Exec>, execs: map<Key, Exec>, results: seq<ToolResult>)
    requires Backed(calls, rs, before) && Corrected(calls, restored, |calls|, before, execs) && BodiesKept(before, execs)
    requires |results| == |calls| && forall i :: 0 <= i < |calls| ==> rs[i].Some? && results[i] == Final(rs[i].value, i in restored)
    ensures forall i :: 0 <= i < |calls| && (IsSideEffect(calls[i].tool) || Single(calls, i)) ==>
      KeyOf(calls[i]) in execs && results[i].body == execs[KeyOf(calls[i])].body
    ensures forall i :: 0 <= i < |calls| && Single(calls, i) && results[i].error != ROLLBACK_FAILED ==>
      KeyOf(calls[i]) in execs && results[i].error == execs[KeyOf(calls[i])].error
  {
    hide ExecOk, FailedUnder, KeyOf, Answers, IsSideEffect, Single;
    forall i | 0 <= i < |calls| && (IsSideEffect(calls[i].tool) || Single(calls, i))
      ensures KeyOf(calls[i]) in execs && results[i].body == execs[KeyOf(calls[i])].body
      ensures Single(calls, i) ==> results[i].error == execs[KeyOf(calls[i])].error || results[i].error == ROLLBACK_FAILED
    {
      assert Carries(rs[i].value, before[KeyOf(calls[i])]);
      if Single(calls, i) { OnlyOwn(calls, i); }
    }
  }

  lemma RestoredBodies(calls: seq<Call>, rs: Results, restored: set<nat>, execs: map<Key, Exec>)
    requires Backed(calls, rs, execs) && forall i :: 0 <= i < |rs| ==> rs[i].Some?
    requires forall i :: i in restored && i < |calls| ==> calls[i].tool == WriteFile
    ensures forall i :: i in restored && i < |calls| ==>
      KeyOf(calls[i]) in execs && rs[i].value.body == execs[KeyOf(calls[i])].body
  {
    hide ExecOk, FailedUnder, KeyOf;
  }

  lemma OnlyOwn(calls: seq<Call>, i: nat)
    requires i < |calls| && Single(calls, i)
    ensures forall j :: 0 <= j < |calls| && KeyOf(calls[j]) == KeyOf(calls[i]) ==> j == i
  {
  }

  lemma NothingCorrected(calls: seq<Call>, restored: set<nat>, execs: map<Key, Exec>)
    ensures Corrected(calls, restored, 0, execs, execs)
  {
  }

  lemma OneCorrected(calls: seq<Call>, restored: set<nat>, n: nat, before: map<Key, Exec>, execs: map<Key, Exec>, r: ToolResult)
    requires Corrected(calls, restored, n, before, execs) && n < |calls|
    ensures var exec := Exec(ExecFailed, r.body, ROLLED_BACK);
      Corrected(calls, restored, n + 1, before, if n in restored then execs[KeyOf(calls[n]) := exec] else execs)
  {
    hide KeyOf;
  }

  // What is to be executed: the calls without a row.
  ghost predicate IsTodo(calls: seq<Call>, todo: set<nat>, execs: map<Key, Exec>) {
    forall i: nat :: i in todo <==> i < |calls| && KeyOf(calls[i]) !in execs
  }

  lemma NothingTodo(calls: seq<Call>, todo: set<nat>, execs: map<Key, Exec>)
    requires IsTodo(calls, todo, execs) && AllExecuted(execs, calls)
    ensures todo == {}
  {
  }

  lemma ReadsWait(calls: seq<Call>, todo: set<nat>, rs: Results)
    requires |rs| == |calls| && forall i :: 0 <= i < |calls| ==> (rs[i].Some? <==> i !in todo)
    ensures forall i :: 0 <= i < |calls| && IsRead(calls, todo, i) ==> rs[i].None?
  {
  }

  // After the reads, what is to be executed still waits, the writes without a
  // row.
  lemma WritesWait(
    w: Plan, before: map<Key, Exec>, execs: map<Key, Exec>, rs: Results, rs': Results)
    requires IsTodo(w.calls, w.todo, before) && SideRowsKept(before, execs) && |rs| == |rs'| == |w.calls|
    requires forall i :: 0 <= i < |w.calls| ==> (rs[i].Some? <==> i !in w.todo)
    requires forall i :: 0 <= i < |w.calls| && !IsRead(w.calls, w.todo, i) ==> rs'[i] == rs[i]
    ensures forall i :: 0 <= i < |w.calls| && IsWrite(w.calls, w.todo, i) ==> KeyOf(w.calls[i]) !in execs
    ensures forall i :: 0 <= i < |w.calls| && Waits(w, i) ==> rs'[i].None?
    ensures NoMailYet(w.calls, w.todo, execs)
  {
  }

  // After the writes, only emails wait.
  lemma EmailsWait(calls: seq<Call>, todo: set<nat>, rs: Results, rs1: Results, rs': Results)
    requires |rs| == |rs1| == |calls| && forall i :: 0 <= i < |calls| ==> (rs[i].Some? <==> i !in todo)
    requires forall i :: 0 <= i < |calls| && !IsRead(calls, todo, i) ==> rs1[i] == rs[i]
    requires forall i :: 0 <= i < |calls| && IsRead(calls, todo, i) ==> rs1[i].Some?
    requires Filled(calls, todo, WriteFile, |calls|, rs1, rs')
    ensures |rs'| == |calls|
    ensures forall i :: 0 <= i < |calls| ==> (rs'[i].Some? <==> !(i in todo && calls[i].tool == SendEmail))
  {
  }

  lemma AllAnswered(calls: seq<Call>, rs: Results, execs: map<Key, Exec>)
    requires Backed(calls, rs, execs) && forall i :: 0 <= i < |rs| ==> rs[i].Some?
    ensures AllExecuted(execs, calls) && forall i :: 0 <= i < |calls| ==> Answers(calls[i], rs[i].value)
  {
    hide ExecOk, FailedUnder;
  }

  lemma RestoredAreWrites(w: Plan, p: Progress, failedAt: nat, n: nat)
    requires UpTo(w, p, failedAt, n)
    ensures forall i :: i in p.restored && i < |w.calls| ==> w.calls[i].tool == WriteFile
  {
    hide HasFailed, Clean, Back, Reported, RowsTell;
  }

  lemma FinalAnswers(calls: seq<Call>, rs: Results, restored: set<nat>, results: seq<ToolResult>)
    requires |rs| == |calls| == |results|
    requires forall i :: 0 <= i < |calls| ==> rs[i].Some? && Answers(calls[i], rs[i].value)
    requires forall i :: 0 <= i < |calls| ==> results[i] == Final(rs[i].value, i in restored)
    ensures forall i :: 0 <= i < |calls| ==> Answers(calls[i], results[i])
  {
  }

  ghost predicate AllOk(results: seq<ToolResult>) { forall i :: 0 <= i < |results| ==> results[i].ok }

  // Something failed before the writes, by the results.
  ghost predicate EarlyFailure(w: Plan, results: seq<ToolResult>) {
    exists i :: 0 <= i < |results| && !Waits(w, i) && !results[i].ok
  }

  function FirstRanFailed(w: Plan, results: seq<ToolResult>, i: nat): (r: nat)
    requires i <= |w.calls| == |results|
    ensures i <= r <= |w.calls|
    ensures r < |w.calls| ==> IsWrite(w.calls, w.todo, r) && RanFailed(results[r])
    ensures forall j :: i <= j < r ==> !(IsWrite(w.calls, w.todo, j) && RanFailed(results[j]))
    decreases |w.calls| - i
  {
    if i == |w.calls| then i
    else if IsWrite(w.calls, w.todo, i) && RanFailed(results[i]) then i
    else FirstRanFailed(w, results, i + 1)
  }

  // Where a batch failed, by its results: before its writes, else at the first
  // write that ran and failed, else after all writes.
  ghost function FailurePoint(w: Plan, results: seq<ToolResult>): nat
    requires |results| == |w.calls|
  {
    if EarlyFailure(w, results) then 0 else FirstRanFailed(w, results, 0)
  }

  // Some write to this place is reported with a fault of the host.
  ghost predicate FaultShown(w: Plan, results: seq<ToolResult>, q: Place)
    requires |results| == |w.calls|
  {
    exists i :: IsWrite(w.calls, w.todo, i) && Target(w.resolve, w.calls[i]) == Some(q) && IsFault(results[i])
  }

  // What one invocation of the batch executor promises of the files: all calls
  // came out well and the files are the base with the writes in order; or some
  // call did not, the files are back but for places where a write is reported
  // with a fault of the host, and a write reads as ok exactly when it repeats,
  // after the failure, a write that was taken back.
  ghost predicate BatchOutcome(w: Plan, results: seq<ToolResult>, disk: Disk) {
    |results| == |w.calls| && w.base.damaged == {}
    && if AllOk(results) then
         disk == Disk(Applied(w.base.files, Planned(w.resolve, w.calls, w.todo, |w.calls|)), w.base.folders, {})
       else
         disk.folders == w.base.folders && Agree(disk.files, w.base.files, disk.damaged)
         && (forall q :: q in disk.damaged ==> FaultShown(w, results, q))
         && forall j :: IsWrite(w.calls, w.todo, j) ==>
           (results[j].ok <==> WronglyOk(w.calls, w.todo, FailurePoint(w, results), j))
  }

  lemma OutcomeOf(w: Plan, p: Progress, failedAt: nat, results: seq<ToolResult>)
    requires UpTo(w, p, failedAt, |w.calls|) && |results| == |p.rs|
    requires forall i :: 0 <= i < |p.rs| ==> p.rs[i].Some? && results[i] == Final(p.rs[i].value, i in p.restored)
    ensures BatchOutcome(w, results, p.disk)
  {
    hide RowsTell, WronglyOk, Planned, Applied, Undo, Agree, Pins, Early, EarlyFailure, FirstRanFailed, FaultShown;
    PinsDisk(w, p, failedAt, results);
    if HasFailed(p.rs) {
      var i :| 0 <= i < |p.rs| && p.rs[i].Some? && !p.rs[i].value.ok;
      assert !results[i].ok;
      PointOf(w, p, failedAt, results);
    }
  }

  lemma PinsDisk(w: Plan, p: Progress, failedAt: nat, results: seq<ToolResult>)
    requires Pins(w, p, failedAt, |w.calls|) && |results| == |p.rs|
    requires forall i :: 0 <= i < |p.rs| ==> p.rs[i].Some? && results[i] == Final(p.rs[i].value, i in p.restored)
    ensures w.base.damaged == {} && forall q :: q in p.disk.damaged ==> FaultShown(w, results, q)
  {
    hide Early, Ran;
    forall q | q in p.disk.damaged ensures FaultShown(w, results, q) {
      var i :| IsWrite(w.calls, w.todo, i) && Target(w.resolve, w.calls[i]) == Some(q) && Marked(p.rs, p.restored, i);
      assert results[i] == p.rs[i].value;
    }
  }

  // The marked failure is the one the results show.
  lemma PointOf(w: Plan, p: Progress, failedAt: nat, results: seq<ToolResult>)
    requires UpTo(w, p, failedAt, |w.calls|) && |results| == |p.rs|
    requires forall i :: 0 <= i < |p.rs| ==> p.rs[i].Some? && results[i] == Final(p.rs[i].value, i in p.restored)
    ensures failedAt == FailurePoint(w, results)
  {
    hide Clean, Back, Reported, RowsTell, HasFailed, FirstRanFailed;
    NotWriteErrors();
    FailedWithin(w, p, failedAt);
    hide IsWriteError;
    assert EarlyFailure(w, results) <==> Early(w, p.rs) by {
      if EarlyFailure(w, results) {
        var i :| 0 <= i < |results| && !Waits(w, i) && !results[i].ok;
        assert p.rs[i].Some?;
      }
      if Early(w, p.rs) {
        var i :| 0 <= i < |p.rs| && !Waits(w, i) && p.rs[i].Some? && !p.rs[i].value.ok;
        assert !results[i].ok;
      }
    }
  }

  lemma FailedWithin(w: Plan, p: Progress, failedAt: nat)
    requires WritesUpTo(w, p, failedAt, |w.calls|)
    ensures failedAt <= |w.calls|
  {
    hide HasFailed, Clean, Back, Reported, RowsTell;
  }

  // What it promises of the emails it had to execute: one goes out if and only
  // if nothing failed before the emails, no tool output has entered the
  // conversation, and it and all emails before it are well formed or it repeats
  // one that went out; and it reads as ok if and only if it is sent.
  ghost predicate EmailOutcome(w: Plan, results: seq<ToolResult>, tainted: bool, emails: map<Key, Sent>) {
    |results| == |w.calls|
    && forall i :: IsEmail(w.calls, w.todo, i) ==>
      && (results[i].ok <==>
           FailurePoint(w, results) == |w.calls| && !tainted && Went(w.calls, w.todo, i + 1, KeyOf(w.calls[i])))
      && (results[i].ok <==> KeyOf(w.calls[i]) in emails)
  }

  // The same, told by the rows instead of the emails.
  ghost predicate RowOutcome(w: Plan, results: seq<ToolResult>, tainted: bool, execs: map<Key, Exec>) {
    |results| == |w.calls|
    && forall i :: IsEmail(w.calls, w.todo, i) ==>
      && (results[i].ok <==>
           FailurePoint(w, results) == |w.calls| && !tainted && Went(w.calls, w.todo, i + 1, KeyOf(w.calls[i])))
      && KeyOf(w.calls[i]) in execs && (results[i].ok <==> ExecOk(execs[KeyOf(w.calls[i])]))
  }

  lemma EmailsOf(
    w: Plan, p: Progress, failedAt: nat, results: seq<ToolResult>, tainted: bool, execs: map<Key, Exec>, execs': map<Key, Exec>)
    requires UpTo(w, p, failedAt, |w.calls|) && |results| == |p.rs|
    requires MailedUpTo(w.calls, w.todo, failedAt >= |w.calls|, tainted, p.rs, execs, |w.calls|)
    requires forall i :: 0 <= i < |p.rs| ==> p.rs[i].Some? && results[i] == Final(p.rs[i].value, i in p.restored)
    requires Corrected(w.calls, p.restored, |w.calls|, execs, execs')
    ensures RowOutcome(w, results, tainted, execs')
  {
    PointOf(w, p, failedAt, results);
    RestoredAreWrites(w, p, failedAt, |w.calls|);
    PointWithin(w, results);
    hide UpTo, FailurePoint, HasFailed, MailResults, MailRows, Went, ExecOk, Corrected, AllMailable, NoMail, Final, KeyOf;
    forall i | IsEmail(w.calls, w.todo, i)
      ensures results[i].ok <==>
        FailurePoint(w, results) == |w.calls| && !tainted && Went(w.calls, w.todo, i + 1, KeyOf(w.calls[i]))
      ensures KeyOf(w.calls[i]) in execs' && (results[i].ok <==> ExecOk(execs'[KeyOf(w.calls[i])]))
    {
      EmailOf(w.calls, w.todo, failedAt >= |w.calls| && !tainted, p, results[i], execs, execs', i);
    }
  }

  lemma EmailOf(
    calls: seq<Call>, todo: set<nat>, open: bool, p: Progress, r: ToolResult, execs: map<Key, Exec>, execs': map<Key, Exec>, i: nat)
    requires |p.rs| == |calls| && MailResults(calls, todo, open, p.rs, |calls|) && MailRows(calls, todo, open, execs, |calls|)
    requires Corrected(calls, p.restored, |calls|, execs, execs') && IsEmail(calls, todo, i)
    requires forall j :: j in p.restored && j < |calls| ==> calls[j].tool == WriteFile
    requires p.rs[i].Some? && r == Final(p.rs[i].value, i in p.restored)
    ensures r.ok <==> open && Went(calls, todo, i + 1, KeyOf(calls[i]))
    ensures KeyOf(calls[i]) in execs' && (r.ok <==> ExecOk(execs'[KeyOf(calls[i])]))
  {
    hide MailResults, MailRows, Went, ExecOk, Corrected, KeyOf;
    MailInRows(calls, todo, open, p.rs, execs, i);
    MailResult(calls, todo, open, p.rs, i);
    MailRowStays(calls, p.restored, execs, execs', i);
  }

  lemma MailRowStays(calls: seq<Call>, restored: set<nat>, execs: map<Key, Exec>, execs': map<Key, Exec>, i: nat)
    requires Corrected(calls, restored, |calls|, execs, execs') && i < |calls| && calls[i].tool == SendEmail
    requires forall j :: j in restored && j < |calls| ==> calls[j].tool == WriteFile
    requires KeyOf(calls[i]) in execs
    ensures i !in restored && KeyOf(calls[i]) in execs' && execs'[KeyOf(calls[i])] == execs[KeyOf(calls[i])]
  {
  }

  lemma PointWithin(w: Plan, results: seq<ToolResult>)
    requires |results| == |w.calls|
    ensures FailurePoint(w, results) <= |w.calls|
  {
  }

  lemma MailResult(calls: seq<Call>, todo: set<nat>, open: bool, rs: Results, i: nat)
    requires |rs| == |calls| && MailResults(calls, todo, open, rs, |calls|) && IsEmail(calls, todo, i)
    ensures rs[i].Some? && (rs[i].value.ok <==> open && Went(calls, todo, i + 1, KeyOf(calls[i])))
  {
  }

  // A sent email is one whose row is good.
  lemma RowsAreEmails(cfg: Config, d: Durable, w: Plan, results: seq<ToolResult>, tainted: bool)
    requires Inv(cfg, d) && !d.row.status.NoRow? && RowOutcome(w, results, tainted, d.execs)
    ensures EmailOutcome(w, results, tainted, d.emails)
  {
    hide LogOk, StepsClosed, RowOk, CostOk, Requested, Went, FailurePoint;
  }

  // With distinct keys, an email to be executed is sent if and only if nothing
  // failed before the emails, no tool output has entered the conversation, and
  // it and all emails before it are well formed.
  lemma DistinctEmailsGo(w: Plan, results: seq<ToolResult>, tainted: bool, emails: map<Key, Sent>, i: nat)
    requires EmailOutcome(w, results, tainted, emails) && DistinctKeys(w.calls) && IsEmail(w.calls, w.todo, i)
    ensures KeyOf(w.calls[i]) in emails <==>
      FailurePoint(w, results) == |w.calls| && !tainted && AllMailable(w.calls, w.todo, i + 1)
  {
    hide FailurePoint, AllMailable;
  }

  // With distinct keys, a failed batch reports no write of its own as ok.
  lemma FailedBatchReportsNoWrite(w: Plan, results: seq<ToolResult>, disk: Disk, j: nat)
    requires BatchOutcome(w, results, disk) && !AllOk(results) && DistinctKeys(w.calls) && IsWrite(w.calls, w.todo, j)
    ensures !results[j].ok
  {
    DistinctNeverWrong(w.calls, w.todo, FailurePoint(w, results), j);
  }

  // A failed batch whose reads run no program leaves every place as it found
  // it, except where one of its writes is reported with a fault of the host;
  // if none is, the files are those it started from.
  lemma FailedBatchRestores(w: Plan, results: seq<ToolResult>, entry: Disk, disk: Disk)
    requires BatchOutcome(w, results, disk) && !AllOk(results) && w.base == entry.(damaged := {})
    ensures disk.folders == entry.folders
    ensures forall q :: ContentAt(disk.files, q) != ContentAt(entry.files, q) ==> FaultShown(w, results, q)
    ensures (forall i :: 0 <= i < |results| ==> !IsFault(results[i])) ==> disk.files == entry.files
  {
    hide IsFault;
    if forall i :: 0 <= i < |results| ==> !IsFault(results[i]) {
      assert forall q :: !FaultShown(w, results, q);
      assert Agree(disk.files, entry.files, {});
      AgreeEverywhere(disk.files, entry.files);
    }
  }

  // A write, another that runs and fails, and the first again: whatever the
  // host does, the third is reported ok and the first is not, although the
  // files are back to what they were, places of reported faults aside.
  lemma RepeatedWriteReportedOk(w: Plan, results: seq<ToolResult>, disk: Disk, a: Call, b: Call)
    requires a.tool == WriteFile && b.tool == WriteFile && a != b && w.calls == [a, b, a] && w.todo == {0, 1, 2}
    requires BatchOutcome(w, results, disk)
    requires RanFailed(results[1]) && !RanFailed(results[0])
    ensures results[2].ok && !results[0].ok
    ensures forall q :: ContentAt(disk.files, q) != ContentAt(w.base.files, q) ==> FaultShown(w, results, q)
  {
    hide RanFailed, IsWriteError, FaultShown;
    assert forall i :: 0 <= i < 3 ==> Waits(w, i) && IsWrite(w.calls, w.todo, i);
    assert !EarlyFailure(w, results);
    assert FailurePoint(w, results) == 1;
    assert KeyOf(w.calls[0]) == KeyOf(w.calls[2]);
    assert Seen(w.calls, w.todo, 1, KeyOf(w.calls[2]));
    RanFailedIsBad(results[1]);
  }

  lemma RanFailedIsBad(r: ToolResult)
    requires RanFailed(r)
    ensures !r.ok
  {
  }

  lemma ResultAllowed(cfg: Config, d: Durable, index: nat, r: ToolResult)
    requires Executing(cfg, d) && index < |d.row.pending| && d.row.step > 0 && Answers(d.row.pending[index], r)
    requires AllStarted(d.log, d.row.step, d.row.pending) && AllExecuted(d.execs, d.row.pending)
    ensures MayLog(cfg, d, Result(d.row.step, index, r))
  {
  }

  lemma ResultsGrow(log: seq<Event>, step: nat, calls: seq<Call>, index: nat, r: ToolResult)
    requires index < |calls| && AllResulted(log, step, calls[..index]) && Answers(calls[index], r)
    ensures AllResulted(Insert(log, Result(step, index, r)), step, calls[..index + 1])
  {
    var e := Result(step, index, r);
    hide AllResulted, Logged;
    InsertKeeps(log, e);
    ResultsKept(log, Insert(log, e), step, calls[..index]);
    ResultsMore(Insert(log, e), step, calls, index);
  }

  lemma NothingResulted(log: seq<Event>, step: nat, calls: seq<Call>)
    ensures AllResulted(log, step, calls[..0])
  {
  }

  lemma ResultsKept(log: seq<Event>, log': seq<Event>, step: nat, calls: seq<Call>)
    requires AllResulted(log, step, calls) && forall k :: Logged(log, k) ==> Logged(log', k)
    ensures AllResulted(log', step, calls)
  {
    hide Logged;
  }

  lemma ResultsMore(log: seq<Event>, step: nat, calls: seq<Call>, index: nat)
    requires index < |calls| && AllResulted(log, step, calls[..index])
    requires Logged(log, ResultKey(step, index, calls[index].tool, KeyOf(calls[index])))
    ensures AllResulted(log, step, calls[..index + 1])
  {
    hide Logged;
  }

  lemma ExecutedKept(execs: map<Key, Exec>, calls: seq<Call>, call: Call, exec: Exec)
    requires AllExecuted(execs, calls)
    ensures AllExecuted(execs[KeyOf(call) := exec], calls)
  {
  }

  class BatchExecutor {
    const config: Config
    const db: AgentDatabase
    const workspace: HostWorkspace
    const script: Script

    constructor (config: Config, db: AgentDatabase, workspace: HostWorkspace, script: Script)
      ensures this.config == config && this.db == db && this.workspace == workspace && this.script == script
    {
      this.config, this.db, this.workspace, this.script := config, db, workspace, script;
    }

    // ----- announcing a batch -----

    method RecordStarts(step: nat, calls: seq<Call>) returns (o: Outcome)
      requires Sound(config, db) && Executing(config, db.State()) && db.row.step == step && db.row.pending == calls
      modifies db
      ensures Sound(config, db) && Onward(db, o) && !o.Raised? && |db.history| <= |old(db.history)| + |calls|
      ensures db.row == old(db.row) && db.execs == old(db.execs) && db.emails == old(db.emails)
      ensures forall k :: Logged(old(db.log), k) ==> Logged(db.log, k)
      ensures Checks(db.log) == Checks(old(db.log))
      ensures Wordless(script, old(db.log), db.log)
      ensures Recall(script, db.log) == Recall(script, old(db.log))
      ensures o.Ok? ==> InBatch(config, db, step, calls) && db.log == WithStarts(old(db.log), step, calls)
    {
      hide Wordless, Checks, Announced, Path, NoProgress, AllStarted, Logged, Insert, MayLog, Recall, WithStarts;
      NoStarts(db.log, step, calls);
      WordlessNone(script, db.log);
      o := Ok;
      for index := 0 to |calls|
        invariant Sound(config, db) && Onward(db, o) && o == Ok && |db.history| <= |old(db.history)| + index
        invariant Executing(config, db.State())
        invariant db.row == old(db.row) && db.execs == old(db.execs) && db.emails == old(db.emails)
        invariant forall k :: Logged(old(db.log), k) ==> Logged(db.log, k)
        invariant Checks(db.log) == Checks(old(db.log))
        invariant Wordless(script, old(db.log), db.log)
        invariant Recall(script, db.log) == Recall(script, old(db.log))
        invariant AllStarted(db.log, step, calls[..index]) && db.log == WithStarts(old(db.log), step, calls[..index])
      {
        ghost var before := db.log;
        WithStart(old(db.log), step, calls, index);
        var e := Started(step, index, calls[index]);
        StepPositive(config, db);
        StartAllowed(config, db.State(), index);
        StillExecuting(config, db.State(), e);
        StartsGrow(before, step, calls, index);
        InsertKeeps(before, e);
        StartsRecalled(before, e);
        MarksKept(before, e);
        WordlessOne(script, old(db.log), before, e);
        var inserted;
        o, inserted := Append(config, db, e);
        if !o.Ok? {
          return;
        }
      }
      assert calls[..|calls|] == calls;
    }

    lemma StepPositive(cfg: Config, db: AgentDatabase)
      requires Sound(cfg, db) && Executing(cfg, db.State())
      ensures db.row.step > 0
    {
      SoundInv(cfg, db);
    }

    lemma StartsRecalled(log: seq<Event>, e: Event)
      requires OpOf(script, e).None?
      ensures Recall(script, Insert(log, e)) == Recall(script, log)
    {
      RecallAppend(script, log, e);
    }

    // Answers the calls that have a row already; the others are to be executed.
    method AnswerExisting(step: nat, calls: seq<Call>, ordered: Ordered) returns (todo: set<nat>)
      requires InBatch(config, db, step, calls) && ordered.Length == |calls|
      requires forall i :: 0 <= i < |calls| ==> ordered[i] == None
      modifies ordered
      ensures InResults(config, db, step, calls, ordered)
      ensures IsTodo(calls, todo, db.execs)
      ensures forall i :: 0 <= i < |calls| ==> (ordered[i].Some? <==> i !in todo)
      ensures forall i :: 0 <= i < |calls| && i !in todo ==>
        KeyOf(calls[i]) in db.execs && ordered[i] == Some(ResultOf(calls[i], db.execs[KeyOf(calls[i])]))
    {
      hide InBatch, ExecOk, DistinctKeys;
      todo := {};
      for index := 0 to |calls|
        invariant forall i: nat :: i in todo <==> i < index && KeyOf(calls[i]) !in db.execs
        invariant forall i :: index <= i < |calls| ==> ordered[i] == None
        invariant forall i :: 0 <= i < index ==>
          ordered[i] == if KeyOf(calls[i]) in db.execs then Some(ResultOf(calls[i], db.execs[KeyOf(calls[i])])) else None
      {
        var existing := db.GetToolExecution(KeyOf(calls[index]));
        if existing.Some? {
          ordered[index] := Some(ResultOf(calls[index], existing.value));
        } else {
          todo := todo + {index};
        }
      }
    }

    // ----- reads -----

    // The calls without side effects run in parallel, each worker in three
    // steps: look for a row, run the body, record the outcome.  Any worker may
    // take the next step.  A body's reply is the host's choice.
    method RunReads(step: nat, calls: seq<Call>, todo: set<nat>, replies: seq<Exec>, ordered: Ordered) returns (o: Outcome)
      requires InResults(config, db, step, calls, ordered) && ordered.Length == |calls| == |replies|
      requires forall i :: 0 <= i < |calls| && IsRead(calls, todo, i) ==> ordered[i].None?
      modifies db, workspace, ordered
      ensures InResults(config, db, step, calls, ordered) && Onward(db, o) && !o.Raised?
      ensures |db.history| <= |old(db.history)| + |calls|
      ensures db.log == old(db.log) && db.emails == old(db.emails) && SideRowsKept(old(db.execs), db.execs)
      ensures forall i :: 0 <= i < |calls| && !IsRead(calls, todo, i) ==> ordered[i] == old(ordered[i])
      ensures o.Ok? ==> forall i :: 0 <= i < |calls| && IsRead(calls, todo, i) ==> ordered[i].Some?
      ensures o.Ok? && DistinctKeys(calls) ==>
        db.execs == AfterReads(old(db.execs), calls, todo, replies, |calls|) && AsReplied(calls, todo, replies, ordered[..])
      ensures todo == {} ==> Untouched(old(db.execs), old(workspace.State()))
      ensures NoPython(calls, todo) ==> workspace.State() == old(workspace.State())
    {
      hide NoPython, ReadsAt, DistinctKeys, AfterReads, AsReplied, InResults, IsRead, SideRowsKept, ReadsOf, Untouched;
      o := Ok;
      var waiting := ReadsOf(calls, todo);
      var running: set<nat> := {};
      ghost var none, rs := waiting == {}, ordered[..];
      ReadsStart(step, calls, todo, replies, ordered);
      assert waiting + running == waiting;
      ReadsFew(calls, todo);
      while waiting + running != {}
        invariant InResults(config, db, step, calls, ordered) && Onward(db, o) && o == Ok
        invariant db.log == old(db.log) && db.emails == old(db.emails)
        invariant ReadsAt(calls, todo, waiting + running, replies, rs, old(db.execs), db.execs, ordered[..])
        invariant |db.history| + |waiting + running| <= |old(db.history)| + |calls|
        invariant none ==> waiting + running == {} && Untouched(old(db.execs), old(workspace.State()))
        invariant NoPython(calls, todo) ==> workspace.State() == old(workspace.State())
        decreases 2 * |waiting| + |running|
      {
        var i :| i in waiting + running;
        ghost var open := waiting + running;
        var finished;
        o, finished := WorkerStep(step, calls, todo, open, rs, old(db.execs), i, i in running, replies, ordered);
        if !o.Ok? {
          ReadsEnd(calls, todo, open, replies, rs, old(db.execs), db.execs, ordered[..]);
          return;
        }
        OneStepOn(waiting, running, i, finished);
        waiting, running := waiting - {i}, if finished then running - {i} else running + {i};
      }
      assert waiting + running == {};
      ReadsEnd(calls, todo, {}, replies, rs, old(db.execs), db.execs, ordered[..]);
    }

    lemma NoPythonHere(calls: seq<Call>, todo: set<nat>, i: nat)
      requires NoPython(calls, todo) ==> IsRead(calls, todo, i)
      ensures NoPython(calls, todo) ==> calls[i].tool != RunPython
    {
    }

    lemma ReadsStart(step: nat, calls: seq<Call>, todo: set<nat>, replies: seq<Exec>, ordered: Ordered)
      requires InResults(config, db, step, calls, ordered) && ordered.Length == |calls| == |replies|
      requires forall i :: 0 <= i < |calls| && IsRead(calls, todo, i) ==> ordered[i].None?
      ensures ReadsAt(calls, todo, ReadsOf(calls, todo), replies, ordered[..], db.execs, db.execs, ordered[..])
      ensures todo == {} ==> ReadsOf(calls, todo) == {}
      ensures Untouched(db.execs, workspace.State())
    {
      NoReadsDone(calls, todo, ordered[..]);
      NoneRecorded(calls, todo, replies, db.execs, ordered[..]);
    }

    // A worker looks for a row and starts its body, or records its outcome.
    method WorkerStep(
      step: nat, calls: seq<Call>, ghost todo: set<nat>, ghost open: set<nat>, ghost rs: Results, ghost before: map<Key, Exec>,
      i: nat, ran: bool, replies: seq<Exec>, ordered: Ordered) returns (o: Outcome, finished: bool)
      requires InResults(config, db, step, calls, ordered)
      requires ReadsAt(calls, todo, open, replies, rs, before, db.execs, ordered[..]) && i in open
      modifies db, workspace, ordered
      ensures InResults(config, db, step, calls, ordered) && Onward(db, o) && !o.Raised?
      ensures |db.history| <= |old(db.history)| + if finished then 1 else 0
      ensures db.log == old(db.log) && db.emails == old(db.emails)
      ensures (NoPython(calls, todo) ==> workspace.State() == old(workspace.State())) && (ran && o.Ok? ==> finished)
      ensures ReadsAt(calls, todo, if o.Ok? && finished then open - {i} else open, replies, rs, before, db.execs, ordered[..])
    {
      hide NoPython, InBatch, ReadsRecorded, DistinctKeys, KeyOf, IsRead, SideRowsKept, ReadsDone, Backed, Unseen, ResultOf;
      o, finished := Ok, true;
      OpenRead(calls, todo, open, rs, ordered[..], i);
      if ran {
        OneRecorded(calls, todo, open, replies, before, db.execs, ordered[..], i);
        ReadDone(calls, todo, open, rs, ordered[..], i, ResultOf(calls[i], replies[i]));
        o := RecordRead(step, calls, todo, i, replies[i], ordered);
        return;
      }
      var existing := db.GetToolExecution(KeyOf(calls[i]));
      if existing.Some? {
        ReadDone(calls, todo, open, rs, ordered[..], i, ResultOf(calls[i], existing.value));
        AnsweredNotDistinct(calls, todo, open, replies, before, db.execs, ordered[..], i);
        AnswerRead(step, calls, i, existing.value, ordered);
        NothingRecorded(calls, todo, open - {i}, replies, before, db.execs, ordered[..]);
      } else {
        NoPythonHere(calls, todo, i);
        workspace.RunHostTool(calls[i].tool);
        finished := false;
      }
    }

    ghost predicate Untouched(execs: map<Key, Exec>, disk: Disk)
      reads db, workspace
    {
      db.execs == execs && workspace.State() == disk
    }

    method AnswerRead(step: nat, calls: seq<Call>, i: nat, row: Exec, ordered: Ordered)
      requires InResults(config, db, step, calls, ordered) && i < |calls| && ordered[i].None?
      requires KeyOf(calls[i]) in db.execs && db.execs[KeyOf(calls[i])] == row
      modifies ordered
      ensures InResults(config, db, step, calls, ordered)
      ensures ordered[..] == old(ordered[..])[i := Some(ResultOf(calls[i], row))]
    {
      hide InBatch, Backed, Unseen, ResultOf;
      Settle(calls, ordered[..], i, db.execs, db.execs);
      ordered[i] := Some(ResultOf(calls[i], row));
      assert ordered[..] == old(ordered[..])[i := Some(ResultOf(calls[i], row))];
    }

    method RecordRead(step: nat, calls: seq<Call>, ghost todo: set<nat>, i: nat, reply: Exec, ordered: Ordered) returns (o: Outcome)
      requires InResults(config, db, step, calls, ordered) && IsRead(calls, todo, i) && ordered[i].None?
      modifies db, ordered
      ensures InResults(config, db, step, calls, ordered) && Onward(db, o) && !o.Raised?
      ensures |db.history| <= |old(db.history)| + 1
      ensures db.log == old(db.log) && db.emails == old(db.emails)
      ensures forall before: map<Key, Exec> :: SideRowsKept(before, old(db.execs)) ==> SideRowsKept(before, db.execs)
      ensures o.Ok? ==> db.execs == old(db.execs)[KeyOf(calls[i]) := reply]
      ensures o.Ok? ==> ordered[..] == old(ordered[..])[i := Some(ResultOf(calls[i], reply))]
      ensures o.Killed? ==> db.execs == old(db.execs) && ordered[..] == old(ordered[..])
    {
      hide Path, NoProgress, AllStarted, Backed, Unseen, ResultOf;
      RecordAllowed(config, db.State(), calls[i], reply);
      o := Guard.Record(config, db, calls[i], reply);
      if o.Ok? {
        Settle(calls, ordered[..], i, old(db.execs), db.execs);
        ordered[i] := Some(ResultOf(calls[i], reply));
        assert ordered[..] == old(ordered[..])[i := Some(ResultOf(calls[i], reply))];
      }
    }

    // ----- one side effect -----

    // A call that must not run is recorded as blocked, unless its key has a
    // row already: then that row answers it.
    method BlockedToolResult(step: nat, calls: seq<Call>, call: Call, error: string) returns (o: Outcome, result: ToolResult)
      requires InBatch(config, db, step, calls) && call in calls && error != ""
      modifies db
      ensures InBatch(config, db, step, calls) && Onward(db, o) && !o.Raised? && db.log == old(db.log)
      ensures |db.history| <= |old(db.history)| + 1
      ensures o.Ok? ==> Answered(call, result, old(db.execs), db.execs)
      ensures o.Ok? && KeyOf(call) !in old(db.execs) ==>
        !result.ok && result.error == error && db.execs == old(db.execs)[KeyOf(call) := Exec(ExecBlocked, "", error)]
    {
      hide Path, NoProgress, AllStarted;
      result := ResultOf(call, Exec(ExecBlocked, "", error));
      var existing := db.GetToolExecution(KeyOf(call));
      if existing.Some? {
        return Ok, ResultOf(call, existing.value);
      }
      RecordAllowed(config, db.State(), call, Exec(ExecBlocked, "", error));
      o := Guard.Record(config, db, call, Exec(ExecBlocked, "", error));
    }

    // Email is refused once tool output has entered the conversation.
    method RunOne(step: nat, calls: seq<Call>, call: Call, memory: MemoryManager) returns (o: Outcome, result: ToolResult)
      requires InBatch(config, db, step, calls) && call in calls
      requires memory.hasToolResultData <==> Tainted(db.log)
      requires call.tool == SendEmail ==> OthersSucceeded(db.execs, calls)
      modifies db, workspace
      ensures InBatch(config, db, step, calls) && Onward(db, o) && !o.Raised? && db.log == old(db.log)
      ensures |db.history| <= |old(db.history)| + 1
      ensures o.Ok? ==> Answered(call, result, old(db.execs), db.execs)
      ensures call.tool == SendEmail || KeyOf(call) in old(db.execs) ==> workspace.State() == old(workspace.State())
      ensures o.Ok? && call.tool == WriteFile && KeyOf(call) !in old(db.execs) ==>
        WriteEffect(workspace.resolve, call, result.ok, result.error, old(workspace.State()), workspace.State())
      ensures o.Ok? && call.tool == WriteFile && KeyOf(call) !in old(db.execs) && !result.ok ==> IsWriteError(result.error)
      ensures o.Ok? && call.tool == SendEmail && KeyOf(call) !in old(db.execs) ==>
        (result.ok <==> Mailable(call.args) && !Tainted(db.log))
    {
      hide InBatch, OthersSucceeded, Tainted, ResultOf, WriteEffect;
      if call.tool == SendEmail && memory.hasToolResultData {
        o, result := BlockedToolResult(step, calls, call, EMAIL_BLOCKED);
      } else {
        var executor := new ToolExecutor(config, db, workspace);
        o, result := executor.Execute(call, step, calls);
      }
    }

    // ----- taking writes back -----

    lemma NoneHandled(preimages: seq<Preimage>)
      ensures Handled(preimages, |preimages|, {})
    {
    }

    lemma FaultIs(r: ToolResult)
      ensures IsFault(r.(ok := false, error := ROLLBACK_FAILED))
    {
    }

    method RollbackWrites(preimages: seq<Preimage>, ordered: Ordered) returns (restored: set<nat>)
      requires forall k :: 0 <= k < |preimages| ==>
        preimages[k].index < ordered.Length && ordered[preimages[k].index].Some?
      requires InOrder(preimages)
      modifies workspace, ordered
      ensures RolledBack(preimages, old(workspace.State()), workspace.State(), old(ordered[..]), ordered[..], restored)
    {
      hide Agree, Undo, Weakened, IndexesOf, IsFault, Unrestored, Handled, InOrder;
      NoneHandled(preimages);
      restored := {};
      WeakenedSame(ordered[..]);
      AgreeSame(Undo(workspace.files, preimages), workspace.damaged);
      var k := |preimages|;
      assert preimages[..k] == preimages;
      while k > 0
        invariant k <= |preimages|
        invariant workspace.folders == old(workspace.folders)
        invariant old(workspace.damaged) <= workspace.damaged
        invariant forall q :: q in workspace.damaged ==>
          q in old(workspace.damaged) || Unrestored(preimages[k..], restored, ordered[..], q)
        invariant Handled(preimages, k, restored)
        invariant Agree(Undo(workspace.files, preimages[..k]), Undo(old(workspace.files), preimages), workspace.damaged)
        invariant Weakened(old(ordered[..]), ordered[..]) && restored <= IndexesOf(preimages)
        invariant forall i :: 0 <= i < ordered.Length && i !in IndexesOf(preimages) ==> ordered[i] == old(ordered[i])
        invariant forall j :: 0 <= j < |preimages| ==>
          preimages[j].index < ordered.Length && ordered[preimages[j].index].Some?
        invariant forall j :: k <= j < |preimages| ==> AccountedFor(preimages[j].index, restored, ordered[..])
      {
        var p := preimages[k - 1];
        UndoStep(workspace.files, preimages, k);
        OneOf(preimages, k - 1);
        ghost var files, damaged, rs := workspace.files, workspace.damaged, ordered[..];
        var ok := workspace.Restore(p.path, p.content);
        ghost var done := restored;
        if ok {
          restored := restored + {p.index};
        } else {
          FaultIs(ordered[p.index].value);
          ordered[p.index] := Some(ordered[p.index].value.(ok := false, error := ROLLBACK_FAILED));
          WeakenedMore(old(ordered[..]), rs, p.index);
          assert ordered[..] == rs[p.index := ordered[p.index]];
          FaultAgrees(files, workspace.files, p.path, p.content, preimages[..k - 1]);
          AgreeTrans(
            Undo(workspace.files, preimages[..k - 1]), Undo(files, preimages[..k]), Undo(old(workspace.files), preimages),
            {p.path}, damaged, workspace.damaged);
        }
        OneMoreBack(preimages, k, done, restored, rs, ordered[..], ok);
        k := k - 1;
      }
      UndoNone(workspace.files, preimages);
      assert preimages[0..] == preimages;
    }

    // ----- writes -----

    ghost function Now(ordered: Ordered, preimages: seq<Preimage>, restored: set<nat>): Progress
      reads db, workspace, ordered
    {
      Progress(workspace.State(), ordered[..], db.execs, preimages, restored)
    }

    method BatchHasFailedResult(ordered: Ordered) returns (failed: bool)
      ensures failed <==> HasFailed(ordered[..])
    {
      for i := 0 to ordered.Length
        invariant forall j :: 0 <= j < i ==> ordered[j].None? || ordered[j].value.ok
      {
        if ordered[i].Some? && !ordered[i].value.ok {
          assert ordered[..][i].Some?;
          return true;
        }
      }
      failed := false;
    }

    // The result of a settled call takes its place.
    method PutResult(step: nat, calls: seq<Call>, i: nat, result: ToolResult, ordered: Ordered, ghost before: map<Key, Exec>)
      requires InBatch(config, db, step, calls) && i < |calls| == ordered.Length && ordered[i].None?
      requires Backed(calls, ordered[..], before) && Unseen(calls, ordered[..], before)
      requires Answered(calls[i], result, before, db.execs)
      modifies ordered
      ensures InResults(config, db, step, calls, ordered)
      ensures ordered[..] == old(ordered[..])[i := Some(result)]
    {
      hide InBatch, Backed, Unseen, ResultOf;
      Settle(calls, ordered[..], i, before, db.execs);
      ordered[i] := Some(result);
      assert ordered[..] == old(ordered[..])[i := Some(result)];
    }

    ghost predicate AtWrite(step: nat, calls: seq<Call>, w: Plan, p: Progress, failedAt: nat, index: nat, ordered: Ordered)
      reads db, workspace, ordered
    {
      InResults(config, db, step, calls, ordered) && w.resolve == workspace.resolve && w.calls == calls
      && IsWrite(calls, w.todo, index) && ordered[index].None?
      && p == Now(ordered, p.preimages, p.restored) && UpTo(w, p, failedAt, index)
    }

    method SkipWrite(
      step: nat, calls: seq<Call>, index: nat, ordered: Ordered, ghost w: Plan, ghost p: Progress, ghost failedAt: nat)
      returns (o: Outcome)
      requires AtWrite(step, calls, w, p, failedAt, index, ordered) && HasFailed(ordered[..])
      modifies db, ordered
      ensures InBatch(config, db, step, calls) && Onward(db, o) && !o.Raised? && db.log == old(db.log)
      ensures |db.history| <= |old(db.history)| + 1
      ensures o.Ok? ==> InResults(config, db, step, calls, ordered) && ordered[index].Some? && HasFailed(ordered[..])
      ensures o.Ok? ==> UpTo(w, Now(ordered, p.preimages, p.restored), failedAt, index + 1)
      ensures o.Ok? && NoMailYet(calls, w.todo, old(db.execs)) ==> NoMailYet(calls, w.todo, db.execs)
      ensures forall i :: 0 <= i < ordered.Length && i != index ==> ordered[i] == old(ordered[i])
    {
      hide InBatch, UpTo, Backed, Unseen, ExecOk, HasFailed, NoMailYet;
      var result;
      o, result := BlockedToolResult(step, calls, calls[index], SKIPPED);
      if o.Ok? {
        PutResult(step, calls, index, result, ordered, old(db.execs));
        WriteIsSkipped(w, p, failedAt, index, ordered[..], db.execs);
        SettleHasFailed(old(ordered[..]), index, result);
        SpareMail(calls, w.todo, old(db.execs), db.execs, calls[index], result);
      }
    }

    lemma SpareMail(calls: seq<Call>, todo: set<nat>, execs: map<Key, Exec>, execs': map<Key, Exec>, call: Call, r: ToolResult)
      requires Answered(call, r, execs, execs') && call.tool == WriteFile
      ensures NoMailYet(calls, todo, execs) ==> NoMailYet(calls, todo, execs')
    {
      hide NoMailYet;
      if NoMailYet(calls, todo, execs) { WriteIsNoMail(calls, todo, execs, call, execs'[KeyOf(call)]); }
    }

    // A write runs with its preimage at hand; if it fails, the writes before it
    // are taken back.
    method DoWrite(
      step: nat, calls: seq<Call>, memory: MemoryManager, index: nat, ordered: Ordered, preimages: seq<Preimage>,
      ghost w: Plan, ghost p: Progress, ghost failedAt: nat)
      returns (o: Outcome, preimages': seq<Preimage>, restored: set<nat>, ghost failedAt': nat)
      requires AtWrite(step, calls, w, p, failedAt, index, ordered) && !HasFailed(ordered[..]) && p.preimages == preimages
      requires memory.hasToolResultData <==> Tainted(db.log)
      requires failedAt >= |calls|
      modifies db, workspace, ordered
      ensures InBatch(config, db, step, calls) && Onward(db, o) && !o.Raised? && db.log == old(db.log)
      ensures |db.history| <= |old(db.history)| + 1
      ensures o.Ok? ==> InResults(config, db, step, calls, ordered) && ordered[index].Some?
      ensures o.Ok? ==> UpTo(w, Now(ordered, preimages', p.restored + restored), failedAt', index + 1)
      ensures o.Ok? ==> (HasFailed(ordered[..]) <==> failedAt' < |calls|)
      ensures o.Ok? && NoMailYet(calls, w.todo, old(db.execs)) ==> NoMailYet(calls, w.todo, db.execs)
      ensures forall i :: 0 <= i < ordered.Length && i != index ==> (ordered[i].Some? <==> old(ordered[i].Some?))
    {
      hide InBatch, UpTo, Backed, Unseen, HasFailed, Tainted, WriteEffect, RolledBack, NoMailYet;
      preimages', restored, failedAt' := preimages, {}, failedAt;
      assert IsWrite(calls, w.todo, index);
      var preimage := workspace.CaptureWritePreimage(index, calls[index].args.path);
      var result;
      o, result := RunOne(step, calls, calls[index], memory);
      if !o.Ok? {
        return;
      }
      PutResult(step, calls, index, result, ordered, old(db.execs));
      SettleHasFailed(old(ordered[..]), index, result);
      SpareMail(calls, w.todo, old(db.execs), db.execs, calls[index], result);
      if result.ok {
        WriteSucceeds(w, p, failedAt, index, ordered[..], db.execs, workspace.State());
        if preimage.Some? { preimages' := preimages + [preimage.value]; }
        assert p.restored + {} == p.restored && preimage == Some(PreimageAt(w, p, index));
      } else {
        ghost var rs, disk := ordered[..], workspace.State();
        PreimagesIndexed(w, p, failedAt, index, rs);
        PreimagesOrdered(w, p, failedAt, index);
        restored := RollbackWrites(preimages, ordered);
        WriteFails(w, p, failedAt, index, rs, db.execs, disk, workspace.State(), ordered[..], restored);
        RollbackKeeps(calls, preimages, disk, workspace.State(), rs, ordered[..], restored, db.execs);
        FailedHere(ordered[..], index);
        failedAt' := index;
      }
    }

    // The writes run one after the other, in the order of the calls.
    method RunWrites(step: nat, calls: seq<Call>, todo: set<nat>, memory: MemoryManager, ordered: Ordered, ghost w: Plan)
      returns (o: Outcome, preimages: seq<Preimage>, restored: set<nat>, ghost failedAt: nat)
      requires InBatch(config, db, step, calls) && InResults(config, db, step, calls, ordered) && ordered.Length == |calls|
      requires w == Plan(workspace.resolve, calls, todo, workspace.State()) && workspace.damaged == {}
      requires forall i :: 0 <= i < |calls| && IsWrite(calls, todo, i) ==> KeyOf(calls[i]) !in db.execs
      requires forall i :: 0 <= i < |calls| && Waits(w, i) ==> ordered[i].None?
      requires memory.hasToolResultData <==> Tainted(db.log)
      modifies db, workspace, ordered
      ensures InBatch(config, db, step, calls) && Onward(db, o) && !o.Raised? && db.log == old(db.log)
      ensures |db.history| <= |old(db.history)| + |calls|
      ensures o.Ok? ==> InResults(config, db, step, calls, ordered)
      ensures o.Ok? ==> UpTo(w, Now(ordered, preimages, restored), failedAt, |calls|)
      ensures old(HasFailed(ordered[..])) ==> restored == {} && workspace.State() == old(workspace.State())
      ensures o.Ok? ==> (HasFailed(ordered[..]) <==> failedAt < |calls|)
      ensures o.Ok? && NoMailYet(calls, todo, old(db.execs)) ==> NoMailYet(calls, todo, db.execs)
      ensures o.Ok? ==> Filled(calls, todo, WriteFile, |calls|, old(ordered[..]), ordered[..])
      ensures todo == {} ==> restored == {} && Untouched(old(db.execs), old(workspace.State()))
    {
      hide UpTo, Filled, Tainted, InResults, HasFailed, InBatch, NoMailYet;
      o, preimages, restored := Ok, [], {};
      failedAt := if HasFailed(ordered[..]) then 0 else |calls|;
      WritesStart(step, calls, todo, ordered, w);
      for index := 0 to |calls|
        invariant InBatch(config, db, step, calls) && InResults(config, db, step, calls, ordered)
        invariant Onward(db, o) && o == Ok && db.log == old(db.log) && |db.history| <= |old(db.history)| + index
        invariant UpTo(w, Now(ordered, preimages, restored), failedAt, index)
        invariant old(HasFailed(ordered[..])) ==>
          HasFailed(ordered[..]) && restored == {} && workspace.State() == old(workspace.State())
        invariant HasFailed(ordered[..]) <==> failedAt < |calls|
        invariant NoMailYet(calls, todo, old(db.execs)) ==> NoMailYet(calls, todo, db.execs)
        invariant Filled(calls, todo, WriteFile, index, old(ordered[..]), ordered[..])
        invariant todo == {} ==> restored == {} && Untouched(old(db.execs), old(workspace.State()))
      {
        ghost var rs := ordered[..];
        if index in todo && calls[index].tool == WriteFile {
          StillNone(calls, todo, WriteFile, index, old(ordered[..]), rs);
          o, preimages, restored, failedAt := RunWrite(step, calls, memory, index, ordered, preimages, restored, w, failedAt);
          if !o.Ok? {
            return;
          }
        } else {
          BatchPasses(w, Now(ordered, preimages, restored), failedAt, index);
        }
        FilledOne(calls, todo, WriteFile, index, old(ordered[..]), rs, ordered[..]);
      }
    }

    lemma FailedSome(rs: Results)
      ensures HasFailed(rs) ==> |rs| > 0
    {
    }

    lemma WritesStart(step: nat, calls: seq<Call>, todo: set<nat>, ordered: Ordered, w: Plan)
      requires InResults(config, db, step, calls, ordered) && w == Plan(workspace.resolve, calls, todo, workspace.State())
      requires workspace.damaged == {} && ordered.Length == |calls|
      requires forall i :: 0 <= i < |calls| && IsWrite(calls, todo, i) ==> KeyOf(calls[i]) !in db.execs
      requires forall i :: 0 <= i < |calls| && Waits(w, i) ==> ordered[i].None?
      ensures UpTo(w, Now(ordered, [], {}), if HasFailed(ordered[..]) then 0 else |calls|, 0)
      ensures HasFailed(ordered[..]) ==> |calls| > 0
      ensures Filled(calls, todo, WriteFile, 0, ordered[..], ordered[..])
    {
      hide InBatch, HasFailed;
      BatchBegins(w, Now(ordered, [], {}));
      FailedSome(ordered[..]);
      FilledNone(calls, todo, WriteFile, ordered[..]);
    }

    method RunWrite(
      step: nat, calls: seq<Call>, memory: MemoryManager, index: nat, ordered: Ordered, preimages: seq<Preimage>,
      restored: set<nat>, ghost w: Plan, ghost failedAt: nat)
      returns (o: Outcome, preimages': seq<Preimage>, restored': set<nat>, ghost failedAt': nat)
      requires AtWrite(step, calls, w, Now(ordered, preimages, restored), failedAt, index, ordered)
      requires memory.hasToolResultData <==> Tainted(db.log)
      requires HasFailed(ordered[..]) <==> failedAt < |calls|
      modifies db, workspace, ordered
      ensures InBatch(config, db, step, calls) && Onward(db, o) && !o.Raised? && db.log == old(db.log)
      ensures |db.history| <= |old(db.history)| + 1
      ensures o.Ok? ==> InResults(config, db, step, calls, ordered) && ordered[index].Some?
      ensures o.Ok? ==> UpTo(w, Now(ordered, preimages', restored'), failedAt', index + 1)
      ensures o.Ok? && old(HasFailed(ordered[..])) ==> HasFailed(ordered[..])
      ensures old(HasFailed(ordered[..])) ==> restored' == restored && workspace.State() == old(workspace.State())
      ensures o.Ok? ==> (HasFailed(ordered[..]) <==> failedAt' < |calls|)
      ensures o.Ok? && NoMailYet(calls, w.todo, old(db.execs)) ==> NoMailYet(calls, w.todo, db.execs)
      ensures forall i :: 0 <= i < ordered.Length && i != index ==> (ordered[i].Some? <==> old(ordered[i].Some?))
    {
      hide InResults, UpTo, HasFailed, Tainted, NoMailYet;
      preimages', restored', failedAt' := preimages, restored, failedAt;
      ghost var p := Now(ordered, preimages, restored);
      var failed := BatchHasFailedResult(ordered);
      if failed {
        o := SkipWrite(step, calls, index, ordered, w, p, failedAt);
      } else {
        var more;
        o, preimages', more, failedAt' := DoWrite(step, calls, memory, index, ordered, preimages, w, p, failedAt);
        restored' := restored + more;
      }
    }

    // ----- emails -----

    ghost predicate AtEmail(step: nat, calls: seq<Call>, w: Plan, p: Progress, failedAt: nat, index: nat, ordered: Ordered)
      reads db, workspace, ordered
    {
      InResults(config, db, step, calls, ordered) && w.resolve == workspace.resolve && w.calls == calls
      && Waits(w, index) && calls[index].tool == SendEmail && ordered[index].None?
      && p == Now(ordered, p.preimages, p.restored) && UpTo(w, p, failedAt, |calls|)
    }

    method SkipEmail(
      step: nat, calls: seq<Call>, index: nat, ordered: Ordered, ghost w: Plan, ghost p: Progress, ghost failedAt: nat)
      returns (o: Outcome)
      requires AtEmail(step, calls, w, p, failedAt, index, ordered) && HasFailed(ordered[..])
      modifies db, ordered
      ensures InBatch(config, db, step, calls) && Onward(db, o) && !o.Raised? && db.log == old(db.log)
      ensures |db.history| <= |old(db.history)| + 1
      ensures o.Ok? ==> InResults(config, db, step, calls, ordered) && ordered[index].Some? && HasFailed(ordered[..])
      ensures o.Ok? ==> UpTo(w, Now(ordered, p.preimages, p.restored), failedAt, |calls|)
      ensures o.Ok? ==>
        MailSettled(calls, index, Tainted(db.log), old(ordered[..]), ordered[..], old(db.execs), db.execs)
      ensures forall i :: 0 <= i < ordered.Length && i != index ==> ordered[i] == old(ordered[i])
    {
      hide InBatch, UpTo, Backed, Unseen, ResultOf, HasFailed, MailSettled, Tainted, Mailable;
      var result;
      o, result := BlockedToolResult(step, calls, calls[index], SKIPPED);
      if o.Ok? {
        PutResult(step, calls, index, result, ordered, old(db.execs));
        EmailIsSettled(w, p, failedAt, index, ordered[..], db.execs);
        SettleHasFailed(old(ordered[..]), index, result);
        MailIsSettled(
          calls, index, Tainted(db.log), old(ordered[..]), ordered[..], ordered[..], result, old(db.execs), db.execs);
      }
    }

    // An email goes out when nothing has failed so far; one that does not go
    // out takes the writes of its batch back.
    method DoEmail(
      step: nat, calls: seq<Call>, memory: MemoryManager, index: nat, ordered: Ordered, preimages: seq<Preimage>,
      ghost w: Plan, ghost p: Progress, ghost failedAt: nat)
      returns (o: Outcome, restored: set<nat>)
      requires AtEmail(step, calls, w, p, failedAt, index, ordered) && !HasFailed(ordered[..]) && p.preimages == preimages
      requires forall i :: 0 <= i < |calls| && calls[i].tool != SendEmail ==> ordered[i].Some?
      requires memory.hasToolResultData <==> Tainted(db.log)
      modifies db, workspace, ordered
      ensures InBatch(config, db, step, calls) && Onward(db, o) && !o.Raised? && db.log == old(db.log)
      ensures |db.history| <= |old(db.history)| + 1
      ensures o.Ok? ==> InResults(config, db, step, calls, ordered) && ordered[index].Some?
      ensures o.Ok? ==> UpTo(w, Now(ordered, preimages, p.restored + restored), failedAt, |calls|)
      ensures o.Ok? ==>
        MailSettled(calls, index, Tainted(db.log), old(ordered[..]), ordered[..], old(db.execs), db.execs)
      ensures forall i :: 0 <= i < ordered.Length && i != index ==> (ordered[i].Some? <==> old(ordered[i].Some?))
    {
      hide InBatch, UpTo, Backed, Unseen, HasFailed, Tainted, RolledBack, OthersSucceeded, MailSettled, Mailable;
      restored := {};
      OthersBacked(calls, ordered[..], db.execs);
      var result;
      o, result := RunOne(step, calls, calls[index], memory);
      if !o.Ok? {
        return;
      }
      PutResult(step, calls, index, result, ordered, old(db.execs));
      ghost var rs, disk := ordered[..], workspace.State();
      if result.ok {
        EmailIsSettled(w, p, failedAt, index, rs, db.execs);
        assert p.restored + {} == p.restored;
      } else {
        PreimagesIndexed(w, p, failedAt, |calls|, rs);
        PreimagesOrdered(w, p, failedAt, |calls|);
        restored := RollbackWrites(preimages, ordered);
        EmailFails(w, p, failedAt, index, rs, db.execs, workspace.State(), ordered[..], restored);
        RollbackKeeps(calls, preimages, disk, workspace.State(), rs, ordered[..], restored, db.execs);
        RollbackSparesMail(w, p, failedAt, |calls|, disk, workspace.State(), rs, ordered[..], restored);
      }
      MailIsSettled(calls, index, Tainted(db.log), old(ordered[..]), rs, ordered[..], result, old(db.execs), db.execs);
    }

    method RunEmail(
      step: nat, calls: seq<Call>, memory: MemoryManager, index: nat, ordered: Ordered, preimages: seq<Preimage>,
      restored: set<nat>, ghost w: Plan, ghost failedAt: nat)
      returns (o: Outcome, restored': set<nat>)
      requires AtEmail(step, calls, w, Now(ordered, preimages, restored), failedAt, index, ordered)
      requires forall i :: 0 <= i < |calls| && calls[i].tool != SendEmail ==> ordered[i].Some?
      requires memory.hasToolResultData <==> Tainted(db.log)
      modifies db, workspace, ordered
      ensures InBatch(config, db, step, calls) && Onward(db, o) && !o.Raised? && db.log == old(db.log)
      ensures |db.history| <= |old(db.history)| + 1
      ensures o.Ok? ==> InResults(config, db, step, calls, ordered) && ordered[index].Some?
      ensures o.Ok? ==> UpTo(w, Now(ordered, preimages, restored'), failedAt, |calls|)
      ensures o.Ok? && old(HasFailed(ordered[..])) ==> HasFailed(ordered[..])
      ensures old(HasFailed(ordered[..])) ==> restored' == restored && workspace.State() == old(workspace.State())
      ensures o.Ok? ==>
        MailSettled(calls, index, Tainted(db.log), old(ordered[..]), ordered[..], old(db.execs), db.execs)
      ensures forall i :: 0 <= i < ordered.Length && i != index ==> (ordered[i].Some? <==> old(ordered[i].Some?))
    {
      hide InResults, UpTo, HasFailed, Tainted, MailSettled;
      restored' := restored;
      ghost var p := Now(ordered, preimages, restored);
      var failed := BatchHasFailedResult(ordered);
      if failed {
        o := SkipEmail(step, calls, index, ordered, w, p, failedAt);
      } else {
        var more;
        o, more := DoEmail(step, calls, memory, index, ordered, preimages, w, p, failedAt);
        restored' := restored + more;
      }
    }

    method RunEmails(
      step: nat, calls: seq<Call>, todo: set<nat>, memory: MemoryManager, ordered: Ordered, preimages: seq<Preimage>,
      restored: set<nat>, ghost w: Plan, ghost failedAt: nat)
      returns (o: Outcome, restored': set<nat>)
      requires InBatch(config, db, step, calls) && InResults(config, db, step, calls, ordered) && ordered.Length == |calls|
      requires w.resolve == workspace.resolve && w.calls == calls && w.todo == todo
      requires UpTo(w, Now(ordered, preimages, restored), failedAt, |calls|)
      requires forall i :: 0 <= i < |calls| ==> (ordered[i].Some? <==> !(i in todo && calls[i].tool == SendEmail))
      requires (HasFailed(ordered[..]) <==> failedAt < |calls|) && NoMailYet(calls, todo, db.execs)
      requires memory.hasToolResultData <==> Tainted(db.log)
      modifies db, workspace, ordered
      ensures InBatch(config, db, step, calls) && Onward(db, o) && !o.Raised? && db.log == old(db.log)
      ensures |db.history| <= |old(db.history)| + |calls|
      ensures o.Ok? ==> InResults(config, db, step, calls, ordered)
      ensures o.Ok? ==> UpTo(w, Now(ordered, preimages, restored'), failedAt, |calls|)
      ensures old(HasFailed(ordered[..])) ==> restored' == restored && workspace.State() == old(workspace.State())
      ensures o.Ok? ==> MailedUpTo(calls, todo, failedAt >= |calls|, Tainted(db.log), ordered[..], db.execs, |calls|)
      ensures o.Ok? ==> forall i :: 0 <= i < |calls| ==> ordered[i].Some?
      ensures todo == {} ==> restored' == restored && Untouched(old(db.execs), old(workspace.State()))
    {
      hide UpTo, Tainted, InResults, InBatch, MailedUpTo, MailSettled, HasFailed;
      o, restored' := Ok, restored;
      MailBegins(calls, todo, Tainted(db.log), ordered[..], db.execs);
      for index := 0 to |calls|
        invariant InBatch(config, db, step, calls) && InResults(config, db, step, calls, ordered)
        invariant Onward(db, o) && o == Ok && db.log == old(db.log) && |db.history| <= |old(db.history)| + index
        invariant UpTo(w, Now(ordered, preimages, restored'), failedAt, |calls|)
        invariant old(HasFailed(ordered[..])) ==>
          HasFailed(ordered[..]) && restored' == restored && workspace.State() == old(workspace.State())
        invariant MailedUpTo(calls, todo, failedAt >= |calls|, Tainted(db.log), ordered[..], db.execs, index)
        invariant forall i :: 0 <= i < |calls| ==> (ordered[i].Some? <==> !(index <= i && i in todo && calls[i].tool == SendEmail))
        invariant todo == {} ==> restored' == restored && Untouched(old(db.execs), old(workspace.State()))
      {
        if index in todo && calls[index].tool == SendEmail {
          ghost var rs, execs := ordered[..], db.execs;
          o, restored' := RunEmail(step, calls, memory, index, ordered, preimages, restored', w, failedAt);
          if !o.Ok? {
            return;
          }
          MailStep(calls, todo, failedAt >= |calls|, Tainted(db.log), rs, ordered[..], execs, db.execs, index);
        } else {
          MailPasses(calls, todo, failedAt >= |calls|, Tainted(db.log), ordered[..], db.execs, index);
        }
      }
    }

    // ----- reporting -----

    ghost predicate Reporting(step: nat, calls: seq<Call>, memory: MemoryManager)
      reads db, memory, memory.window
    {
      InBatch(config, db, step, calls) && AllExecuted(db.execs, calls) && Remembers(script, memory.Value(), db.log)
    }

    // The result is logged, and shown to the model if it is new; the row of a
    // write that was taken back is corrected first.
    method RecordResult(
      step: nat, calls: seq<Call>, memory: MemoryManager, index: nat, settled: ToolResult, takenBack: bool)
      returns (o: Outcome)
      requires Reporting(step, calls, memory) && index < |calls| && Answers(calls[index], settled)
      requires takenBack ==> calls[index].tool == WriteFile
      requires AllResulted(db.log, step, calls[..index])
      modifies db, memory, memory.window
      ensures Onward(db, o) && InBatch(config, db, step, calls) && db.emails == old(db.emails)
      ensures Checks(db.log) == Checks(old(db.log)) && (o.Raised? ==> o.message == CONTEXT_LIMIT)
      ensures |db.history| <= |old(db.history)| + 2
      ensures !o.Killed? ==> Reporting(step, calls, memory)
      ensures o.Ok? ==> AllResulted(db.log, step, calls[..index + 1])
      ensures !o.Killed? ==> db.log == Insert(old(db.log), Result(step, index, Final(settled, takenBack)))
      ensures !o.Killed? && takenBack ==>
        db.execs == old(db.execs)[KeyOf(calls[index]) := Exec(ExecFailed, settled.body, ROLLED_BACK)]
      ensures !takenBack ==> db.execs == old(db.execs)
      ensures !o.Killed? && Logged(old(db.log), ResultKey(step, index, calls[index].tool, KeyOf(calls[index]))) ==>
        memory.Value() == old(memory.Value())
      ensures !o.Killed? && !Logged(old(db.log), ResultKey(step, index, calls[index].tool, KeyOf(calls[index]))) ==>
        memory.Value() == After(old(memory.Value()), ToolOutput(LiveText(script, Final(settled, takenBack))), memory.window.budget)
      ensures !o.Killed? && !Logged(old(db.log), ResultKey(step, index, calls[index].tool, KeyOf(calls[index]))) ==>
        (o.Ok? <==> Returns(old(memory.Value()), ToolOutput(LiveText(script, Final(settled, takenBack))), memory.window.budget))
      ensures db.execs == old(db.execs) ||
        db.execs == old(db.execs)[KeyOf(calls[index]) := Exec(ExecFailed, settled.body, ROLLED_BACK)]
      ensures !takenBack && Logged(old(db.log), ResultKey(step, index, calls[index].tool, KeyOf(calls[index]))) ==>
        !o.Raised? && db.log == old(db.log) && db.execs == old(db.execs)
    {
      hide Checks, Announced, Path, NoProgress, AllStarted, AllResulted, AllExecuted, Logged, Insert, MayLog, Recall, After, Returns;
      var result := settled;
      if takenBack {
        var exec := Exec(ExecFailed, result.body, ROLLED_BACK);
        RecordAllowed(config, db.State(), calls[index], exec);
        ExecutedKept(db.execs, calls, calls[index], exec);
        :- Guard.Record(config, db, calls[index], exec);
        result := result.(ok := false, error := ROLLED_BACK);
      }
      var e := Result(step, index, result);
      StepPositive(config, db);
      ResultAllowed(config, db.State(), index, result);
      ResultsGrow(db.log, step, calls, index, result);
      LogOne(step, calls, db.log, e);
      StillExecuting(config, db.State(), e);
      ghost var log, m := db.log, memory.Value();
      MarksKept(log, e);
      var inserted :- Append(config, db, e);
      if inserted {
        RememberNext(script, m, log, e, ToolOutput(LiveText(script, result)), memory.window.budget);
        o := memory.AddToolResult(LiveText(script, result));
      } else {
        o := Ok;
      }
    }

    lemma SlotOf(step: nat, calls: seq<Call>, index: nat, settled: ToolResult, takenBack: bool)
      requires index < |calls| && Answers(calls[index], settled)
      ensures EventKeyOf(Result(step, index, Final(settled, takenBack)))
        == ResultKey(step, index, calls[index].tool, KeyOf(calls[index]))
    {
    }

    // What the model is shown of a result is what is new in the log.
    lemma ResultSpoken(
      m: Mem, m': Mem, log: seq<Event>, log': seq<Event>, step: nat, index: nat, r: ToolResult, shown: Mem, budget: nat)
      requires Spoke(script, m, m', log, log', budget)
      requires shown == if Logged(log', EventKeyOf(Result(step, index, r))) then m'
        else After(m', ToolOutput(LiveText(script, r)), budget)
      ensures Spoke(script, m, shown, log, Insert(log', Result(step, index, r)), budget)
    {
      hide Spoke, After, LiveText, Logged;
      SpokeOne(script, m, m', log, log', Result(step, index, r), budget);
    }

    lemma LogOne(step: nat, calls: seq<Call>, log: seq<Event>, e: Event)
      requires AllStarted(log, step, calls) && EventKeyOf(e) != NoKey
      ensures AllStarted(Insert(log, e), step, calls)
      ensures Insert(log, e) == if Logged(log, EventKeyOf(e)) then log else log + [e]
    {
      InsertKeeps(log, e);
      StartsKept(log, Insert(log, e), step, calls);
    }

    method RecordResults(step: nat, calls: seq<Call>, memory: MemoryManager, ordered: Ordered, restored: set<nat>)
      returns (o: Outcome, results: seq<ToolResult>)
      requires Reporting(step, calls, memory) && ordered.Length == |calls|
      requires forall i :: 0 <= i < |calls| ==> ordered[i].Some? && Answers(calls[i], ordered[i].value)
      requires forall i :: i in restored && i < |calls| ==> calls[i].tool == WriteFile
      requires forall i :: i in restored && i < |calls| ==> ordered[i].value.body == db.execs[KeyOf(calls[i])].body
      modifies db, memory, memory.window
      ensures Onward(db, o) && InBatch(config, db, step, calls) && db.emails == old(db.emails)
      ensures Checks(db.log) == Checks(old(db.log)) && (o.Raised? ==> o.message == CONTEXT_LIMIT)
      ensures |db.history| <= |old(db.history)| + 2 * |calls|
      ensures !o.Killed? ==> Reporting(step, calls, memory)
      ensures o.Ok? ==> AllResulted(db.log, step, calls) && |results| == |calls|
      ensures o.Ok? ==> forall i :: 0 <= i < |calls| ==> results[i] == Final(ordered[i].value, i in restored)
      ensures o.Ok? ==> db.log == WithResults(old(db.log), step, results)
      ensures restored == {} ==> db.execs == old(db.execs)
      ensures !o.Killed? ==> Spoke(script, old(memory.Value()), memory.Value(), old(db.log), db.log, memory.window.budget)
      ensures BodiesKept(old(db.execs), db.execs)
      ensures o.Ok? ==> Corrected(calls, restored, |calls|, old(db.execs), db.execs)
      ensures restored == {} && AllResulted(old(db.log), step, calls) ==> !o.Raised? && db.log == old(db.log)
    {
      hide Spoke, Returns, After, LiveText, Checks, BodiesKept, InBatch, Remembers, AllResulted, AllExecuted, Logged, Answers, Final, Insert, Corrected, KeyOf, WithResults;
      o, results := Ok, [];
      NoResults(db.log, step);
      SpokeNothing(script, memory.Value(), db.log, memory.window.budget);
      NothingResulted(db.log, step, calls);
      HaveRows(db.execs, calls);
      NothingCorrected(calls, restored, db.execs);
      for index := 0 to |calls|
        invariant Reporting(step, calls, memory) && Onward(db, o) && o == Ok && db.emails == old(db.emails)
        invariant AllResulted(db.log, step, calls[..index]) && |results| == index && Checks(db.log) == Checks(old(db.log))
        invariant |db.history| <= |old(db.history)| + 2 * index
        invariant db.log == WithResults(old(db.log), step, results)
        invariant restored == {} ==> db.execs == old(db.execs)
        invariant BodiesKept(old(db.execs), db.execs)
        invariant Spoke(script, old(memory.Value()), memory.Value(), old(db.log), db.log, memory.window.budget)
        invariant Corrected(calls, restored, index, old(db.execs), db.execs)
        invariant forall i :: 0 <= i < index ==> results[i] == Final(ordered[i].value, i in restored)
        invariant restored == {} && AllResulted(old(db.log), step, calls) ==> db.log == old(db.log)
      {
        if AllResulted(db.log, step, calls) { ResultedAt(db.log, step, calls, index); }
        OneBody(calls, old(db.execs), db.execs, ordered[index].value, index, index in restored);
        OneCorrected(calls, restored, index, old(db.execs), db.execs, ordered[index].value);
        ghost var m, log := memory.Value(), db.log;
        o := RecordResult(step, calls, memory, index, ordered[index].value, index in restored);
        if !o.Killed? {
          SlotOf(step, calls, index, ordered[index].value, index in restored);
          ResultSpoken(
            old(memory.Value()), m, old(db.log), log, step, index, Final(ordered[index].value, index in restored), memory.Value(),
            memory.window.budget);
        }
        if !o.Ok? {
          return;
        }
        WithResult(old(db.log), step, results, Final(ordered[index].value, index in restored));
        results := results + [Final(ordered[index].value, index in restored)];
      }
      assert calls[..|calls|] == calls;
    }

    lemma HaveRows(execs: map<Key, Exec>, calls: seq<Call>)
      requires AllExecuted(execs, calls)
      ensures BodiesKept(execs, execs) && forall i :: 0 <= i < |calls| ==> KeyOf(calls[i]) in execs
    {
    }

    lemma OneBody(calls: seq<Call>, before: map<Key, Exec>, execs: map<Key, Exec>, r: ToolResult, i: nat, takenBack: bool)
      requires BodiesKept(before, execs) && i < |calls| && KeyOf(calls[i]) in before
      requires takenBack ==> r.body == before[KeyOf(calls[i])].body
      ensures BodiesKept(before, if takenBack then execs[KeyOf(calls[i]) := Exec(ExecFailed, r.body, ROLLED_BACK)] else execs)
    {
      hide KeyOf;
    }

    lemma ResultedAt(log: seq<Event>, step: nat, calls: seq<Call>, i: nat)
      requires AllResulted(log, step, calls) && i < |calls|
      ensures Logged(log, ResultKey(step, i, calls[i].tool, KeyOf(calls[i])))
    {
    }

    // ----- the whole batch -----

    method HostReplies(calls: seq<Call>) returns (replies: seq<Exec>)
      ensures |replies| == |calls| && forall i :: 0 <= i < |calls| ==> Reply(calls[i].tool, replies[i])
    {
      replies := [];
      for i := 0 to |calls|
        invariant |replies| == i && forall j :: 0 <= j < i ==> Reply(calls[j].tool, replies[j])
      {
        var body: string, error: string := *, *;
        if calls[i].tool.Unknown? { error := "ToolArgumentError"; }
        replies := replies + [if error == "" then Exec(ExecCompleted, body, "") else Exec(ExecFailed, "", error)];
      }
    }

    method RunCalls(step: nat, calls: seq<Call>, memory: MemoryManager, ordered: Ordered)
      returns (o: Outcome, restored: set<nat>, ghost w: Plan, ghost p: Progress, ghost failedAt: nat)
      requires InBatch(config, db, step, calls) && ordered.Length == |calls|
      requires forall i :: 0 <= i < |calls| ==> ordered[i] == None
      requires memory.hasToolResultData <==> Tainted(db.log)
      modifies db, workspace, ordered
      ensures InBatch(config, db, step, calls) && Onward(db, o) && !o.Raised? && db.log == old(db.log)
      ensures |db.history| <= |old(db.history)| + 3 * |calls|
      ensures o.Ok? ==> InResults(config, db, step, calls, ordered) && forall i :: 0 <= i < |calls| ==> ordered[i].Some?
      ensures o.Ok? ==> w.calls == calls && IsTodo(calls, w.todo, old(db.execs)) && w.resolve == workspace.resolve
      ensures o.Ok? && NoPython(calls, w.todo) ==> w.base == old(workspace.State()).(damaged := {})
      ensures o.Ok? ==> UpTo(w, p, failedAt, |calls|)
      ensures o.Ok? ==> MailedUpTo(calls, w.todo, failedAt >= |calls|, Tainted(db.log), p.rs, db.execs, |calls|)
      ensures o.Ok? ==> p.rs == ordered[..] && p.disk == workspace.State() && p.restored == restored
      ensures AllExecuted(old(db.execs), calls) ==>
        restored == {} && Untouched(old(db.execs), old(workspace.State()).(damaged := {}))
    {
      hide MailedUpTo, NoMailYet, HasFailed, NoPython, Waits, InBatch, UpTo, Filled, Tainted, IsTodo, IsRead, IsWrite, SideRowsKept, AfterReads, DistinctKeys, AllExecuted;
      restored := {};
      var todo := AnswerExisting(step, calls, ordered);
      if AllExecuted(db.execs, calls) { NothingTodo(calls, todo, db.execs); }
      ghost var execs, rs := db.execs, ordered[..];
      var replies := HostReplies(calls);
      ReadsWait(calls, todo, rs);
      o := RunReads(step, calls, todo, replies, ordered);
      workspace.damaged := {};
      w, p, failedAt := Plan(workspace.resolve, calls, todo, workspace.State()), Now(ordered, [], {}), 0;
      if !o.Ok? {
        return;
      }
      ghost var rs1 := ordered[..];
      WritesWait(w, execs, db.execs, rs, rs1);
      var preimages;
      o, preimages, restored, failedAt := RunWrites(step, calls, todo, memory, ordered, w);
      if !o.Ok? {
        return;
      }
      EmailsWait(calls, todo, rs, rs1, ordered[..]);
      o, restored := RunEmails(step, calls, todo, memory, ordered, preimages, restored, w, failedAt);
      p := Now(ordered, preimages, restored);
    }

    // One invocation of the batch executor.  If it returns, every call has a
    // row and a logged result and the files are as BatchOutcome says; what it
    // reports goes to the log and the memory in line with it.  A batch that is
    // all known already changes neither rows nor emails nor files.
    method ExecuteToolCalls(step: nat, calls: seq<Call>, memory: MemoryManager)
      returns (o: Outcome, results: seq<ToolResult>, ghost w: Plan)
      requires Sound(config, db) && Executing(config, db.State()) && db.row.step == step && db.row.pending == calls
      requires Remembers(script, memory.Value(), db.log)
      modifies db, workspace, memory, memory.window
      ensures Sound(config, db) && Onward(db, o) && db.row == old(db.row)
      ensures !o.Killed? ==> Spoke(script, old(memory.Value()), memory.Value(), old(db.log), db.log, memory.window.budget)
      ensures Checks(db.log) == Checks(old(db.log)) && (o.Raised? ==> o.message == CONTEXT_LIMIT)
      ensures |db.history| <= |old(db.history)| + 6 * |calls|
      ensures !o.Killed? ==> Executing(config, db.State()) && Remembers(script, memory.Value(), db.log)
      ensures o.Ok? ==> AllStarted(db.log, step, calls) && AllExecuted(db.execs, calls) && AllResulted(db.log, step, calls)
      ensures o.Ok? ==> w.calls == calls && IsTodo(calls, w.todo, old(db.execs)) && w.resolve == workspace.resolve
      ensures o.Ok? && NoPython(calls, w.todo) ==> w.base == old(workspace.State()).(damaged := {})
      ensures o.Ok? ==> BatchOutcome(w, results, workspace.State())
      ensures o.Ok? ==> EmailOutcome(w, results, Tainted(old(db.log)), db.emails)
      ensures o.Ok? ==> |results| == |calls| && forall i :: 0 <= i < |calls| ==> Answers(calls[i], results[i])
      ensures o.Ok? ==> forall i :: 0 <= i < |calls| && (IsSideEffect(calls[i].tool) || Single(calls, i)) ==>
        KeyOf(calls[i]) in db.execs && results[i].body == db.execs[KeyOf(calls[i])].body
      ensures o.Ok? ==> forall i :: 0 <= i < |calls| && Single(calls, i) && results[i].error != ROLLBACK_FAILED ==>
        KeyOf(calls[i]) in db.execs && results[i].error == db.execs[KeyOf(calls[i])].error
      ensures AllExecuted(old(db.execs), calls) ==>
        && db.execs == old(db.execs) && db.emails == old(db.emails)
        && workspace.files == old(workspace.files) && workspace.folders == old(workspace.folders)
      ensures o.Ok? ==> db.log == WithResults(WithStarts(old(db.log), step, calls), step, results)
      ensures AllExecuted(old(db.execs), calls) && AllResulted(old(db.log), step, calls) ==> !o.Raised?
      ensures AllExecuted(old(db.execs), calls) && AllResulted(old(db.log), step, calls) && o.Ok? ==>
        db.log == WithStarts(old(db.log), step, calls)
    {
      hide Spoke, Checks, IsSideEffect, Single, Path, Inv, NoProgress, IsTodo, AllExecuted, AllResulted, AllStarted, Remembers, BatchOutcome, RowOutcome, EmailOutcome,
           Tainted, WithStarts, WithResults;
      ghost var d := db.State();
      SoundInv(config, db);
      o, results, w := ExecuteAll(step, calls, memory);
      SoundInv(config, db);
      if db.execs == d.execs { EmailsFollowRows(config, d, db.State()); }
      if o.Ok? { RowsAreEmails(config, db.State(), w, results, Tainted(d.log)); }
    }

    method ExecuteAll(step: nat, calls: seq<Call>, memory: MemoryManager)
      returns (o: Outcome, results: seq<ToolResult>, ghost w: Plan)
      requires Sound(config, db) && Executing(config, db.State()) && db.row.step == step && db.row.pending == calls
      requires Remembers(script, memory.Value(), db.log)
      modifies db, workspace, memory, memory.window
      ensures Sound(config, db) && Onward(db, o) && db.row == old(db.row)
      ensures !o.Killed? ==> Spoke(script, old(memory.Value()), memory.Value(), old(db.log), db.log, memory.window.budget)
      ensures Checks(db.log) == Checks(old(db.log)) && (o.Raised? ==> o.message == CONTEXT_LIMIT)
      ensures |db.history| <= |old(db.history)| + 6 * |calls|
      ensures !o.Killed? ==> Executing(config, db.State()) && Remembers(script, memory.Value(), db.log)
      ensures o.Ok? ==> AllStarted(db.log, step, calls) && AllExecuted(db.execs, calls) && AllResulted(db.log, step, calls)
      ensures o.Ok? ==> w.calls == calls && IsTodo(calls, w.todo, old(db.execs)) && w.resolve == workspace.resolve
      ensures o.Ok? && NoPython(calls, w.todo) ==> w.base == old(workspace.State()).(damaged := {})
      ensures o.Ok? ==> BatchOutcome(w, results, workspace.State())
      ensures o.Ok? ==> RowOutcome(w, results, Tainted(old(db.log)), db.execs)
      ensures o.Ok? ==> |results| == |calls| && forall i :: 0 <= i < |calls| ==> Answers(calls[i], results[i])
      ensures o.Ok? ==> forall i :: 0 <= i < |calls| && (IsSideEffect(calls[i].tool) || Single(calls, i)) ==>
        KeyOf(calls[i]) in db.execs && results[i].body == db.execs[KeyOf(calls[i])].body
      ensures o.Ok? ==> forall i :: 0 <= i < |calls| && Single(calls, i) && results[i].error != ROLLBACK_FAILED ==>
        KeyOf(calls[i]) in db.execs && results[i].error == db.execs[KeyOf(calls[i])].error
      ensures AllExecuted(old(db.execs), calls) ==>
        db.execs == old(db.execs) && workspace.files == old(workspace.files) && workspace.folders == old(workspace.folders)
      ensures o.Ok? ==> db.log == WithResults(WithStarts(old(db.log), step, calls), step, results)
      ensures AllExecuted(old(db.execs), calls) && AllResulted(old(db.log), step, calls) ==> !o.Raised?
      ensures AllExecuted(old(db.execs), calls) && AllResulted(old(db.log), step, calls) && o.Ok? ==>
        db.log == WithStarts(old(db.log), step, calls)
    {
      hide Spoke, Wordless, Checks, IsSideEffect, Single, Path, NoProgress, UpTo, IsTodo, AllExecuted, AllResulted, AllStarted, Recall, Logged, BatchOutcome, WithStarts, WithResults, Answers, MailedUpTo, RowOutcome, Tainted;
      results := [];
      w := Plan(workspace.resolve, calls, {}, workspace.State());
      ghost var log, m := db.log, memory.Value();
      :- RecordStarts(step, calls);
      if AllResulted(log, step, calls) { ResultsKept(log, db.log, step, calls); }
      RecallTainted(script, log);
      RecallTainted(script, db.log);
      var ordered := new Option<ToolResult>[|calls|](_ => None);
      var restored;
      ghost var p, failedAt;
      o, restored, w, p, failedAt := RunCalls(step, calls, memory, ordered);
      if o.Ok? {
        ghost var log1 := db.log;
        o, results := Report(step, calls, memory, ordered, restored, w, p, failedAt);
        if !o.Killed? {
          SpokeNothing(script, m, log, memory.window.budget);
          SpokeWordless(script, m, m, log, log, log1, memory.window.budget);
          SpokeOn(script, m, m, memory.Value(), log, log1, db.log, memory.window.budget);
        }
      }
    }

    method Report(
      step: nat, calls: seq<Call>, memory: MemoryManager, ordered: Ordered, restored: set<nat>,
      ghost w: Plan, ghost p: Progress, ghost failedAt: nat)
      returns (o: Outcome, results: seq<ToolResult>)
      requires InResults(config, db, step, calls, ordered) && Remembers(script, memory.Value(), db.log) && w.calls == calls
      requires ordered.Length == |calls| && forall i :: 0 <= i < |calls| ==> ordered[i].Some?
      requires UpTo(w, p, failedAt, |calls|)
      requires MailedUpTo(calls, w.todo, failedAt >= |calls|, Tainted(db.log), p.rs, db.execs, |calls|)
      requires p.rs == ordered[..] && p.disk == workspace.State() && p.restored == restored
      modifies db, memory, memory.window
      ensures InBatch(config, db, step, calls) && Onward(db, o) && db.emails == old(db.emails)
      ensures !o.Killed? ==> Spoke(script, old(memory.Value()), memory.Value(), old(db.log), db.log, memory.window.budget)
      ensures Checks(db.log) == Checks(old(db.log)) && (o.Raised? ==> o.message == CONTEXT_LIMIT)
      ensures |db.history| <= |old(db.history)| + 2 * |calls|
      ensures !o.Killed? ==> Remembers(script, memory.Value(), db.log)
      ensures o.Ok? ==> AllExecuted(db.execs, calls) && AllResulted(db.log, step, calls)
      ensures o.Ok? ==> BatchOutcome(w, results, workspace.State())
      ensures o.Ok? ==> RowOutcome(w, results, Tainted(old(db.log)), db.execs)
      ensures o.Ok? ==> |results| == |calls| && forall i :: 0 <= i < |calls| ==> Answers(calls[i], results[i])
      ensures o.Ok? ==> forall i :: 0 <= i < |calls| && (IsSideEffect(calls[i].tool) || Single(calls, i)) ==>
        KeyOf(calls[i]) in db.execs && results[i].body == db.execs[KeyOf(calls[i])].body
      ensures o.Ok? ==> forall i :: 0 <= i < |calls| && Single(calls, i) && results[i].error != ROLLBACK_FAILED ==>
        KeyOf(calls[i]) in db.execs && results[i].error == db.execs[KeyOf(calls[i])].error
      ensures restored == {} ==> db.execs == old(db.execs)
      ensures o.Ok? ==> db.log == WithResults(old(db.log), step, results)
      ensures restored == {} && AllResulted(old(db.log), step, calls) ==> !o.Raised? && db.log == old(db.log)
    {
      hide Spoke, Checks, BodiesKept, IsSideEffect, Single, InBatch, UpTo, AllExecuted, AllResulted, Backed, Unseen, Remembers, Answers, BatchOutcome, Final, MailedUpTo, RowOutcome,
           Tainted, Corrected, WithResults;
      AllAnswered(calls, ordered[..], db.execs);
      RestoredAreWrites(w, p, failedAt, |calls|);
      RestoredBodies(calls, ordered[..], restored, db.execs);
      o, results := RecordResults(step, calls, memory, ordered, restored);
      if o.Ok? {
        OutcomeOf(w, p, failedAt, results);
        EmailsOf(w, p, failedAt, results, Tainted(old(db.log)), old(db.execs), db.execs);
        RowsCarried(calls, ordered[..], restored, old(db.execs), db.execs, results);
        FinalAnswers(calls, ordered[..], restored, results);
      }
    }
  }
}
