// What a batch of tool calls may report, as facts about its calls, the results
// so far and the execution rows.
module Batch {
  import opened Events
  import opened Protocol
  import opened Workspace
  import opened Executor

  type Results = seq<Option<ToolResult>>

  predicate IsSideEffect(tool: Tool) { tool == WriteFile || tool == SendEmail }

  predicate HasFailed(rs: Results) { exists i :: 0 <= i < |rs| && rs[i].Some? && !rs[i].value.ok }

  ghost predicate DistinctKeys(calls: seq<Call>) {
    forall i, j :: 0 <= i < j < |calls| ==> KeyOf(calls[i]) != KeyOf(calls[j])
  }

  predicate Answers(call: Call, r: ToolResult) { r.id == call.id && r.tool == call.tool && r.key == KeyOf(call) }

  // No other call of the batch has its key.
  ghost predicate Single(calls: seq<Call>, i: nat)
    requires i < |calls|
  {
    forall j :: 0 <= j < |calls| && KeyOf(calls[j]) == KeyOf(calls[i]) ==> j == i
  }

  // The result carries what its row does, unless it could not be taken back.
  predicate Carries(r: ToolResult, row: Exec) { r.body == row.body && (r.error == row.error || r.error == ROLLBACK_FAILED) }

  // Every result answers its call and is backed by a row; where the row says
  // less than the result, another result of the same key has failed.  Only two
  // reads of one key that run at once may carry different contents.
  ghost predicate Backed(calls: seq<Call>, rs: Results, execs: map<Key, Exec>) {
    |rs| == |calls|
    && forall i :: 0 <= i < |rs| && rs[i].Some? ==>
      && Answers(calls[i], rs[i].value) && KeyOf(calls[i]) in execs
      && (rs[i].value.ok && !ExecOk(execs[KeyOf(calls[i])]) ==> FailedUnder(calls, rs, KeyOf(calls[i])))
      && (IsSideEffect(calls[i].tool) || Single(calls, i) ==> Carries(rs[i].value, execs[KeyOf(calls[i])]))
  }

  ghost predicate FailedUnder(calls: seq<Call>, rs: Results, key: Key)
    requires |rs| == |calls|
  {
    exists j :: 0 <= j < |rs| && KeyOf(calls[j]) == key && rs[j].Some? && !rs[j].value.ok
  }

  // With distinct keys, a call without result has no row.
  ghost predicate Unseen(calls: seq<Call>, rs: Results, execs: map<Key, Exec>) {
    |rs| == |calls|
    && (DistinctKeys(calls) ==> forall i :: 0 <= i < |rs| && rs[i].None? ==> KeyOf(calls[i]) !in execs)
  }

  lemma SettleFailed(calls: seq<Call>, rs: Results, i: nat, r: ToolResult, key: Key)
    requires |rs| == |calls| && i < |rs| && rs[i].None? && FailedUnder(calls, rs, key)
    ensures FailedUnder(calls, rs[i := Some(r)], key)
  {
    var j :| 0 <= j < |rs| && KeyOf(calls[j]) == key && rs[j].Some? && !rs[j].value.ok;
    assert rs[i := Some(r)][j] == rs[j];
  }

  // A call settled from its row keeps results and rows in line.
  lemma Settle(calls: seq<Call>, rs: Results, i: nat, execs: map<Key, Exec>, execs': map<Key, Exec>)
    requires Backed(calls, rs, execs) && Unseen(calls, rs, execs) && i < |rs| && rs[i].None?
    requires var k := KeyOf(calls[i]); k in execs' && execs' == execs[k := execs'[k]]
    requires IsSideEffect(calls[i].tool) && KeyOf(calls[i]) in execs ==> execs' == execs
    ensures var rs' := rs[i := Some(ResultOf(calls[i], execs'[KeyOf(calls[i])]))];
      Backed(calls, rs', execs') && Unseen(calls, rs', execs')
  {
    var key := KeyOf(calls[i]);
    var r := ResultOf(calls[i], execs'[key]);
    var rs' := rs[i := Some(r)];
    forall j | 0 <= j < |rs'| && rs'[j].Some? && rs'[j].value.ok && !ExecOk(execs'[KeyOf(calls[j])])
      ensures FailedUnder(calls, rs', KeyOf(calls[j]))
    {
      if KeyOf(calls[j]) == key { assert !rs'[i].value.ok; } else { SettleFailed(calls, rs, i, r, KeyOf(calls[j])); }
    }
  }

  // A settled result that fails is the first failure or one more.
  lemma SettleHasFailed(rs: Results, i: nat, r: ToolResult)
    requires i < |rs| && rs[i].None?
    ensures HasFailed(rs[i := Some(r)]) <==> HasFailed(rs) || !r.ok
  {
    var rs' := rs[i := Some(r)];
    if HasFailed(rs) {
      var j :| 0 <= j < |rs| && rs[j].Some? && !rs[j].value.ok;
      assert rs'[j] == rs[j];
    }
    if !r.ok { assert rs'[i].Some?; }
  }

  // When nothing failed and only emails are left, the others' rows are good.
  lemma OthersBacked(calls: seq<Call>, rs: Results, execs: map<Key, Exec>)
    requires Backed(calls, rs, execs) && !HasFailed(rs)
    requires forall i :: 0 <= i < |calls| && calls[i].tool != SendEmail ==> rs[i].Some?
    ensures OthersSucceeded(execs, calls)
  {
    hide ExecOk;
    forall i | 0 <= i < |calls| && calls[i].tool != SendEmail
      ensures KeyOf(calls[i]) in execs && ExecOk(execs[KeyOf(calls[i])])
    {
      assert rs[i].Some? && rs[i].value.ok;
    }
  }

  // ----- after a failed restore -----

  // The errors of the tools, named without their texts.
  const ROLLBACK_FAILED := "ToolRollbackError"
  const ROLLED_BACK := "ToolRolledBackError"
  const SKIPPED := "ToolSkippedError"
  const EMAIL_BLOCKED := "SecurityViolationError"

  // Some results have been turned into failures.
  ghost predicate Weakened(rs: Results, rs': Results) {
    |rs'| == |rs|
    && forall i :: 0 <= i < |rs| ==>
      rs'[i] == rs[i] || (rs[i].Some? && rs'[i] == Some(rs[i].value.(ok := false, error := ROLLBACK_FAILED)))
  }

  lemma WeakenedStays(calls: seq<Call>, rs: Results, rs': Results, execs: map<Key, Exec>)
    requires Weakened(rs, rs') && Backed(calls, rs, execs) && Unseen(calls, rs, execs)
    ensures Backed(calls, rs', execs) && Unseen(calls, rs', execs)
    ensures HasFailed(rs) ==> HasFailed(rs')
  {
    forall key | FailedUnder(calls, rs, key) ensures FailedUnder(calls, rs', key) {
      var j :| 0 <= j < |rs| && KeyOf(calls[j]) == key && rs[j].Some? && !rs[j].value.ok;
      assert rs'[j].Some? && !rs'[j].value.ok;
    }
    if HasFailed(rs) {
      var j :| 0 <= j < |rs| && rs[j].Some? && !rs[j].value.ok;
      assert rs'[j].Some? && !rs'[j].value.ok;
    }
  }

  // ----- writes -----

  predicate IsWrite(calls: seq<Call>, todo: set<nat>, i: int) {
    0 <= i < |calls| && i in todo && calls[i].tool == WriteFile
  }

  // Some write before n asks under this key.
  ghost predicate Seen(calls: seq<Call>, todo: set<nat>, n: nat, key: Key) {
    exists i :: 0 <= i < n && IsWrite(calls, todo, i) && KeyOf(calls[i]) == key
  }

  function Target(resolve: string -> Option<Place>, call: Call): Option<Place> {
    Resolve(resolve, call.args.path)
  }

  // The writes that run before n: of several under one key only the first.
  ghost function Planned(resolve: string -> Option<Place>, calls: seq<Call>, todo: set<nat>, n: nat): seq<Write>
    requires n <= |calls|
  {
    if n == 0 then []
    else
      var i, before := n - 1, Planned(resolve, calls, todo, n - 1);
      if IsWrite(calls, todo, i) && !Seen(calls, todo, i, KeyOf(calls[i]))
        && Target(resolve, calls[i]).Some? && calls[i].args.content.Text?
      then before + [Write(i, Target(resolve, calls[i]).value, calls[i].args.content.text)]
      else before
  }

  function IndexesOf(preimages: seq<Preimage>): set<nat> { set k | 0 <= k < |preimages| :: preimages[k].index }

  ghost predicate Covered(preimages: seq<Preimage>, i: int) {
    exists k :: 0 <= k < |preimages| && preimages[k].index == i
  }

  // A write reported ok although its batch failed: it repeats, after the
  // failure, the key of a write that was rolled back.
  ghost predicate WronglyOk(calls: seq<Call>, todo: set<nat>, failedAt: nat, j: nat)
    requires j < |calls|
  {
    failedAt <= j && Seen(calls, todo, failedAt, KeyOf(calls[j]))
  }

  ghost predicate Reported(calls: seq<Call>, todo: set<nat>, rs: Results, restored: set<nat>, failedAt: nat, n: nat)
    requires |rs| == |calls|
  {
    forall j :: 0 <= j < n && IsWrite(calls, todo, j) ==>
      rs[j].Some? && ((rs[j].value.ok && j !in restored) <==> WronglyOk(calls, todo, failedAt, j))
  }

  // The rows under the keys of writes: those before n have one, and it is good
  // for those before m.
  ghost predicate RowsTell(calls: seq<Call>, todo: set<nat>, execs: map<Key, Exec>, n: nat, m: nat) {
    forall j :: IsWrite(calls, todo, j) ==>
      var key := KeyOf(calls[j]);
      (key in execs <==> Seen(calls, todo, n, key)) && (key in execs ==> (ExecOk(execs[key]) <==> Seen(calls, todo, m, key)))
  }

  lemma SeenStep(calls: seq<Call>, todo: set<nat>, n: nat, key: Key)
    ensures Seen(calls, todo, n + 1, key) <==> Seen(calls, todo, n, key) || (IsWrite(calls, todo, n) && KeyOf(calls[n]) == key)
  {
  }

  // Nobody is wrongly reported when all keys differ.
  lemma DistinctNeverWrong(calls: seq<Call>, todo: set<nat>, failedAt: nat, j: nat)
    requires DistinctKeys(calls) && j < |calls|
    ensures !WronglyOk(calls, todo, failedAt, j)
  {
  }

  // What a batch starts its writes with, and how far it has come.
  datatype Plan = Plan(resolve: string -> Option<Place>, calls: seq<Call>, todo: set<nat>, base: Disk)

  datatype Progress =
    Progress(disk: Disk, rs: Results, execs: map<Key, Exec>, preimages: seq<Preimage>, restored: set<nat>)

  function Min(a: nat, b: nat): nat { if a < b then a else b }

  // While nothing failed, the files are the base with the writes so far, and
  // the preimages lead back to it.
  ghost predicate Clean(w: Plan, p: Progress, n: nat)
    requires |p.rs| == |w.calls| && n <= |w.calls|
  {
    p.disk.files == Applied(w.base.files, Planned(w.resolve, w.calls, w.todo, n))
    && p.disk.damaged == w.base.damaged && p.restored == {}
    && Undo(p.disk.files, p.preimages) == w.base.files
    && forall j :: 0 <= j < n && IsWrite(w.calls, w.todo, j) ==>
      p.rs[j].Some? && p.rs[j].value.ok && Covered(p.preimages, j) && Restorable(w, w.calls[j])
  }

  predicate Restorable(w: Plan, call: Call) {
    Target(w.resolve, call).Some? && Target(w.resolve, call).value !in w.base.folders
  }

  // The files are back, but for damaged places.
  ghost predicate Back(w: Plan, disk: Disk) {
    w.base.damaged <= disk.damaged && Agree(disk.files, w.base.files, disk.damaged)
  }

  // Preimages and restores are those of settled writes.
  ghost predicate Indexed(calls: seq<Call>, p: Progress) {
    |calls| == |p.rs|
    && (forall k :: 0 <= k < |p.preimages| ==> SettledWrite(calls, p.rs, p.preimages[k].index))
    && forall i :: i in p.restored ==> SettledWrite(calls, p.rs, i)
  }

  predicate SettledWrite(calls: seq<Call>, rs: Results, i: nat)
    requires |rs| == |calls|
  {
    i < |rs| && rs[i].Some? && calls[i].tool == WriteFile
  }

  // The writes before n are done, none failed or the first failure was at
  // failedAt and everything was taken back.
  ghost predicate WritesUpTo(w: Plan, p: Progress, failedAt: nat, n: nat) {
    n <= |w.calls| == |p.rs| && p.disk.folders == w.base.folders && Indexed(w.calls, p)
    && RowsTell(w.calls, w.todo, p.execs, n, Min(failedAt, n))
    && if !HasFailed(p.rs) then Clean(w, p, n) && failedAt == |w.calls|
       else Back(w, p.disk) && failedAt <= n && Reported(w.calls, w.todo, p.rs, p.restored, failedAt, n)
  }

  lemma WritesBegin(w: Plan, p: Progress)
    requires |p.rs| == |w.calls| && p.disk == w.base && p.preimages == [] && p.restored == {}
    requires forall i :: IsWrite(w.calls, w.todo, i) ==> KeyOf(w.calls[i]) !in p.execs
    ensures WritesUpTo(w, p, if HasFailed(p.rs) then 0 else |w.calls|, 0)
  {
  }

  // A call that is no write to be done is passed over.
  lemma PassOver(w: Plan, p: Progress, failedAt: nat, n: nat)
    requires WritesUpTo(w, p, failedAt, n) && n < |w.calls| && !IsWrite(w.calls, w.todo, n)
    ensures WritesUpTo(w, p, failedAt, n + 1)
  {
    forall key ensures Seen(w.calls, w.todo, n + 1, key) <==> Seen(w.calls, w.todo, n, key) {
      SeenStep(w.calls, w.todo, n, key);
    }
  }

  // The rows after the write at n was settled: under its key there is one now,
  // good if it was before or if the first one came out well.
  lemma RowsStep(calls: seq<Call>, todo: set<nat>, execs: map<Key, Exec>, execs': map<Key, Exec>, n: nat, m: nat, m': nat)
    requires RowsTell(calls, todo, execs, n, m) && n < |calls| && IsWrite(calls, todo, n)
    requires var k := KeyOf(calls[n]); k in execs' && execs' == execs[k := execs'[k]] && (k in execs ==> execs' == execs)
    requires m' == m || (m == n && m' == n + 1)
    requires KeyOf(calls[n]) !in execs ==> (ExecOk(execs'[KeyOf(calls[n])]) <==> m' == n + 1)
    requires m <= n
    ensures RowsTell(calls, todo, execs', n + 1, m')
  {
    forall j | IsWrite(calls, todo, j)
      ensures var key := KeyOf(calls[j]);
        (key in execs' <==> Seen(calls, todo, n + 1, key)) && (key in execs' ==> (ExecOk(execs'[key]) <==> Seen(calls, todo, m', key)))
    {
      SeenStep(calls, todo, n, KeyOf(calls[j]));
    }
  }

  // The call at i settled from a row that was there or is new.
  ghost predicate Settles(calls: seq<Call>, i: nat, p: Progress, rs': Results, execs': map<Key, Exec>) {
    i < |calls| == |p.rs| && p.rs[i].None?
    && var key := KeyOf(calls[i]);
       key in execs' && execs' == p.execs[key := execs'[key]] && (key in p.execs ==> execs' == p.execs)
       && rs' == p.rs[i := Some(ResultOf(calls[i], execs'[key]))]
  }

  // After a failure a write does not run: it gets a bad row, or is answered
  // from the one it has.
  lemma WriteSkipped(w: Plan, p: Progress, failedAt: nat, n: nat, rs': Results, execs': map<Key, Exec>)
    requires WritesUpTo(w, p, failedAt, n) && HasFailed(p.rs) && n < |w.calls| && IsWrite(w.calls, w.todo, n)
    requires Settles(w.calls, n, p, rs', execs')
    requires KeyOf(w.calls[n]) !in p.execs ==> !ExecOk(execs'[KeyOf(w.calls[n])])
    ensures WritesUpTo(w, p.(rs := rs', execs := execs'), failedAt, n + 1)
  {
    SettleHasFailed(p.rs, n, rs'[n].value);
    RowsStep(w.calls, w.todo, p.execs, execs', n, failedAt, failedAt);
    hide ResultOf, ExecOk, Agree, Seen, RowsTell, HasFailed;
    assert RowsTell(w.calls, w.todo, execs', n + 1, Min(failedAt, n + 1));
    SkippedRow(w, p, failedAt, n, execs');
  }

  lemma SkippedRow(w: Plan, p: Progress, failedAt: nat, n: nat, execs': map<Key, Exec>)
    requires n < |w.calls| && IsWrite(w.calls, w.todo, n) && failedAt <= n && KeyOf(w.calls[n]) in execs'
    requires RowsTell(w.calls, w.todo, execs', n + 1, failedAt)
    ensures ResultOf(w.calls[n], execs'[KeyOf(w.calls[n])]).ok <==> WronglyOk(w.calls, w.todo, failedAt, n)
  {
  }

  // A write whose key an earlier one of the batch used is answered from that
  // one's good row, and leaves one more preimage that changes nothing.
  lemma WriteRepeated(w: Plan, p: Progress, failedAt: nat, n: nat, rs': Results, execs': map<Key, Exec>)
    requires WritesUpTo(w, p, failedAt, n) && !HasFailed(p.rs) && n < |w.calls| && IsWrite(w.calls, w.todo, n)
    requires Settles(w.calls, n, p, rs', execs') && KeyOf(w.calls[n]) in p.execs
    ensures rs'[n].Some? && rs'[n].value.ok && Restorable(w, w.calls[n])
    ensures WritesUpTo(w, p.(rs := rs', execs := execs', preimages := p.preimages + [PreimageAt(w, p, n)]), failedAt, n + 1)
  {
    hide Seen, Planned, Undo, Applied, Covered, Agree, Back, Reported;
    RepeatedRow(w, p, failedAt, n);
    RowsStep(w.calls, w.todo, p.execs, execs', n, n, n + 1);
    SettleHasFailed(p.rs, n, rs'[n].value);
    UndoCapture(p.disk.files, p.preimages, PreimageAt(w, p, n));
    PreimagesGrow(w.calls, p, rs', n, PreimageAt(w, p, n));
    CleanRepeated(w, p, n, rs', execs', PreimageAt(w, p, n));
    hide Clean, ResultOf, ExecOk, RowsTell, HasFailed, Restorable, Indexed;
  }

  lemma CleanRepeated(w: Plan, p: Progress, n: nat, rs': Results, execs': map<Key, Exec>, last: Preimage)
    requires n < |w.calls| == |p.rs| == |rs'| && Clean(w, p, n) && Restorable(w, w.calls[n])
    requires Planned(w.resolve, w.calls, w.todo, n + 1) == Planned(w.resolve, w.calls, w.todo, n)
    requires Undo(p.disk.files, p.preimages + [last]) == Undo(p.disk.files, p.preimages)
    requires Covered(p.preimages + [last], n) && forall j :: Covered(p.preimages, j) ==> Covered(p.preimages + [last], j)
    requires rs' == p.rs[n := rs'[n]] && rs'[n].Some? && rs'[n].value.ok
    ensures Clean(w, p.(rs := rs', execs := execs', preimages := p.preimages + [last]), n + 1)
  {
    hide Restorable, Planned, Undo, Applied, Covered;
  }

  lemma RepeatedRow(w: Plan, p: Progress, failedAt: nat, n: nat)
    requires WritesUpTo(w, p, failedAt, n) && !HasFailed(p.rs) && n < |w.calls| && IsWrite(w.calls, w.todo, n)
    requires KeyOf(w.calls[n]) in p.execs
    ensures ResultOf(w.calls[n], p.execs[KeyOf(w.calls[n])]).ok && Restorable(w, w.calls[n])
    ensures Planned(w.resolve, w.calls, w.todo, n + 1) == Planned(w.resolve, w.calls, w.todo, n)
  {
    hide Undo, Agree, Applied;
    var i :| 0 <= i < n && IsWrite(w.calls, w.todo, i) && KeyOf(w.calls[i]) == KeyOf(w.calls[n]);
  }

  function PreimageAt(w: Plan, p: Progress, n: nat): Preimage
    requires n < |w.calls| && Target(w.resolve, w.calls[n]).Some?
  {
    Preimage(n, Target(w.resolve, w.calls[n]).value, ContentAt(p.disk.files, Target(w.resolve, w.calls[n]).value))
  }

  lemma UndoCapture(files: Files, preimages: seq<Preimage>, last: Preimage)
    requires last.content == ContentAt(files, last.path)
    ensures Undo(files, preimages + [last]) == Undo(files, preimages)
  {
    assert (preimages + [last])[..|preimages|] == preimages;
    assert Restored(files, last.path, last.content) == files;
  }

  lemma PreimagesGrow(calls: seq<Call>, p: Progress, rs': Results, n: nat, last: Preimage)
    requires Indexed(calls, p) && n < |p.rs| == |rs'| && rs' == p.rs[n := rs'[n]] && rs'[n].Some? && last.index == n
    requires calls[n].tool == WriteFile
    ensures Indexed(calls, p.(rs := rs', preimages := p.preimages + [last]))
    ensures Covered(p.preimages + [last], n)
    ensures forall j :: Covered(p.preimages, j) ==> Covered(p.preimages + [last], j)
  {
    var pre := p.preimages + [last];
    assert pre[|p.preimages|].index == n;
    forall j | Covered(p.preimages, j) ensures Covered(pre, j) {
      var k :| 0 <= k < |p.preimages| && p.preimages[k].index == j;
      assert pre[k].index == j;
    }
  }

  // The first write under its key runs and succeeds.
  lemma WriteDone(w: Plan, p: Progress, failedAt: nat, n: nat, rs': Results, execs': map<Key, Exec>)
    requires WritesUpTo(w, p, failedAt, n) && !HasFailed(p.rs) && n < |w.calls| && IsWrite(w.calls, w.todo, n)
    requires Settles(w.calls, n, p, rs', execs') && KeyOf(w.calls[n]) !in p.execs && rs'[n].value.ok
    requires Restorable(w, w.calls[n]) && w.calls[n].args.content.Text?
    ensures var target := Target(w.resolve, w.calls[n]).value;
      var disk' := p.disk.(files := p.disk.files[target := w.calls[n].args.content.text]);
      WritesUpTo(w, Progress(disk', rs', execs', p.preimages + [PreimageAt(w, p, n)], p.restored), failedAt, n + 1)
  {
    SettleHasFailed(p.rs, n, rs'[n].value);
    RowsStep(w.calls, w.todo, p.execs, execs', n, n, n + 1);
    UndoWrite(p.disk.files, p.preimages, n, Target(w.resolve, w.calls[n]).value, w.calls[n].args.content.text);
    PreimagesGrow(w.calls, p, rs', n, PreimageAt(w, p, n));
    PlannedGrows(w, n);
    hide ResultOf, ExecOk, Agree, RowsTell, Undo, Planned, Applied, Seen;
  }

  lemma PlannedGrows(w: Plan, n: nat)
    requires n < |w.calls| && IsWrite(w.calls, w.todo, n) && !Seen(w.calls, w.todo, n, KeyOf(w.calls[n]))
    requires Target(w.resolve, w.calls[n]).Some? && w.calls[n].args.content.Text?
    ensures var target := Target(w.resolve, w.calls[n]).value;
      Applied(w.base.files, Planned(w.resolve, w.calls, w.todo, n + 1))
      == Applied(w.base.files, Planned(w.resolve, w.calls, w.todo, n))[target := w.calls[n].args.content.text]
  {
    var before := Planned(w.resolve, w.calls, w.todo, n);
    var last := Write(n, Target(w.resolve, w.calls[n]).value, w.calls[n].args.content.text);
    assert (before + [last])[..|before|] == before;
  }

  // A write that came out well, be it run or answered from its row.
  lemma WriteSucceeded(w: Plan, p: Progress, failedAt: nat, n: nat, rs': Results, execs': map<Key, Exec>, disk': Disk)
    requires WritesUpTo(w, p, failedAt, n) && !HasFailed(p.rs) && n < |w.calls| && IsWrite(w.calls, w.todo, n)
    requires Settles(w.calls, n, p, rs', execs') && rs'[n].value.ok
    requires if KeyOf(w.calls[n]) in p.execs then disk' == p.disk else WriteEffect(w.resolve, w.calls[n], true, rs'[n].value.error, p.disk, disk')
    ensures Restorable(w, w.calls[n]) && p.disk.folders == w.base.folders
    ensures WritesUpTo(w, Progress(disk', rs', execs', p.preimages + [PreimageAt(w, p, n)], p.restored), failedAt, n + 1)
  {
    if KeyOf(w.calls[n]) in p.execs {
      WriteRepeated(w, p, failedAt, n, rs', execs');
    } else {
      assert Restorable(w, w.calls[n]);
      WriteDone(w, p, failedAt, n, rs', execs');
    }
    hide WritesUpTo;
  }

  predicate AccountedFor(i: nat, restored: set<nat>, rs: Results) {
    i < |rs| && rs[i].Some? && (i in restored || !rs[i].value.ok)
  }

  // A result that shows a fault of the host: a write that it failed, or one
  // that it failed to take back.
  predicate IsFault(r: ToolResult) { !r.ok && (r.error == HOST_FAULT || r.error == ROLLBACK_FAILED) }

  // A write to this place could not be taken back, and its result says so.
  ghost predicate Unrestored(preimages: seq<Preimage>, restored: set<nat>, rs: Results, q: Place) {
    exists k :: 0 <= k < |preimages| && preimages[k].path == q && Marked(rs, restored, preimages[k].index)
  }

  predicate Marked(rs: Results, restored: set<nat>, i: nat) {
    i < |rs| && rs[i].Some? && IsFault(rs[i].value) && i !in restored
  }

  // What a rollback from one disk to another leaves: the preimages are undone
  // but for damaged places, every write is restored or marked as failed, and
  // only a place of one that is so marked is damaged.
  ghost predicate RolledBack(preimages: seq<Preimage>, disk: Disk, disk': Disk, rs: Results, rs': Results, restored: set<nat>) {
    disk'.folders == disk.folders && disk.damaged <= disk'.damaged
    && (forall q :: q in disk'.damaged ==> q in disk.damaged || Unrestored(preimages, restored, rs', q))
    && Agree(disk'.files, Undo(disk.files, preimages), disk'.damaged)
    && Weakened(rs, rs') && restored <= IndexesOf(preimages)
    && (forall i :: 0 <= i < |rs| && i !in IndexesOf(preimages) ==> rs'[i] == rs[i])
    && forall k :: 0 <= k < |preimages| ==> AccountedFor(preimages[k].index, restored, rs')
  }

  lemma EffectBounded(w: Plan, error: string, disk: Disk, disk': Disk, n: nat)
    requires n < |w.calls| && WriteEffect(w.resolve, w.calls[n], false, error, disk, disk')
    ensures disk'.folders == disk.folders && disk.damaged <= disk'.damaged && Agree(disk'.files, disk.files, disk'.damaged)
    ensures forall q :: q in disk'.damaged ==>
      q in disk.damaged || (error == HOST_FAULT && Target(w.resolve, w.calls[n]) == Some(q))
  {
  }

  lemma BackAgain(w: Plan, p: Progress, n: nat, disk1: Disk, disk': Disk)
    requires |p.rs| == |w.calls| && n <= |w.calls| && Clean(w, p, n)
    requires p.disk.damaged <= disk1.damaged <= disk'.damaged && Agree(disk1.files, p.disk.files, disk1.damaged)
    requires Agree(disk'.files, Undo(disk1.files, p.preimages), disk'.damaged)
    ensures Back(w, disk')
  {
    hide Agree, Undo, Planned, Applied;
    UndoAgrees(disk1.files, p.disk.files, p.preimages, disk1.damaged);
    AgreeTrans(
      disk'.files, Undo(disk1.files, p.preimages), w.base.files, disk'.damaged, disk1.damaged, disk'.damaged);
  }

  // The first failure: the write at n, and everything before it is undone.
  lemma WriteFailed(
    w: Plan, p: Progress, failedAt: nat, n: nat, rs1: Results, execs': map<Key, Exec>, disk1: Disk, disk': Disk, rs': Results,
    restored: set<nat>)
    requires WritesUpTo(w, p, failedAt, n) && !HasFailed(p.rs) && n < |w.calls| && IsWrite(w.calls, w.todo, n)
    requires Settles(w.calls, n, p, rs1, execs') && !rs1[n].value.ok
    requires KeyOf(w.calls[n]) !in p.execs ==> WriteEffect(w.resolve, w.calls[n], false, rs1[n].value.error, p.disk, disk1)
    requires RolledBack(p.preimages, disk1, disk', rs1, rs', restored)
    ensures WritesUpTo(w, Progress(disk', rs', execs', p.preimages, p.restored + restored), n, n + 1)
  {
    if KeyOf(w.calls[n]) in p.execs { RepeatedRow(w, p, failedAt, n); assert false; }
    EffectBounded(w, rs1[n].value.error, p.disk, disk1, n);
    BackAgain(w, p, n, disk1, disk');
    RowsStep(w.calls, w.todo, p.execs, execs', n, n, n);
    assert rs'[n].Some? && !rs'[n].value.ok;
    assert HasFailed(rs');
    assert p.restored + restored == restored;
    hide ResultOf, ExecOk, Agree, RowsTell, Undo, Planned, Applied, Settles;
    assert !WronglyOk(w.calls, w.todo, n, n);
    TakenBack(w, p, n, rs1, rs', restored);
  }

  lemma TakenBack(w: Plan, p: Progress, n: nat, rs1: Results, rs': Results, restored': set<nat>)
    requires n <= |w.calls| == |p.rs| == |rs'| && Clean(w, p, n) && Indexed(w.calls, p)
    requires |rs1| == |p.rs| && (forall j :: 0 <= j < |p.rs| && p.rs[j].Some? ==> rs1[j] == p.rs[j]) && Weakened(rs1, rs')
    requires forall k :: 0 <= k < |p.preimages| ==> AccountedFor(p.preimages[k].index, restored', rs')
    ensures Reported(w.calls, w.todo, rs', restored', n, n)
  {
    hide Undo, Planned, Applied, Restorable, Agree;
    forall j | 0 <= j < n && IsWrite(w.calls, w.todo, j)
      ensures rs'[j].Some? && !(rs'[j].value.ok && j !in restored') && !WronglyOk(w.calls, w.todo, n, j)
    {
      var k :| 0 <= k < |p.preimages| && p.preimages[k].index == j;
    }
  }

  // ----- emails -----

  // An email that is settled leaves the writes as they are, and one that fails
  // first takes all of them back.
  lemma EmailSettled(w: Plan, p: Progress, failedAt: nat, i: nat, rs': Results, execs': map<Key, Exec>)
    requires WritesUpTo(w, p, failedAt, |w.calls|) && i < |w.calls| && w.calls[i].tool == SendEmail
    requires Settles(w.calls, i, p, rs', execs') && (HasFailed(p.rs) || rs'[i].value.ok)
    ensures WritesUpTo(w, p.(rs := rs', execs := execs'), failedAt, |w.calls|)
  {
    SettleHasFailed(p.rs, i, rs'[i].value);
    EmailRows(w.calls, w.todo, p.execs, execs', i, |w.calls|, Min(failedAt, |w.calls|));
    hide ResultOf, ExecOk, Agree, RowsTell, Undo, Planned, Applied, HasFailed, Seen, WronglyOk;
  }

  lemma EmailRows(calls: seq<Call>, todo: set<nat>, execs: map<Key, Exec>, execs': map<Key, Exec>, i: nat, n: nat, m: nat)
    requires i < |calls| && calls[i].tool == SendEmail && RowsTell(calls, todo, execs, n, m)
    requires var k := KeyOf(calls[i]); k in execs' && execs' == execs[k := execs'[k]]
    ensures RowsTell(calls, todo, execs', n, m)
  {
    hide Seen, ExecOk;
  }

  lemma EmailFailed(
    w: Plan, p: Progress, failedAt: nat, i: nat, rs1: Results, execs': map<Key, Exec>, disk': Disk, rs': Results,
    restored: set<nat>)
    requires WritesUpTo(w, p, failedAt, |w.calls|) && !HasFailed(p.rs) && i < |w.calls| && w.calls[i].tool == SendEmail
    requires Settles(w.calls, i, p, rs1, execs') && !rs1[i].value.ok
    requires RolledBack(p.preimages, p.disk, disk', rs1, rs', restored)
    ensures WritesUpTo(w, Progress(disk', rs', execs', p.preimages, p.restored + restored), failedAt, |w.calls|)
  {
    BackAgain(w, p, |w.calls|, p.disk, disk');
    EmailRows(w.calls, w.todo, p.execs, execs', i, |w.calls|, |w.calls|);
    assert rs'[i].Some? && !rs'[i].value.ok;
    assert HasFailed(rs');
    assert p.restored + restored == restored;
    hide ResultOf, ExecOk, Agree, RowsTell, Undo, Planned, Applied, Settles, Seen;
    TakenBack(w, p, |w.calls|, rs1, rs', restored);
  }

  // ----- which emails go out -----

  predicate IsEmail(calls: seq<Call>, todo: set<nat>, i: int) {
    0 <= i < |calls| && i in todo && calls[i].tool == SendEmail
  }

  // All emails before n are well formed.
  ghost predicate AllMailable(calls: seq<Call>, todo: set<nat>, n: nat) {
    forall i :: 0 <= i < n && IsEmail(calls, todo, i) ==> Mailable(calls[i].args)
  }

  // An email under this key stands before n and before any malformed one.
  ghost predicate Went(calls: seq<Call>, todo: set<nat>, n: nat, key: Key) {
    exists i :: 0 <= i < n && IsEmail(calls, todo, i) && KeyOf(calls[i]) == key && AllMailable(calls, todo, i + 1)
  }

  ghost predicate SeenMail(calls: seq<Call>, todo: set<nat>, n: nat, key: Key) {
    exists i :: 0 <= i < n && IsEmail(calls, todo, i) && KeyOf(calls[i]) == key
  }

  // Which of the emails before n read as ok: those that went out, if any could.
  ghost predicate MailResults(calls: seq<Call>, todo: set<nat>, open: bool, rs: Results, n: nat)
    requires n <= |calls| == |rs|
  {
    forall i :: 0 <= i < n && IsEmail(calls, todo, i) ==>
      rs[i].Some? && (rs[i].value.ok <==> open && Went(calls, todo, i + 1, KeyOf(calls[i])))
  }

  // The rows under the keys of emails: those before n have one, and it is good
  // for those that went out.
  ghost predicate MailRows(calls: seq<Call>, todo: set<nat>, open: bool, execs: map<Key, Exec>, n: nat) {
    forall i :: IsEmail(calls, todo, i) ==>
      var key := KeyOf(calls[i]);
      (key in execs <==> SeenMail(calls, todo, n, key))
      && (key in execs ==> (ExecOk(execs[key]) <==> open && Went(calls, todo, n, key)))
  }

  // The emails before n are done; none goes out after a failure before them
  // or once tool output has entered the conversation.
  ghost predicate MailedUpTo(
    calls: seq<Call>, todo: set<nat>, started: bool, tainted: bool, rs: Results, execs: map<Key, Exec>, n: nat)
  {
    n <= |calls| == |rs|
    && (!HasFailed(rs) <==> started && AllMailable(calls, todo, n) && (tainted ==> NoMail(calls, todo, n)))
    && MailResults(calls, todo, started && !tainted, rs, n) && MailRows(calls, todo, started && !tainted, execs, n)
  }

  ghost predicate NoMail(calls: seq<Call>, todo: set<nat>, n: nat) { forall i :: 0 <= i < n ==> !IsEmail(calls, todo, i) }

  // How one email is settled.
  ghost predicate MailSettled(
    calls: seq<Call>, n: nat, tainted: bool, rs: Results, rs': Results, execs: map<Key, Exec>, execs': map<Key, Exec>)
  {
    n < |calls| == |rs| == |rs'| && rs'[n].Some?
    && var key := KeyOf(calls[n]);
       && key in execs' && execs' == execs[key := execs'[key]] && (key in execs ==> execs' == execs)
       && (rs'[n].value.ok <==> ExecOk(execs'[key]))
       && (key !in execs ==> (rs'[n].value.ok <==> !HasFailed(rs) && Mailable(calls[n].args) && !tainted))
       && (HasFailed(rs') <==> HasFailed(rs) || !rs'[n].value.ok)
       && forall i :: 0 <= i < |calls| && i != n && calls[i].tool == SendEmail ==> rs'[i] == rs[i]
  }

  lemma MailBegins(calls: seq<Call>, todo: set<nat>, tainted: bool, rs: Results, execs: map<Key, Exec>)
    requires |rs| == |calls| && forall i :: IsEmail(calls, todo, i) ==> KeyOf(calls[i]) !in execs
    ensures MailedUpTo(calls, todo, !HasFailed(rs), tainted, rs, execs, 0)
  {
  }

  lemma WentStep(calls: seq<Call>, todo: set<nat>, n: nat, key: Key)
    ensures Went(calls, todo, n + 1, key) <==>
      Went(calls, todo, n, key) || (IsEmail(calls, todo, n) && KeyOf(calls[n]) == key && AllMailable(calls, todo, n + 1))
    ensures SeenMail(calls, todo, n + 1, key) <==>
      SeenMail(calls, todo, n, key) || (IsEmail(calls, todo, n) && KeyOf(calls[n]) == key)
  {
    hide AllMailable;
  }

  lemma MailPasses(
    calls: seq<Call>, todo: set<nat>, started: bool, tainted: bool, rs: Results, execs: map<Key, Exec>, n: nat)
    requires MailedUpTo(calls, todo, started, tainted, rs, execs, n) && n < |calls| && !IsEmail(calls, todo, n)
    ensures MailedUpTo(calls, todo, started, tainted, rs, execs, n + 1)
  {
    hide HasFailed, ExecOk, Went, SeenMail;
    forall key ensures Went(calls, todo, n + 1, key) <==> Went(calls, todo, n, key) { WentStep(calls, todo, n, key); }
    forall key ensures SeenMail(calls, todo, n + 1, key) <==> SeenMail(calls, todo, n, key) { WentStep(calls, todo, n, key); }
  }

  // Two emails of one key are well formed together.
  lemma SameMailable(c: Call, c': Call)
    requires c.tool == SendEmail && c'.tool == SendEmail && KeyOf(c) == KeyOf(c')
    ensures Mailable(c.args) <==> Mailable(c'.args)
  {
  }

  // Whether the email at n goes out: if none went before it under its key, it
  // does if it and all before it are well formed.
  lemma MailVerdict(
    calls: seq<Call>, todo: set<nat>, started: bool, tainted: bool, rs: Results, rs': Results, execs: map<Key, Exec>,
    execs': map<Key, Exec>, n: nat)
    requires MailedUpTo(calls, todo, started, tainted, rs, execs, n) && IsEmail(calls, todo, n)
    requires MailSettled(calls, n, tainted, rs, rs', execs, execs')
    ensures rs'[n].value.ok <==> started && !tainted && Went(calls, todo, n + 1, KeyOf(calls[n]))
    ensures !HasFailed(rs) ==> (rs'[n].value.ok <==> Mailable(calls[n].args) && !tainted)
  {
    var key := KeyOf(calls[n]);
    hide HasFailed, ExecOk, MailResults, Mailable;
    WentStep(calls, todo, n, key);
    if key in execs {
      var i :| 0 <= i < n && IsEmail(calls, todo, i) && KeyOf(calls[i]) == key;
      SameMailable(calls[i], calls[n]);
    }
  }

  lemma MailRowsStep(
    calls: seq<Call>, todo: set<nat>, open: bool, execs: map<Key, Exec>, execs': map<Key, Exec>, n: nat)
    requires MailRows(calls, todo, open, execs, n) && IsEmail(calls, todo, n)
    requires var k := KeyOf(calls[n]);
      k in execs' && execs' == execs[k := execs'[k]] && (ExecOk(execs'[k]) <==> open && Went(calls, todo, n + 1, k))
    ensures MailRows(calls, todo, open, execs', n + 1)
  {
    hide ExecOk, Went, SeenMail;
    forall i | IsEmail(calls, todo, i)
      ensures var key := KeyOf(calls[i]);
        (key in execs' <==> SeenMail(calls, todo, n + 1, key))
        && (key in execs' ==> (ExecOk(execs'[key]) <==> open && Went(calls, todo, n + 1, key)))
    {
      WentStep(calls, todo, n, KeyOf(calls[i]));
    }
  }

  lemma MailStep(
    calls: seq<Call>, todo: set<nat>, started: bool, tainted: bool, rs: Results, rs': Results, execs: map<Key, Exec>,
    execs': map<Key, Exec>, n: nat)
    requires MailedUpTo(calls, todo, started, tainted, rs, execs, n) && IsEmail(calls, todo, n)
    requires MailSettled(calls, n, tainted, rs, rs', execs, execs')
    ensures MailedUpTo(calls, todo, started, tainted, rs', execs', n + 1)
  {
    hide HasFailed, ExecOk, Went, MailRows, Mailable;
    MailVerdict(calls, todo, started, tainted, rs, rs', execs, execs', n);
    MailRowsStep(calls, todo, started && !tainted, execs, execs', n);
  }

  // At the end, an email reads as ok exactly when its row is good.
  lemma MailInRows(calls: seq<Call>, todo: set<nat>, open: bool, rs: Results, execs: map<Key, Exec>, i: nat)
    requires |rs| == |calls| && MailResults(calls, todo, open, rs, |calls|) && MailRows(calls, todo, open, execs, |calls|)
    requires IsEmail(calls, todo, i)
    ensures KeyOf(calls[i]) in execs && rs[i].Some? && (rs[i].value.ok <==> ExecOk(execs[KeyOf(calls[i])]))
  {
    hide ExecOk;
    var key := KeyOf(calls[i]);
    assert SeenMail(calls, todo, |calls|, key);
    if Went(calls, todo, |calls|, key) {
      var j :| 0 <= j < |calls| && IsEmail(calls, todo, j) && KeyOf(calls[j]) == key && AllMailable(calls, todo, j + 1);
      assert Went(calls, todo, i + 1, key);
    }
  }

  // How an email is settled from its row, before and after a rollback of the
  // writes, which touches no email.
  lemma MailIsSettled(
    calls: seq<Call>, n: nat, tainted: bool, rs: Results, rs1: Results, rs': Results, r: ToolResult, execs: map<Key, Exec>,
    execs': map<Key, Exec>)
    requires n < |calls| == |rs| && rs[n].None? && rs1 == rs[n := Some(r)] && calls[n].tool == SendEmail
    requires var k := KeyOf(calls[n]);
      k in execs' && execs' == execs[k := execs'[k]] && (k in execs ==> execs' == execs) && r == ResultOf(calls[n], execs'[k])
    requires KeyOf(calls[n]) !in execs ==> (r.ok <==> !HasFailed(rs) && Mailable(calls[n].args) && !tainted)
    requires rs' == rs1 || (!r.ok && |rs'| == |rs1| && forall i :: 0 <= i < |calls| && calls[i].tool == SendEmail ==> rs'[i] == rs1[i])
    ensures MailSettled(calls, n, tainted, rs, rs', execs, execs')
  {
    hide Mailable;
    SettleHasFailed(rs, n, r);
    if !r.ok { assert rs'[n].Some? && !rs'[n].value.ok; }
  }

  // Writes leave the rows under the keys of emails alone.
  ghost predicate NoMailYet(calls: seq<Call>, todo: set<nat>, execs: map<Key, Exec>) {
    forall i :: IsEmail(calls, todo, i) ==> KeyOf(calls[i]) !in execs
  }

  lemma WriteIsNoMail(calls: seq<Call>, todo: set<nat>, execs: map<Key, Exec>, call: Call, exec: Exec)
    requires NoMailYet(calls, todo, execs) && call.tool == WriteFile
    ensures NoMailYet(calls, todo, execs[KeyOf(call) := exec])
  {
  }

  lemma FailedHere(rs: Results, i: nat)
    requires i < |rs| && rs[i].Some? && !rs[i].value.ok
    ensures HasFailed(rs)
  {
  }

  // ----- where a batch failed -----

  // A call whose turn comes after the reads.
  predicate Waits(w: Plan, i: int) { 0 <= i < |w.calls| && i in w.todo && IsSideEffect(w.calls[i].tool) }

  // Something failed before the writes: a read, or a call answered from its row.
  ghost predicate Early(w: Plan, rs: Results) {
    exists i :: 0 <= i < |rs| && !Waits(w, i) && rs[i].Some? && !rs[i].value.ok
  }

  // A write that ran and failed says so by its error.
  predicate RanFailed(r: ToolResult) { !r.ok && IsWriteError(r.error) }

  predicate Ran(rs: Results, i: nat)
    requires i < |rs|
  {
    rs[i].Some? && RanFailed(rs[i].value)
  }

  // A write to this place shows a fault.
  ghost predicate Shown(w: Plan, rs: Results, restored: set<nat>, q: Place) {
    exists i :: IsWrite(w.calls, w.todo, i) && Target(w.resolve, w.calls[i]) == Some(q) && Marked(rs, restored, i)
  }

  ghost predicate AllShown(w: Plan, p: Progress) { forall q :: q in p.disk.damaged ==> Shown(w, p.rs, p.restored, q) }

  predicate InOrder(preimages: seq<Preimage>) {
    forall k, l :: 0 <= k < l < |preimages| ==> preimages[k].index < preimages[l].index
  }

  // Where the failure was: at the start if something had failed before the
  // writes, else at the first write that ran and failed, else past all calls.
  ghost predicate Pins(w: Plan, p: Progress, failedAt: nat, n: nat) {
    n <= |w.calls| == |p.rs| && w.base.damaged == {} && AllShown(w, p) && InOrder(p.preimages)
    && (forall k :: 0 <= k < |p.preimages| ==> OfWrite(w, p.preimages[k], n))
    && (forall i :: i in p.restored ==> i < failedAt && IsWrite(w.calls, w.todo, i))
    && if Early(w, p.rs) then failedAt == 0
       else
         && (forall j :: 0 <= j < n && j < failedAt && IsWrite(w.calls, w.todo, j) ==> !Ran(p.rs, j))
         && (failedAt < |w.calls| ==> failedAt < n && IsWrite(w.calls, w.todo, failedAt) && Ran(p.rs, failedAt))
  }

  predicate OfWrite(w: Plan, pre: Preimage, n: nat) {
    pre.index < n && IsWrite(w.calls, w.todo, pre.index) && Target(w.resolve, w.calls[pre.index]) == Some(pre.path)
  }

  lemma PinsBegin(w: Plan, p: Progress)
    requires |p.rs| == |w.calls| && p.disk == w.base && w.base.damaged == {} && p.preimages == [] && p.restored == {}
    requires forall i :: Waits(w, i) ==> p.rs[i].None?
    ensures Pins(w, p, if HasFailed(p.rs) then 0 else |w.calls|, 0)
  {
  }

  lemma PinsPass(w: Plan, p: Progress, failedAt: nat, n: nat)
    requires Pins(w, p, failedAt, n) && n < |w.calls| && !IsWrite(w.calls, w.todo, n)
    ensures Pins(w, p, failedAt, n + 1)
  {
    hide Early;
  }

  // What waits does not make an early failure.
  lemma SameEarly(w: Plan, rs: Results, rs': Results)
    requires |rs| == |rs'| && forall i :: 0 <= i < |rs| && !Waits(w, i) ==> rs'[i] == rs[i]
    ensures Early(w, rs') <==> Early(w, rs)
  {
    if Early(w, rs) {
      var i :| 0 <= i < |rs| && !Waits(w, i) && rs[i].Some? && !rs[i].value.ok;
      assert rs'[i].Some?;
    }
    if Early(w, rs') {
      var i :| 0 <= i < |rs| && !Waits(w, i) && rs'[i].Some? && !rs'[i].value.ok;
      assert rs[i].Some?;
    }
  }

  // What is shown stays shown while other calls are settled.
  lemma ShownKept(w: Plan, rs: Results, rs': Results, restored: set<nat>, q: Place)
    requires |rs'| == |rs| && (forall i :: 0 <= i < |rs| && rs[i].Some? ==> rs'[i] == rs[i]) && Shown(w, rs, restored, q)
    ensures Shown(w, rs', restored, q)
  {
    hide IsFault;
    var i :| IsWrite(w.calls, w.todo, i) && Target(w.resolve, w.calls[i]) == Some(q) && Marked(rs, restored, i);
    assert Marked(rs', restored, i);
  }

  lemma AllShownKept(w: Plan, p: Progress, p': Progress, i: nat)
    requires AllShown(w, p) && p'.disk.damaged == p.disk.damaged && p'.restored == p.restored
    requires i < |p.rs| == |p'.rs| && p.rs[i].None? && p'.rs == p.rs[i := p'.rs[i]]
    ensures AllShown(w, p')
  {
    hide Shown;
    forall q | q in p.disk.damaged ensures Shown(w, p'.rs, p'.restored, q) { ShownKept(w, p.rs, p'.rs, p.restored, q); }
  }

  lemma PinsSettled(w: Plan, p: Progress, failedAt: nat, n: nat, disk': Disk, rs': Results, execs': map<Key, Exec>, more: seq<Preimage>)
    requires Pins(w, p, failedAt, n) && n < |w.calls| && IsWrite(w.calls, w.todo, n) && p.rs[n].None?
    requires |rs'| == |p.rs| && rs' == p.rs[n := rs'[n]] && rs'[n].Some? && (rs'[n].value.ok || failedAt <= n)
    requires disk'.damaged == p.disk.damaged && |more| <= 1
    requires forall k :: 0 <= k < |more| ==> OfWrite(w, more[k], n + 1) && more[k].index == n
    requires failedAt != n || Early(w, p.rs)
    ensures Pins(w, Progress(disk', rs', execs', p.preimages + more, p.restored), failedAt, n + 1)
  {
    hide Early, AllShown;
    AllShownKept(w, p, Progress(disk', rs', execs', p.preimages + more, p.restored), n);
    SameEarly(w, p.rs, rs');
  }

  // While nothing failed, nothing is damaged.
  lemma NoneDamaged(w: Plan, p: Progress)
    requires AllShown(w, p) && !HasFailed(p.rs)
    ensures p.disk.damaged == {}
  {
  }

  // After a rollback, damage is where the failed write or one that could not
  // be taken back shows a fault.
  lemma RollbackShown(
    w: Plan, p: Progress, failedAt: nat, n: nat, disk1: Disk, disk': Disk, rs1: Results, rs': Results, restored: set<nat>)
    requires Pins(w, p, failedAt, n) && RolledBack(p.preimages, disk1, disk', rs1, rs', restored)
    requires forall q :: q in disk1.damaged ==> Shown(w, rs', restored, q)
    ensures AllShown(w, p.(disk := disk', rs := rs', restored := restored))
  {
    hide Agree, Undo, AccountedFor, Early, Weakened, Marked, AllShown;
    forall q | q in disk'.damaged ensures Shown(w, rs', restored, q) {
      if q !in disk1.damaged {
        var k :| 0 <= k < |p.preimages| && p.preimages[k].path == q && Marked(rs', restored, p.preimages[k].index);
        assert OfWrite(w, p.preimages[k], n);
      }
    }
    assert AllShown(w, p.(disk := disk', rs := rs', restored := restored)) by { ShownAll(w, p.(disk := disk', rs := rs', restored := restored)); }
  }

  lemma ShownAll(w: Plan, p: Progress)
    requires forall q :: q in p.disk.damaged ==> Shown(w, p.rs, p.restored, q)
    ensures AllShown(w, p)
  {
    hide Shown;
  }

  // The first write that ran and failed marks the place.
  lemma PinsFailed(
    w: Plan, p: Progress, failedAt: nat, n: nat, disk1: Disk, rs1: Results, disk': Disk, rs': Results, execs': map<Key, Exec>,
    restored: set<nat>)
    requires Pins(w, p, failedAt, n) && !HasFailed(p.rs) && n < |w.calls| && IsWrite(w.calls, w.todo, n) && p.restored == {}
    requires |rs1| == |p.rs| && rs1 == p.rs[n := rs1[n]] && rs1[n].Some? && RanFailed(rs1[n].value)
    requires forall q :: q in disk1.damaged ==>
      q in p.disk.damaged || (rs1[n].value.error == HOST_FAULT && Target(w.resolve, w.calls[n]) == Some(q))
    requires RolledBack(p.preimages, disk1, disk', rs1, rs', restored)
    ensures Pins(w, Progress(disk', rs', execs', p.preimages, p.restored + restored), n, n + 1)
  {
    hide Agree, Undo, AccountedFor, AllShown, Unrestored;
    NoneDamaged(w, p);
    assert !Early(w, p.rs);
    SameEarly(w, p.rs, rs');
    NotWriteErrors();
    hide IsWriteError, Early;
    assert n !in IndexesOf(p.preimages);
    forall q | q in disk1.damaged ensures Shown(w, rs', restored, q) { assert Marked(rs', restored, n); }
    RollbackShown(w, p, failedAt, n, disk1, disk', rs1, rs', restored);
    ShownSame(w, p.(disk := disk', rs := rs', restored := restored), Progress(disk', rs', execs', p.preimages, p.restored + restored));
  }

  lemma ShownSame(w: Plan, p: Progress, p': Progress)
    requires AllShown(w, p) && p'.disk == p.disk && p'.rs == p.rs && p'.restored == p.restored
    ensures AllShown(w, p')
  {
  }

  lemma NotWriteErrors()
    ensures !IsWriteError(ROLLBACK_FAILED) && !IsWriteError(ROLLED_BACK)
  {
    assert ROLLBACK_FAILED[4] == 'R' && ROLLED_BACK[4] == 'R' && "ToolArgumentError"[4] == 'A';
    assert |ROLLBACK_FAILED| == 17 && |ROLLED_BACK| == 19;
  }

  lemma PinsEmail(w: Plan, p: Progress, failedAt: nat, i: nat, rs': Results, execs': map<Key, Exec>)
    requires Pins(w, p, failedAt, |w.calls|) && Waits(w, i) && w.calls[i].tool == SendEmail && p.rs[i].None?
    requires |rs'| == |p.rs| && rs' == p.rs[i := rs'[i]]
    ensures Pins(w, p.(rs := rs', execs := execs'), failedAt, |w.calls|)
  {
    hide Early, AllShown;
    AllShownKept(w, p, p.(rs := rs', execs := execs'), i);
    SameEarly(w, p.rs, rs');
  }

  lemma PinsEmailFailed(
    w: Plan, p: Progress, failedAt: nat, i: nat, rs1: Results, disk': Disk, rs': Results, execs': map<Key, Exec>, restored: set<nat>)
    requires Pins(w, p, failedAt, |w.calls|) && !HasFailed(p.rs) && Waits(w, i) && w.calls[i].tool == SendEmail
    requires failedAt == |w.calls| && p.restored == {} && |rs1| == |p.rs| && rs1 == p.rs[i := rs1[i]]
    requires RolledBack(p.preimages, p.disk, disk', rs1, rs', restored)
    ensures Pins(w, Progress(disk', rs', execs', p.preimages, p.restored + restored), failedAt, |w.calls|)
  {
    hide Agree, Undo, AccountedFor, AllShown, Unrestored;
    NoneDamaged(w, p);
    assert !Early(w, p.rs);
    SameEarly(w, p.rs, rs');
    NotWriteErrors();
    hide IsWriteError, Early;
    RollbackShown(w, p, failedAt, |w.calls|, p.disk, disk', rs1, rs', restored);
    ShownSame(w, p.(disk := disk', rs := rs', restored := restored), Progress(disk', rs', execs', p.preimages, p.restored + restored));
  }

  // ----- both together -----

  ghost predicate UpTo(w: Plan, p: Progress, failedAt: nat, n: nat) { WritesUpTo(w, p, failedAt, n) && Pins(w, p, failedAt, n) }

  lemma BatchBegins(w: Plan, p: Progress)
    requires |p.rs| == |w.calls| && p.disk == w.base && w.base.damaged == {} && p.preimages == [] && p.restored == {}
    requires forall i :: Waits(w, i) ==> p.rs[i].None?
    requires forall i :: IsWrite(w.calls, w.todo, i) ==> KeyOf(w.calls[i]) !in p.execs
    ensures UpTo(w, p, if HasFailed(p.rs) then 0 else |w.calls|, 0)
  {
    WritesBegin(w, p);
    PinsBegin(w, p);
  }

  lemma BatchPasses(w: Plan, p: Progress, failedAt: nat, n: nat)
    requires UpTo(w, p, failedAt, n) && n < |w.calls| && !IsWrite(w.calls, w.todo, n)
    ensures UpTo(w, p, failedAt, n + 1)
  {
    PassOver(w, p, failedAt, n);
    PinsPass(w, p, failedAt, n);
  }

  lemma WriteIsSkipped(w: Plan, p: Progress, failedAt: nat, n: nat, rs': Results, execs': map<Key, Exec>)
    requires UpTo(w, p, failedAt, n) && HasFailed(p.rs) && n < |w.calls| && IsWrite(w.calls, w.todo, n)
    requires Settles(w.calls, n, p, rs', execs')
    requires KeyOf(w.calls[n]) !in p.execs ==> !ExecOk(execs'[KeyOf(w.calls[n])])
    ensures UpTo(w, p.(rs := rs', execs := execs'), failedAt, n + 1)
  {
    WriteSkipped(w, p, failedAt, n, rs', execs');
    FailureBehind(w, p, failedAt, n);
    hide WritesUpTo, Pins, Early, HasFailed;
    PinsSettled(w, p, failedAt, n, p.disk, rs', execs', []);
    assert p.preimages + [] == p.preimages;
  }

  lemma FailureBehind(w: Plan, p: Progress, failedAt: nat, n: nat)
    requires UpTo(w, p, failedAt, n) && HasFailed(p.rs) && n < |w.calls|
    ensures failedAt <= n && (failedAt == n ==> Early(w, p.rs))
  {
    hide Early, HasFailed, Back, Reported, RowsTell, Clean;
  }

  lemma WriteSucceeds(w: Plan, p: Progress, failedAt: nat, n: nat, rs': Results, execs': map<Key, Exec>, disk': Disk)
    requires UpTo(w, p, failedAt, n) && !HasFailed(p.rs) && n < |w.calls| && IsWrite(w.calls, w.todo, n)
    requires Settles(w.calls, n, p, rs', execs') && rs'[n].value.ok
    requires if KeyOf(w.calls[n]) in p.execs then disk' == p.disk else WriteEffect(w.resolve, w.calls[n], true, rs'[n].value.error, p.disk, disk')
    ensures Restorable(w, w.calls[n]) && p.disk.folders == w.base.folders
    ensures UpTo(w, Progress(disk', rs', execs', p.preimages + [PreimageAt(w, p, n)], p.restored), failedAt, n + 1)
  {
    WriteSucceeded(w, p, failedAt, n, rs', execs', disk');
    NotYetFailed(w, p, failedAt, n);
    hide WritesUpTo, Pins, Early, HasFailed;
    assert OfWrite(w, PreimageAt(w, p, n), n + 1);
    PinsSettled(w, p, failedAt, n, disk', rs', execs', [PreimageAt(w, p, n)]);
  }

  lemma NotYetFailed(w: Plan, p: Progress, failedAt: nat, n: nat)
    requires WritesUpTo(w, p, failedAt, n) && !HasFailed(p.rs)
    ensures failedAt == |w.calls| && p.restored == {}
  {
    hide HasFailed, RowsTell;
  }

  lemma WriteFails(
    w: Plan, p: Progress, failedAt: nat, n: nat, rs1: Results, execs': map<Key, Exec>, disk1: Disk, disk': Disk, rs': Results,
    restored: set<nat>)
    requires UpTo(w, p, failedAt, n) && !HasFailed(p.rs) && n < |w.calls| && IsWrite(w.calls, w.todo, n)
    requires Settles(w.calls, n, p, rs1, execs') && !rs1[n].value.ok
    requires KeyOf(w.calls[n]) !in p.execs ==>
      WriteEffect(w.resolve, w.calls[n], false, rs1[n].value.error, p.disk, disk1) && IsWriteError(rs1[n].value.error)
    requires RolledBack(p.preimages, disk1, disk', rs1, rs', restored)
    ensures UpTo(w, Progress(disk', rs', execs', p.preimages, p.restored + restored), n, n + 1)
  {
    WriteFailed(w, p, failedAt, n, rs1, execs', disk1, disk', rs', restored);
    NotYetFailed(w, p, failedAt, n);
    if KeyOf(w.calls[n]) in p.execs { RepeatedRow(w, p, failedAt, n); assert false; }
    EffectBounded(w, rs1[n].value.error, p.disk, disk1, n);
    hide WritesUpTo, Pins, Early, HasFailed, RolledBack, WriteEffect;
    PinsFailed(w, p, failedAt, n, disk1, rs1, disk', rs', execs', restored);
  }

  lemma EmailIsSettled(w: Plan, p: Progress, failedAt: nat, i: nat, rs': Results, execs': map<Key, Exec>)
    requires UpTo(w, p, failedAt, |w.calls|) && Waits(w, i) && w.calls[i].tool == SendEmail
    requires Settles(w.calls, i, p, rs', execs') && (HasFailed(p.rs) || rs'[i].value.ok)
    ensures UpTo(w, p.(rs := rs', execs := execs'), failedAt, |w.calls|)
  {
    EmailSettled(w, p, failedAt, i, rs', execs');
    hide WritesUpTo, Pins;
    PinsEmail(w, p, failedAt, i, rs', execs');
  }

  lemma EmailFails(
    w: Plan, p: Progress, failedAt: nat, i: nat, rs1: Results, execs': map<Key, Exec>, disk': Disk, rs': Results,
    restored: set<nat>)
    requires UpTo(w, p, failedAt, |w.calls|) && !HasFailed(p.rs) && Waits(w, i) && w.calls[i].tool == SendEmail
    requires Settles(w.calls, i, p, rs1, execs') && !rs1[i].value.ok
    requires RolledBack(p.preimages, p.disk, disk', rs1, rs', restored)
    ensures UpTo(w, Progress(disk', rs', execs', p.preimages, p.restored + restored), failedAt, |w.calls|)
  {
    EmailFailed(w, p, failedAt, i, rs1, execs', disk', rs', restored);
    NotYetFailed(w, p, failedAt, |w.calls|);
    hide WritesUpTo, Pins, HasFailed, RolledBack;
    PinsEmailFailed(w, p, failedAt, i, rs1, disk', rs', execs', restored);
  }

  // ----- reads -----

  predicate IsRead(calls: seq<Call>, todo: set<nat>, i: int) {
    0 <= i < |calls| && i in todo && !IsSideEffect(calls[i].tool)
  }

  // No read runs a program: only a program changes files among the reads.
  ghost predicate NoPython(calls: seq<Call>, todo: set<nat>) {
    forall i :: IsRead(calls, todo, i) ==> calls[i].tool != RunPython
  }

  // The rows the reads leave, had they run one after the other.
  function AfterReads(execs: map<Key, Exec>, calls: seq<Call>, todo: set<nat>, replies: seq<Exec>, n: nat): map<Key, Exec>
    requires n <= |calls| == |replies|
  {
    if n == 0 then execs
    else
      var before := AfterReads(execs, calls, todo, replies, n - 1);
      if IsRead(calls, todo, n - 1) then before[KeyOf(calls[n - 1]) := replies[n - 1]] else before
  }

  lemma {:induction false} AfterReadsAt(
    execs: map<Key, Exec>, calls: seq<Call>, todo: set<nat>, replies: seq<Exec>, n: nat, key: Key)
    requires n <= |calls| == |replies| && DistinctKeys(calls)
    ensures var after := AfterReads(execs, calls, todo, replies, n);
      && (forall i :: 0 <= i < n && IsRead(calls, todo, i) && KeyOf(calls[i]) == key ==> key in after && after[key] == replies[i])
      && ((forall i :: 0 <= i < n && IsRead(calls, todo, i) ==> KeyOf(calls[i]) != key) ==>
           (key in after <==> key in execs) && (key in execs ==> after[key] == execs[key]))
  {
    if n > 0 { AfterReadsAt(execs, calls, todo, replies, n - 1, key); }
  }
}
