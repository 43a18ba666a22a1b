// What every reachable durable state satisfies, proved commit by commit.
module Invariant {
  import opened Events
  import opened Protocol

  // ----- the grammar of a log: what an event presupposes of the events before it -----

  predicate ResponseIs(p: seq<Event>, step: nat, calls: seq<Call>) {
    Latest(p, KResponse, step).Some?
    && Latest(p, KResponse, step).value.response.calls == calls
    && !Latest(p, KResponse, step).value.response.Incomplete()
  }

  ghost predicate Requested(p: seq<Event>, step: nat, tool: Tool, key: Key) {
    Latest(p, KParsed, step).Some?
    && exists c :: c in Latest(p, KParsed, step).value.calls && KeyOf(c) == key && c.tool == tool
  }

  // The batch of the step asks for an email whose result was already logged at
  // an earlier step.
  ghost predicate RepeatsEmail(p: seq<Event>, step: nat) {
    Latest(p, KParsed, step).Some?
    && exists c, i :: c in Latest(p, KParsed, step).value.calls && c.tool == SendEmail
         && 0 <= i < |p| && EventKeyOf(p[i]) == EmailResult(KeyOf(c)) && p[i].step < step
  }

  // The event may come next whatever it says: steps are monotone and each
  // opens when the one before is closed, unique keys are free, and nothing
  // follows the end of the run.
  ghost predicate Opens(cfg: Config, p: seq<Event>, e: Event) {
    && p != []
    && 1 <= e.step <= cfg.maxSteps
    && p[|p| - 1].step <= e.step
    && !p[|p| - 1].Finished?
    && !Logged(p, EventKeyOf(e))
    && (e.step >= 2 ==> Closed(p, e.step - 1))
  }

  // What it says fits what was logged about its step.
  ghost predicate Fits(cfg: Config, p: seq<Event>, e: Event) {
    var t := e.step;
    match e
    case RunStarted(_) => false
    case StepStart(_, total) => Latest(p, KResponse, t).None? && total == CostSoFar(p)
    case Request(_, _) => Latest(p, KResponse, t).None?
    case Responded(_, _) => Latest(p, KRequest, t).Some?
    case Said(_, _) => Latest(p, KResponse, t).Some? && Latest(p, KCharge, t).None?
    case ParseFailed(_, _, _) => Latest(p, KResponse, t).Some? && Latest(p, KCharge, t).None?
    case Charged(_, cost, total) =>
      Latest(p, KResponse, t).Some? && total == CostSoFar(p) + cost && CostSoFar(p) <= cfg.costBudget
      && Voiced(p, t, Latest(p, KResponse, t).value.response)
    case PartialTurn(_) =>
      Paid(cfg, p, t) && Latest(p, KParsed, t).None? && Latest(p, KResponse, t).Some?
      && Latest(p, KResponse, t).value.response.Incomplete()
    case Contradicted(_) => Paid(cfg, p, t) && Latest(p, KParsed, t).None? && ResponseIs(p, t, [])
    case Parsed(_, calls) => Paid(cfg, p, t) && calls != [] && ResponseIs(p, t, calls)
    case ProgressCheck(_, digest, repeats) =>
      Latest(p, KParsed, t).Some? && digest == DigestOf(Latest(p, KParsed, t).value.calls)
      && repeats == Repeats(p, t, digest)
      && (forall i :: 0 <= i < |p| && p[i].step == t ==> !p[i].Started? && !p[i].ProgressCheck?)
    case Started(_, _, call) =>
      t < cfg.maxSteps && Requested(p, t, call.tool, KeyOf(call)) && !NoProgress(cfg, p)
      && (CompletedKeys(p, t) != {} ==> RepeatsEmail(p, t))
    case Result(_, _, r) =>
      t < cfg.maxSteps && Requested(p, t, r.tool, r.key) && !NoProgress(cfg, p)
      && AllStarted(p, t, Latest(p, KParsed, t).value.calls)
    case StepLimit(_) => t >= cfg.maxSteps
    case Finished(_, reason) =>
      (reason == StepLimitReached ==> t >= cfg.maxSteps)
      && (reason == Completed ==> Paid(cfg, p, t) && Latest(p, KParsed, t).None? && ResponseIs(p, t, []))
  }

  ghost predicate MayFollow(cfg: Config, p: seq<Event>, e: Event) {
    if p == [] then e == RunStarted(0) else Opens(cfg, p, e) && Fits(cfg, p, e)
  }

  ghost predicate LogOk(cfg: Config, log: seq<Event>) {
    log == [] || (LogOk(cfg, log[..|log| - 1]) && MayFollow(cfg, log[..|log| - 1], log[|log| - 1]))
  }

  // ----- the row, the tables and the log agree -----

  ghost predicate StepsClosed(cfg: Config, d: Durable) {
    d.row.step <= cfg.maxSteps
    && d.log != [] && d.log[|d.log| - 1].step <= d.row.step
    && forall s :: 1 <= s < d.row.step ==> Closed(d.log, s)
  }

  // The batch of the current step has been executed to the end at least once.
  ghost predicate BatchExecuted(d: Durable, calls: seq<Call>) {
    AllStarted(d.log, d.row.step, calls) && AllExecuted(d.execs, calls) && AllResulted(d.log, d.row.step, calls)
    && forall c :: c in d.row.pending ==> c in calls && KeyOf(c) !in CompletedKeys(d.log, d.row.step)
  }

  ghost predicate RowOk(cfg: Config, d: Durable) {
    if d.row.status.Done? then d.row.pending == [] && d.log != [] && d.log[|d.log| - 1].Finished?
    else
      && (forall i :: 0 <= i < |d.log| ==> !d.log[i].Finished?)
      && (d.row.status.Fresh? <==> d.row.step == 0)
      && (d.row.status.Fresh? ==> d.log == [RunStarted(0)] && d.row.pending == [] && d.execs == map[] && d.emails == map[])
      && (d.row.status.RunningTools? <==> d.row.pending != [])
      && match Latest(d.log, KParsed, d.row.step)
         case None => d.row.pending == []
         case Some(p) => d.row.pending == p.calls || BatchExecuted(d, p.calls)
  }

  ghost predicate CostOk(cfg: Config, d: Durable) {
    match Latest(d.log, KCharge, d.row.step)
    case None => CostSoFar(d.log) <= cfg.costBudget
    case Some(c) => CostSoFar(d.log) == c.total
  }

  ghost predicate ExecsOk(d: Durable) {
    && (forall k :: k in d.emails <==> k in d.execs && k.EmailKey? && d.execs[k].status == ExecCompleted)
    && (forall k :: k in d.emails ==> ExecOk(d.execs[k]))
    && (forall k :: k in d.emails ==>
          k.to == Text(d.emails[k].to) && k.subject == Text(d.emails[k].subject) && k.body == Text(d.emails[k].body))
    && (forall k :: k in d.emails ==> Requested(d.log, 1, SendEmail, k))
  }

  ghost predicate Inv(cfg: Config, d: Durable) {
    if d.row.status.NoRow? then d == Initial()
    else LogOk(cfg, d.log) && StepsClosed(cfg, d) && RowOk(cfg, d) && CostOk(cfg, d) && ExecsOk(d)
  }

  // The sent emails are determined by the execution rows.
  lemma EmailsFollowRows(cfg: Config, d: Durable, d': Durable)
    requires Inv(cfg, d) && Inv(cfg, d') && d.execs == d'.execs
    ensures d.emails == d'.emails
  {
    hide LogOk, StepsClosed, RowOk, CostOk, Requested;
    assert forall k :: k in d.emails <==> k in d'.emails;
    forall k | k in d.emails ensures d.emails[k] == d'.emails[k] {
      assert k in d'.emails;
    }
  }

  // ----- stability under growth of the log -----

  lemma LoggedAppend(log: seq<Event>, e: Event, k: EventKey)
    ensures Logged(log + [e], k) <==> Logged(log, k) || EventKeyOf(e) == k
  {
    if Logged(log, k) {
      var i :| 0 <= i < |log| && EventKeyOf(log[i]) == k;
      assert (log + [e])[i] == log[i];
    }
    if EventKeyOf(e) == k { assert (log + [e])[|log|] == e; }
  }

  lemma InsertKeeps(log: seq<Event>, e: Event)
    requires EventKeyOf(e) != NoKey
    ensures Logged(Insert(log, e), EventKeyOf(e))
    ensures forall k :: Logged(log, k) ==> Logged(Insert(log, e), k)
    ensures Insert(log, e) == log || (Insert(log, e) == log + [e] && !Logged(log, EventKeyOf(e)))
  {
    if Insert(log, e) != log {
      LoggedAppend(log, e, EventKeyOf(e));
      forall k | Logged(log, k) ensures Logged(log + [e], k) { LoggedAppend(log, e, k); }
    }
  }

  // A recorded request, response, charge or parse of a step is never replaced.
  lemma {:induction false} LatestStable(log: seq<Event>, e: Event, kind: Kind, step: nat)
    requires kind != KOther && kind != KFinish
    requires !Logged(log, EventKeyOf(e))
    requires Latest(log, kind, step).Some?
    ensures Latest(log + [e], kind, step) == Latest(log, kind, step)
  {
    LatestAppend(log, e, kind, step);
    var v := Latest(log, kind, step).value;
    var i :| 0 <= i < |log| && log[i] == v;
    assert EventKeyOf(log[i]) == Slot(kind, step);
  }

  lemma CompletedGrow(log: seq<Event>, e: Event, step: nat)
    ensures CompletedKeys(log, step) <= CompletedKeys(log + [e], step)
  {
    forall k | k in CompletedKeys(log, step) ensures k in CompletedKeys(log + [e], step) {
      var i :| 0 <= i < |log| && log[i].Result? && log[i].step == step && log[i].outcome.key == k;
      assert (log + [e])[i] == log[i];
    }
  }

  lemma ClosedStable(log: seq<Event>, e: Event, step: nat)
    requires Closed(log, step) && !Logged(log, EventKeyOf(e))
    ensures Closed(log + [e], step)
  {
    LatestStable(log, e, KParsed, step);
    CompletedGrow(log, e, step);
    var calls := Latest(log, KParsed, step).value.calls;
    MissingEmpty(calls, CompletedKeys(log, step));
    MissingEmpty(calls, CompletedKeys(log + [e], step));
  }

  lemma {:induction false} LatestProgressAppend(log: seq<Event>, e: Event)
    ensures LatestProgress(log + [e]) == if e.ProgressCheck? then Some(e) else LatestProgress(log)
    ensures CostSoFar(log + [e]) == if e.Charged? then e.total else CostSoFar(log)
  {
    assert (log + [e])[..|log|] == log;
  }

  // ----- one commit at a time -----

  lemma RequestedStable(log: seq<Event>, e: Event, step: nat, tool: Tool, key: Key)
    requires Requested(log, step, tool, key) && !Logged(log, EventKeyOf(e))
    ensures Requested(log + [e], step, tool, key)
  {
    LatestStable(log, e, KParsed, step);
  }

  // A new event of the current step keeps the closed steps, the grammar and
  // the emails' origin.
  lemma AppendKeeps(cfg: Config, d: Durable, e: Event)
    requires Inv(cfg, d) && Live(d.row) && e.step == d.row.step && MayFollow(cfg, d.log, e) && d.log != []
    ensures LogOk(cfg, d.log + [e])
    ensures StepsClosed(cfg, d.(log := d.log + [e]))
    ensures ExecsOk(d.(log := d.log + [e]))
  {
    assert (d.log + [e])[..|d.log|] == d.log;
    forall s | 1 <= s < d.row.step ensures Closed(d.log + [e], s) { ClosedStable(d.log, e, s); }
    forall k | k in d.emails ensures Requested(d.log + [e], 1, SendEmail, k) {
      RequestedStable(d.log, e, 1, SendEmail, k);
    }
  }

  lemma AppendKeepsCost(cfg: Config, d: Durable, e: Event)
    requires Inv(cfg, d) && Live(d.row) && e.step == d.row.step && MayFollow(cfg, d.log, e) && d.log != []
    ensures CostOk(cfg, d.(log := d.log + [e]))
  {
    LatestAppend(d.log, e, KCharge, d.row.step);
    LatestProgressAppend(d.log, e);
  }

  lemma CompletedAppend(log: seq<Event>, e: Event, step: nat)
    ensures CompletedKeys(log + [e], step) ==
      CompletedKeys(log, step) + if e.Result? && e.step == step then {e.outcome.key} else {}
  {
    CompletedGrow(log, e, step);
    if e.Result? { assert (log + [e])[|log|] == e; }
  }

  // A logged result of a call that is no email counts at its own step.
  lemma ResultedCompleted(log: seq<Event>, step: nat, index: nat, key: Key)
    requires Logged(log, ResultSlot(step, index, key))
    ensures key in CompletedKeys(log, step)
  {
    var i :| 0 <= i < |log| && EventKeyOf(log[i]) == ResultSlot(step, index, key);
    assert log[i].Result?;
  }

  lemma EarlierResult(cfg: Config, log: seq<Event>, step: nat, key: Key) returns (i: nat)
    requires LogOk(cfg, log) && log != [] && log[|log| - 1].step <= step
    requires Logged(log, EmailResult(key)) && key !in CompletedKeys(log, step)
    ensures i < |log| && EventKeyOf(log[i]) == EmailResult(key) && log[i].step < step
  {
    hide LogOk;
    i :| 0 <= i < |log| && EventKeyOf(log[i]) == EmailResult(key);
    StepsBounded(cfg, log, i);
  }

  // An executed call that still lacks a result at its step is an email whose
  // result was logged at an earlier one.
  lemma LackingIsRepeated(cfg: Config, d: Durable, c: Call)
    requires LogOk(cfg, d.log) && StepsClosed(cfg, d)
    requires Latest(d.log, KParsed, d.row.step).Some?
    requires c in Latest(d.log, KParsed, d.row.step).value.calls
    requires AllResulted(d.log, d.row.step, Latest(d.log, KParsed, d.row.step).value.calls)
    requires KeyOf(c) !in CompletedKeys(d.log, d.row.step)
    ensures c.tool == SendEmail && Logged(d.log, EmailResult(KeyOf(c))) && RepeatsEmail(d.log, d.row.step)
  {
    var t := d.row.step;
    var calls := Latest(d.log, KParsed, t).value.calls;
    hide Closed, LogOk, StepsClosed, RecoverCalls;
    var n :| 0 <= n < |calls| && calls[n] == c;
    assert Logged(d.log, ResultKey(t, n, c.tool, KeyOf(c)));
    if c.tool != SendEmail { ResultedCompleted(d.log, t, n, KeyOf(c)); }
    var i := EarlierResult(cfg, d.log, t, KeyOf(c));
  }

  lemma AppendKeepsExecuted(cfg: Config, d: Durable, e: Event, calls: seq<Call>)
    requires Inv(cfg, d) && Live(d.row) && e.step == d.row.step && MayLog(cfg, d, e) && !Logged(d.log, EventKeyOf(e))
    requires Latest(d.log, KParsed, d.row.step).Some? && calls == Latest(d.log, KParsed, d.row.step).value.calls
    requires BatchExecuted(d, calls)
    ensures BatchExecuted(d.(log := d.log + [e]), calls)
  {
    forall k | Logged(d.log, k) ensures Logged(d.log + [e], k) { LoggedAppend(d.log, e, k); }
    CompletedAppend(d.log, e, d.row.step);
    if e.Result? { LackingIsRepeated(cfg, d, d.row.pending[e.index]); }
  }

  lemma AppendKeepsRow(cfg: Config, d: Durable, e: Event)
    requires Inv(cfg, d) && Live(d.row) && e.step == d.row.step && MayFollow(cfg, d.log, e) && d.log != []
    requires MayLog(cfg, d, e)
    ensures RowOk(cfg, d.(log := d.log + [e]))
  {
    LatestAppend(d.log, e, KParsed, d.row.step);
    var p := Latest(d.log, KParsed, d.row.step);
    if p.Some? && d.row.pending != p.value.calls {
      AppendKeepsExecuted(cfg, d, e, p.value.calls);
    }
  }

  // The durable guard of an event implies the grammar's demand.
  lemma GuardMeansFollow(cfg: Config, d: Durable, e: Event)
    requires Inv(cfg, d) && MayLog(cfg, d, e) && !Logged(d.log, EventKeyOf(e))
    ensures MayFollow(cfg, d.log, e)
  {
    hide Fits, Opens, RowOk, StepsClosed, CostOk, ExecsOk, LogOk;
    GuardOpens(cfg, d, e);
    GuardFits(cfg, d, e);
  }

  lemma GuardOpens(cfg: Config, d: Durable, e: Event)
    requires StepsClosed(cfg, d) && RowOk(cfg, d) && Live(d.row) && d.row.step > 0 && e.step == d.row.step
    requires !Logged(d.log, EventKeyOf(e))
    ensures Opens(cfg, d.log, e)
  {
  }

  lemma GuardFits(cfg: Config, d: Durable, e: Event)
    requires Inv(cfg, d) && MayLog(cfg, d, e) && !Logged(d.log, EventKeyOf(e))
    ensures Fits(cfg, d.log, e)
  {
    match e
    case Started(_, i, call) =>
      PendingRequested(cfg, d, call);
      if CompletedKeys(d.log, d.row.step) != {} { LateStart(cfg, d, i); }
    case Result(_, i, r) => PendingRequested(cfg, d, d.row.pending[i]);
    case _ =>
  }

  lemma {:induction false} ResultMeansStarted(cfg: Config, log: seq<Event>, step: nat)
    requires LogOk(cfg, log) && CompletedKeys(log, step) != {}
    ensures Latest(log, KParsed, step).Some? && AllStarted(log, step, Latest(log, KParsed, step).value.calls)
  {
    var p, e := log[..|log| - 1], log[|log| - 1];
    assert log == p + [e];
    CompletedAppend(p, e, step);
    if CompletedKeys(p, step) != {} { ResultMeansStarted(cfg, p, step); }
    LatestStable(p, e, KParsed, step);
    forall k | Logged(p, k) ensures Logged(log, k) { LoggedAppend(p, e, k); }
  }

  // A start that is new although the step already has results belongs to a
  // recovered, repeated email.
  lemma LateStart(cfg: Config, d: Durable, i: nat)
    requires Inv(cfg, d) && Executing(cfg, d) && i < |d.row.pending| && CompletedKeys(d.log, d.row.step) != {}
    requires !Logged(d.log, StartSlot(d.row.step, i, KeyOf(d.row.pending[i])))
    ensures RepeatsEmail(d.log, d.row.step)
  {
    ResultMeansStarted(cfg, d.log, d.row.step);
    LackingIsRepeated(cfg, d, d.row.pending[i]);
  }

  // Whatever is pending was parsed at the current step.
  lemma PendingRequested(cfg: Config, d: Durable, call: Call)
    requires Inv(cfg, d) && Live(d.row) && call in d.row.pending
    ensures Requested(d.log, d.row.step, call.tool, KeyOf(call))
  {
    assert d.row.pending != [];
  }

  lemma KeepLog(cfg: Config, d: Durable, e: Event)
    requires Inv(cfg, d) && MayLog(cfg, d, e)
    ensures Inv(cfg, Logging(d, e))
  {
    if !Logged(d.log, EventKeyOf(e)) {
      GuardMeansFollow(cfg, d, e);
      AppendKeeps(cfg, d, e);
      AppendKeepsCost(cfg, d, e);
      AppendKeepsRow(cfg, d, e);
    }
  }

  // A slot that is taken shows in the log's answer for it.
  lemma SlotTaken(log: seq<Event>, kind: Kind, step: nat)
    requires kind != KOther && kind != KFinish
    ensures Logged(log, Slot(kind, step)) <==> Latest(log, kind, step).Some?
  {
    if Logged(log, Slot(kind, step)) {
      var i :| 0 <= i < |log| && EventKeyOf(log[i]) == Slot(kind, step);
      assert log[i] in log && KindOf(log[i]) == kind && log[i].step == step;
      LatestComplete(log, kind, step);
    }
    if Latest(log, kind, step).Some? {
      var e := Latest(log, kind, step).value;
      var i :| 0 <= i < |log| && log[i] == e;
      assert EventKeyOf(log[i]) == Slot(kind, step);
    }
  }

  lemma KeepParse(cfg: Config, d: Durable)
    requires Inv(cfg, d) && CanParse(cfg, d)
    ensures Inv(cfg, Parsing(d))
  {
    var t := d.row.step;
    var e := Parsed(t, Latest(d.log, KResponse, t).value.response.calls);
    SlotTaken(d.log, KParsed, t);
    ParseFollows(cfg, d);
    AppendKeeps(cfg, d, e);
    AppendKeepsCost(cfg, d, e);
    LatestAppend(d.log, e, KParsed, t);
  }

  lemma ParseFollows(cfg: Config, d: Durable)
    requires Inv(cfg, d) && CanParse(cfg, d)
    ensures MayFollow(cfg, d.log, Parsed(d.row.step, Latest(d.log, KResponse, d.row.step).value.response.calls))
  {
    hide Opens, LogOk, Closed, Paid;
    SlotTaken(d.log, KParsed, d.row.step);
    GuardOpens(cfg, d, Parsed(d.row.step, Latest(d.log, KResponse, d.row.step).value.response.calls));
  }

  lemma FinishFollows(cfg: Config, d: Durable, reason: Reason)
    requires Inv(cfg, d) && CanFinish(cfg, d, reason)
    ensures MayFollow(cfg, d.log, Finished(d.row.step, reason))
  {
    hide Opens;
    assert !Logged(d.log, FinishSlot);
    GuardOpens(cfg, d, Finished(d.row.step, reason));
  }

  lemma FinishAppends(cfg: Config, d: Durable, reason: Reason)
    requires Inv(cfg, d) && CanFinish(cfg, d, reason)
    ensures var d' := d.(log := d.log + [Finished(d.row.step, reason)]);
      LogOk(cfg, d'.log) && StepsClosed(cfg, d') && ExecsOk(d') && CostOk(cfg, d')
  {
    FinishFollows(cfg, d, reason);
    AppendKeeps(cfg, d, Finished(d.row.step, reason));
    AppendKeepsCost(cfg, d, Finished(d.row.step, reason));
  }

  lemma KeepFinish(cfg: Config, d: Durable, reason: Reason)
    requires Inv(cfg, d) && CanFinish(cfg, d, reason)
    ensures Inv(cfg, Finishing(d, reason))
  {
    FinishAppends(cfg, d, reason);
    assert !Logged(d.log, FinishSlot);
  }

  lemma RecordKeepsExecs(d: Durable, call: Call, exec: Exec)
    requires ExecsOk(d)
    requires call.tool == SendEmail ==> KeyOf(call) !in d.execs && exec.status != ExecCompleted
    ensures ExecsOk(Recorded(d, call, exec))
  {
  }

  lemma RecordKeepsRow(cfg: Config, d: Durable, call: Call, exec: Exec)
    requires RowOk(cfg, d) && d.row.status.RunningTools?
    ensures RowOk(cfg, Recorded(d, call, exec))
  {
  }

  lemma KeepRecord(cfg: Config, d: Durable, call: Call, exec: Exec)
    requires Inv(cfg, d) && CanRecord(cfg, d, call, exec)
    ensures Inv(cfg, Recorded(d, call, exec))
  {
    hide RowOk, ExecsOk, LogOk, Closed;
    RecordKeepsExecs(d, call, exec);
    RecordKeepsRow(cfg, d, call, exec);
  }

  // An email is sent in step 1 or never.
  lemma SendInFirstStep(cfg: Config, d: Durable, call: Call)
    requires Inv(cfg, d) && CanSend(cfg, d, call)
    ensures d.row.step == 1
    ensures d.row.pending == Latest(d.log, KParsed, 1).value.calls
  {
    if d.row.step > 1 { ClosedTaints(cfg, d, 1); }
    PendingRequested(cfg, d, call);
  }

  lemma SendKeepsExecs(d: Durable, call: Call)
    requires ExecsOk(d) && call.tool == SendEmail && Mailable(call.args) && Requested(d.log, 1, SendEmail, KeyOf(call))
    ensures ExecsOk(Mailed(d, call))
  {
  }

  lemma SendKeepsRow(cfg: Config, d: Durable, call: Call)
    requires RowOk(cfg, d) && d.row.status.RunningTools? && Mailable(call.args)
    ensures RowOk(cfg, Mailed(d, call))
  {
  }

  lemma KeepSend(cfg: Config, d: Durable, call: Call)
    requires Inv(cfg, d) && CanSend(cfg, d, call)
    ensures Inv(cfg, Mailed(d, call))
  {
    SendInFirstStep(cfg, d, call);
    PendingRequested(cfg, d, call);
    hide RowOk, ExecsOk, LogOk, Closed, Latest, RecoverCalls, CompletedKeys, Requested, OthersSucceeded, AllStarted;
    SendKeepsExecs(d, call);
    SendKeepsRow(cfg, d, call);
  }

  // A closed step left at least one tool result in the log.
  lemma ClosedTaints(cfg: Config, d: Durable, step: nat)
    requires LogOk(cfg, d.log) && Closed(d.log, step)
    ensures Tainted(d.log)
  {
    ParsedNotEmpty(cfg, d.log, step);
    var calls := Latest(d.log, KParsed, step).value.calls;
    MissingEmpty(calls, CompletedKeys(d.log, step));
    assert KeyOf(calls[0]) in CompletedKeys(d.log, step);
  }

  lemma {:induction false} ParsedNotEmpty(cfg: Config, log: seq<Event>, step: nat)
    requires LogOk(cfg, log) && Latest(log, KParsed, step).Some?
    ensures Latest(log, KParsed, step).value.calls != []
  {
    if KindOf(log[|log| - 1]) != KParsed || log[|log| - 1].step != step {
      ParsedNotEmpty(cfg, log[..|log| - 1], step);
    }
  }

  lemma {:induction false} ParsedPaid(cfg: Config, log: seq<Event>, step: nat)
    requires LogOk(cfg, log) && Latest(log, KParsed, step).Some?
    ensures Paid(cfg, log, step) && ResponseIs(log, step, Latest(log, KParsed, step).value.calls)
  {
    var p, e := log[..|log| - 1], log[|log| - 1];
    assert log == p + [e];
    LatestAppend(p, e, KParsed, step);
    if Latest(p, KParsed, step).Some? { ParsedPaid(cfg, p, step); }
    if p != [] {
      LatestStable(p, e, KCharge, step);
      LatestStable(p, e, KResponse, step);
    }
  }

  lemma {:induction false} StepsBounded(cfg: Config, log: seq<Event>, i: nat)
    requires LogOk(cfg, log) && i < |log|
    ensures log[i].step <= log[|log| - 1].step
  {
    if i < |log| - 1 { StepsBounded(cfg, log[..|log| - 1], i); }
  }

  // Nothing is logged yet about a step that has not begun.
  lemma FutureEmpty(cfg: Config, d: Durable, kind: Kind)
    requires LogOk(cfg, d.log) && StepsClosed(cfg, d)
    ensures Latest(d.log, kind, d.row.step + 1).None?
  {
    var l := Latest(d.log, kind, d.row.step + 1);
    if l.Some? {
      var i :| 0 <= i < |d.log| && d.log[i] == l.value;
      StepsBounded(cfg, d.log, i);
    }
  }

  lemma KeepBegin(cfg: Config, d: Durable)
    requires Inv(cfg, d) && CanBegin(cfg, d)
    ensures Inv(cfg, Begun(d))
  {
    var t := d.row.step;
    if NextStep(d.row, d.log) == t {
      assert Begun(d) == d;
    } else if t == 0 {
      FutureEmpty(cfg, d, KParsed);
      FutureEmpty(cfg, d, KCharge);
    } else {
      BeginNew(cfg, d);
    }
  }

  lemma BeginNew(cfg: Config, d: Durable)
    requires Inv(cfg, d) && CanBegin(cfg, d) && d.row.step > 0 && NextStep(d.row, d.log) == d.row.step + 1
    ensures Inv(cfg, Begun(d))
  {
    CurrentClosed(cfg, d);
    BeginKeepsSteps(cfg, d);
    BeginKeepsRow(cfg, d);
  }

  lemma CurrentClosed(cfg: Config, d: Durable)
    requires Inv(cfg, d) && CanBegin(cfg, d) && d.row.step > 0 && NextStep(d.row, d.log) == d.row.step + 1
    ensures Closed(d.log, d.row.step)
  {
  }

  lemma BeginKeepsSteps(cfg: Config, d: Durable)
    requires StepsClosed(cfg, d) && d.row.step < cfg.maxSteps && NextStep(d.row, d.log) == d.row.step + 1
    requires d.row.step > 0 ==> Closed(d.log, d.row.step)
    ensures StepsClosed(cfg, Begun(d))
  {
  }

  lemma BeginKeepsRow(cfg: Config, d: Durable)
    requires Inv(cfg, d) && Live(d.row) && d.row.pending == [] && d.row.step > 0
    requires NextStep(d.row, d.log) == d.row.step + 1 && Closed(d.log, d.row.step)
    ensures RowOk(cfg, Begun(d)) && CostOk(cfg, Begun(d))
  {
    FutureEmpty(cfg, d, KParsed);
    FutureEmpty(cfg, d, KCharge);
    ParsedPaid(cfg, d.log, d.row.step);
  }

  lemma SameTables(d: Durable, d': Durable)
    requires ExecsOk(d) && d'.execs == d.execs && d'.emails == d.emails && d'.log == d.log
    ensures ExecsOk(d')
  {
  }

  lemma RecoverKeepsRow(cfg: Config, d: Durable)
    requires LogOk(cfg, d.log) && RowOk(cfg, d) && CanRecover(cfg, d)
    ensures RowOk(cfg, Recovered(d))
  {
    var t := d.row.step;
    var p := Latest(d.log, KParsed, t).value;
    MissingMembers(p.calls, CompletedKeys(d.log, t));
    ParsedNotEmpty(cfg, d.log, t);
    assert BatchExecuted(d, p.calls);
  }

  lemma KeepRecover(cfg: Config, d: Durable)
    requires Inv(cfg, d) && CanRecover(cfg, d)
    ensures Inv(cfg, Recovered(d))
  {
    hide RowOk, ExecsOk, LogOk, Closed;
    RecoverKeepsRow(cfg, d);
    SameTables(d, Recovered(d));
  }

  lemma KeepEndBatch(cfg: Config, d: Durable)
    requires Inv(cfg, d) && CanEndBatch(cfg, d)
    ensures Inv(cfg, Ended(d))
  {
  }

  lemma NextKeeps(cfg: Config, d: Durable, c: Commit)
    requires Inv(cfg, d) && Enabled(cfg, d, c)
    ensures Inv(cfg, Apply(cfg, d, c))
  {
    match c
    case Create =>
    case Begin => KeepBegin(cfg, d);
    case Log(e) => KeepLog(cfg, d, e);
    case Parse => KeepParse(cfg, d);
    case Recover => KeepRecover(cfg, d);
    case Record(call, exec) => KeepRecord(cfg, d, call, exec);
    case Send(call) => KeepSend(cfg, d, call);
    case EndBatch => KeepEndBatch(cfg, d);
    case Finish(reason) => KeepFinish(cfg, d, reason);
  }
}
