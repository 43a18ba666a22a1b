// The agent loop: whatever the model, the tools and the host do, and wherever
// the process is killed, the store's history stays one the protocol allows.
module Runtime {
  import opened Events
  import opened Protocol
  import opened Invariant
  import opened History
  import opened Database
  import opened Guard
  import opened Tokenizer
  import opened Window
  import opened Memory
  import opened Resume
  import opened Workspace
  import opened Validator
  import opened Checking
  import opened Ending
  import opened ToolBatch

  // ----- the batch of a step, seen from the loop -----

  lemma PendingExecutes(cfg: Config, d: Durable)
    requires Inv(cfg, d) && Live(d.row) && d.row.pending != [] && d.row.step < cfg.maxSteps && !NoProgress(cfg, d.log)
    ensures Executing(cfg, d)
  {
  }

  lemma BatchEnds(cfg: Config, d: Durable)
    requires Executing(cfg, d) && AllStarted(d.log, d.row.step, d.row.pending)
    requires AllExecuted(d.execs, d.row.pending) && AllResulted(d.log, d.row.step, d.row.pending)
    ensures Enabled(cfg, d, EndBatch) && Apply(cfg, d, EndBatch) == d.(row := Row(CallingLlm, d.row.step, []))
  {
  }

  lemma Recovers(cfg: Config, d: Durable)
    requires CanRecover(cfg, d)
    ensures Enabled(cfg, d, Recover)
    ensures Apply(cfg, d, Recover) == d.(row := Row(RunningTools, d.row.step, RecoverCalls(d.log, d.row.step)))
  {
  }

  lemma Begins(cfg: Config, d: Durable)
    requires Inv(cfg, d) && CanBegin(cfg, d)
    ensures Enabled(cfg, d, Begin)
    ensures Apply(cfg, d, Begin) == d.(row := Row(CallingLlm, NextStep(d.row, d.log), []))
    ensures AwaitingModel(Begun(d)) && Latest(d.log, KResponse, NextStep(d.row, d.log)).None?
    ensures NextStep(d.row, d.log) == if d.row.status == CallingLlm && d.row.step > 0 && Latest(d.log, KResponse, d.row.step).None?
      then d.row.step else d.row.step + 1
  {
    if NextStep(d.row, d.log) != d.row.step { FutureEmpty(cfg, d, KResponse); }
  }

  // ----- charging -----

  lemma ChargeAllowed(cfg: Config, d: Durable, r: Response, cost: nat)
    requires Inv(cfg, d) && Hearing(d, d.row.step, r) && Voiced(d.log, d.row.step, r) && Latest(d.log, KCharge, d.row.step).None?
    ensures MayLog(cfg, d, Charged(d.row.step, cost, CostSoFar(d.log) + cost))
  {
    hide Voiced;
  }

  lemma ChargedNext(d: Durable, r: Response, cost: nat, total: nat)
    requires Hearing(d, d.row.step, r) && Latest(d.log, KCharge, d.row.step).None?
    ensures var d' := Logging(d, Charged(d.row.step, cost, total));
      && d'.log == d.log + [Charged(d.row.step, cost, total)] && Latest(d'.log, KCharge, d.row.step) == Some(Charged(d.row.step, cost, total)) && CostSoFar(d'.log) == total
      && Responding(d') && Latest(d'.log, KResponse, d.row.step).value.response == r
  {
    var e := Charged(d.row.step, cost, total);
    SlotTaken(d.log, KCharge, d.row.step);
    LatestAppend(d.log, e, KCharge, d.row.step);
    LatestProgressAppend(d.log, e);
    OtherKind(d.log, e, KResponse, d.row.step);
    OtherKind(d.log, e, KParsed, d.row.step);
  }

  // Heard and paid for.
  ghost predicate Ready(cfg: Config, d: Durable, r: Response) {
    Responding(d) && Latest(d.log, KResponse, d.row.step).value.response == r && Paid(cfg, d.log, d.row.step)
  }

  // ----- looking things up in the log -----

  method EventPayload(events: seq<Event>, kind: Kind, step: nat) returns (r: Option<Event>)
    ensures r == Latest(events, kind, step)
  {
    var i := |events|;
    assert events[..i] == events;
    while i > 0
      invariant i <= |events| && Latest(events[..i], kind, step) == Latest(events, kind, step)
    {
      i := i - 1;
      assert events[..i + 1][..i] == events[..i];
      if KindOf(events[i]) == kind && events[i].step == step {
        return Some(events[i]);
      }
    }
    r := None;
  }

  method CostSoFarOf(events: seq<Event>) returns (total: nat)
    ensures total == CostSoFar(events)
  {
    total := 0;
    for i := 0 to |events|
      invariant total == CostSoFar(events[..i])
    {
      assert events[..i + 1][..i] == events[..i];
      if events[i].Charged? { total := events[i].total; }
    }
    assert events[..|events|] == events;
  }

  // The latest progress check, of any step or of an earlier one.
  method LatestProgressCheck(events: seq<Event>, before: Option<nat>) returns (r: Option<Event>)
    ensures r == if before.None? then LatestProgress(events) else LatestProgressBefore(events, before.value)
  {
    var i := |events|;
    assert events[..i] == events;
    while i > 0
      invariant i <= |events|
      invariant before.None? ==> LatestProgress(events[..i]) == LatestProgress(events)
      invariant before.Some? ==> LatestProgressBefore(events[..i], before.value) == LatestProgressBefore(events, before.value)
    {
      i := i - 1;
      assert events[..i + 1][..i] == events[..i];
      if events[i].ProgressCheck? && (before.None? || events[i].step < before.value) {
        return Some(events[i]);
      }
    }
    r := None;
  }

  // The keys that have a result at the step.
  method ResultKeys(events: seq<Event>, step: nat) returns (completed: set<Key>)
    ensures completed == CompletedKeys(events, step)
  {
    completed := {};
    for i := 0 to |events|
      invariant completed == CompletedKeys(events[..i], step)
    {
      assert events[..i + 1] == events[..i] + [events[i]];
      CompletedAppend(events[..i], events[i], step);
      if events[i].Result? && events[i].step == step { completed := completed + {events[i].outcome.key}; }
    }
    assert events[..|events|] == events;
  }

  lemma AnsweredKeys(events: seq<Event>, step: nat)
    ensures forall k :: k in CompletedKeys(events, step) <==>
      exists e :: e in events && e.Result? && e.step == step && e.outcome.key == k
  {
    forall e | e in events && e.Result? && e.step == step ensures e.outcome.key in CompletedKeys(events, step) {
      var i :| 0 <= i < |events| && events[i] == e;
    }
  }

  // A call is left to recover if its batch has it and no result event of the
  // step is for it.
  lemma RecoveredAre(events: seq<Event>, step: nat, c: Call)
    ensures c in RecoverCalls(events, step) <==>
      && Latest(events, KParsed, step).Some? && c in Latest(events, KParsed, step).value.calls
      && forall e :: e in events && e.Result? && e.step == step ==> e.outcome.key != KeyOf(c)
  {
    AnsweredKeys(events, step);
    hide CompletedKeys, Latest, Missing, KeyOf;
    if Latest(events, KParsed, step).Some? {
      MissingMembers(Latest(events, KParsed, step).value.calls, CompletedKeys(events, step));
    }
  }

  // The calls of the step's parsed batch without a result at the step.
  method RecoverPendingToolCalls(events: seq<Event>, step: nat) returns (calls: seq<Call>)
    ensures calls == RecoverCalls(events, step)
  {
    hide CompletedKeys;
    var parsed := EventPayload(events, KParsed, step);
    if parsed.None? {
      return [];
    }
    var completed := ResultKeys(events, step);
    calls := [];
    for i := 0 to |parsed.value.calls|
      invariant calls + Missing(parsed.value.calls[i..], completed) == Missing(parsed.value.calls, completed)
    {
      if KeyOf(parsed.value.calls[i]) !in completed { calls := calls + [parsed.value.calls[i]]; }
    }
  }

  method RecordedResponseToProcess(events: seq<Event>, step: nat) returns (r: Option<Response>)
    ensures r == ResponseToProcess(events, step)
  {
    if step == 0 {
      return None;
    }
    var response := EventPayload(events, KResponse, step);
    if response.None? {
      return None;
    }
    var parsed := EventPayload(events, KParsed, step);
    var finished := EventPayload(events, KFinish, step);
    r := if parsed.Some? || finished.Some? then None else Some(response.value.response);
  }

  // ----- how far a run is from its end -----

  // Two rounds for each step that is left: one for its turn, one for its batch.
  function Measure(cfg: Config, d: Durable): int {
    2 * (cfg.maxSteps - d.row.step) +
    if d.row.pending != [] then 1 else if d.row.step > 0 && Latest(d.log, KParsed, d.row.step).None? then 2 else 0
  }

  // The transactions that a response accounts for: those of its turn, and for
  // each call its start, its execution as a read, a write or an email, and its
  // result with the correction of its row.
  function Effort(r: Response): nat { 10 + |r.errors| + 6 * |r.calls| }

  function Work(log: seq<Event>): nat {
    if log == [] then 0
    else
      var last := log[|log| - 1];
      Work(log[..|log| - 1]) + if last.Responded? then Effort(last.response) else 0
  }

  // What the current step may still take of this.
  function Reserve(d: Durable): nat {
    if d.row.pending != [] then 6 * |d.row.pending| + 1
    else
      var r := ResponseToProcess(d.log, d.row.step);
      if r.Some? then Effort(r.value) else 0
  }

  lemma {:induction false} WorkGrows(log: seq<Event>, log': seq<Event>, t: nat)
    requires log <= log'
    ensures Work(log) <= Work(log')
    ensures Latest(log, KResponse, t).None? && Latest(log', KResponse, t).Some? ==>
      Work(log) + Effort(Latest(log', KResponse, t).value.response) <= Work(log')
  {
    if log != log' {
      var n := |log'| - 1;
      WorkGrows(log, log'[..n], t);
    }
  }

  // Pending calls that are not the whole batch of the step mean a repeated
  // email, so without one the response has accounted for them.
  lemma ReserveCovered(cfg: Config, d: Durable)
    requires Inv(cfg, d) && Live(d.row) && !Repeating(d.log)
    ensures Reserve(d) <= Work(d.log)
  {
    var t := d.row.step;
    hide LogOk, StepsClosed, CostOk, ExecsOk, Latest, Work, CompletedKeys, RepeatsEmail;
    WorkGrows([], d.log, t);
    NothingLatest(t);
    if d.row.pending != [] {
      ParsedPaid(cfg, d.log, t);
      var calls := Latest(d.log, KParsed, t).value.calls;
      if d.row.pending != calls {
        assert d.row.pending[0] in d.row.pending;
        LackingIsRepeated(cfg, d, d.row.pending[0]);
      }
    }
  }

  lemma NothingLatest(t: nat)
    ensures Work([]) == 0 && Latest([], KResponse, t).None?
  {
  }

  // A batch that was executed to the end at its step and still has a call to
  // recover there: a repeated email.
  ghost predicate Stuck(cfg: Config, d: Durable) {
    Live(d.row) && d.row.step < cfg.maxSteps && !NoProgress(cfg, d.log) && RepeatsEmail(d.log, d.row.step)
    && AllExecuted(d.execs, Latest(d.log, KParsed, d.row.step).value.calls)
    && AllResulted(d.log, d.row.step, Latest(d.log, KParsed, d.row.step).value.calls)
  }

  lemma StuckRecovers(cfg: Config, d: Durable)
    requires Inv(cfg, d) && Stuck(cfg, d)
    ensures RecoverCalls(d.log, d.row.step) != [] && d.row.step > 0
  {
    RepeatedLacks(cfg, d.log, d.row.step);
    hide RepeatsEmail, RecoverCalls, LogOk, NoProgress;
  }

  // Its pending calls have their rows and their results already.
  lemma StuckKnows(cfg: Config, d: Durable)
    requires Inv(cfg, d) && Stuck(cfg, d) && d.row.pending != []
    ensures AllExecuted(d.execs, d.row.pending) && AllResulted(d.log, d.row.step, d.row.pending)
  {
    var t := d.row.step;
    var calls := Latest(d.log, KParsed, t).value.calls;
    hide Inv, RepeatsEmail, NoProgress;
    if d.row.pending != calls {
      forall i | 0 <= i < |d.row.pending|
        ensures KeyOf(d.row.pending[i]) in d.execs
          && Logged(d.log, ResultKey(t, i, d.row.pending[i].tool, KeyOf(d.row.pending[i])))
      {
        LackingAnywhere(cfg, d, d.row.pending[i]);
        ExecutedIn(d.execs, calls, d.row.pending[i]);
      }
    }
  }

  lemma ExecutedIn(execs: map<Key, Exec>, calls: seq<Call>, c: Call)
    requires AllExecuted(execs, calls) && c in calls
    ensures KeyOf(c) in execs
  {
  }

  lemma LackingAnywhere(cfg: Config, d: Durable, c: Call)
    requires Inv(cfg, d) && Live(d.row) && Latest(d.log, KParsed, d.row.step).Some?
    requires var calls := Latest(d.log, KParsed, d.row.step).value.calls;
      d.row.pending != calls && AllResulted(d.log, d.row.step, calls)
    requires c in d.row.pending
    ensures c in Latest(d.log, KParsed, d.row.step).value.calls
    ensures c.tool == SendEmail && Logged(d.log, EmailResult(KeyOf(c)))
  {
    LackingIsRepeated(cfg, d, c);
  }

  // An executed batch leaves the total, shortens the rest of the run, and a
  // stuck run stuck.
  lemma AfterBatch(cfg: Config, d: Durable, d': Durable)
    requires Inv(cfg, d) && Inv(cfg, d') && d.log <= d'.log && Live(d.row) && d.row.pending != []
    requires d'.row == Row(CallingLlm, d.row.step, [])
    ensures CostSoFar(d'.log) == CostSoFar(d.log) && Measure(cfg, d') < Measure(cfg, d)
    ensures Latest(d.log, KParsed, d.row.step).Some? && Latest(d'.log, KParsed, d.row.step) == Latest(d.log, KParsed, d.row.step)
  {
    var t := d.row.step;
    ParsedPaid(cfg, d.log, t);
    hide LogOk, StepsClosed, ExecsOk;
    assert d'.log[..|d.log|] == d.log;
    LatestInPrefix(cfg, d'.log, |d.log|, KParsed, t);
    LatestInPrefix(cfg, d'.log, |d.log|, KCharge, t);
  }

  lemma StillStuck(cfg: Config, d: Durable, d': Durable)
    requires Inv(cfg, d) && Inv(cfg, d') && d.log <= d'.log && Stuck(cfg, d) && d.row.pending != []
    requires d'.row == Row(CallingLlm, d.row.step, []) && d'.execs == d.execs && !NoProgress(cfg, d'.log)
    ensures Stuck(cfg, d')
  {
    var t := d.row.step;
    var calls := Latest(d.log, KParsed, t).value.calls;
    AfterBatch(cfg, d, d');
    InvLog(cfg, d');
    hide Inv, LogOk, RepeatsEmail, NoProgress, AllExecuted, AllResulted, Latest, Logged, Measure, CostSoFar;
    RepeatsPersist(cfg, d.log, d'.log, t);
    LoggedPersists(d.log, d'.log);
    ResultsKept(d.log, d'.log, t, calls);
  }

  lemma LoggedPersists(log: seq<Event>, log': seq<Event>)
    requires log <= log'
    ensures forall k :: Logged(log, k) ==> Logged(log', k)
  {
    forall k | Logged(log, k) ensures Logged(log', k) {
      var i :| 0 <= i < |log| && EventKeyOf(log[i]) == k;
      assert log'[i] == log[i];
    }
  }

  // The log a history has reached only grows.
  lemma HistoryLog(cfg: Config, db: AgentDatabase, h: seq<Durable>)
    requires Sound(cfg, db) && h != [] && h <= db.history
    ensures h[|h| - 1].log <= db.log
  {
    PathLater(cfg, db.history, |h| - 1, |db.history| - 1);
  }

  // ----- the loop's own steps -----

  class AgentRuntime {
    const config: Config
    const db: AgentDatabase
    const workspace: HostWorkspace
    const script: Script
    const tokenBudget: Budget

    constructor (config: Config, db: AgentDatabase, workspace: HostWorkspace, script: Script, tokenBudget: Budget)
      ensures this.config == config && this.db == db && this.workspace == workspace
      ensures this.script == script && this.tokenBudget == tokenBudget
    {
      this.config, this.db, this.workspace := config, db, workspace;
      this.script, this.tokenBudget := script, tokenBudget;
    }

    // The total after a step: the recorded one, if there is one.
    function Due(log: seq<Event>, step: nat, next: nat): nat {
      if Latest(log, KCharge, step).Some? then Latest(log, KCharge, step).value.total else next
    }

    // What the request of a turn counts: as it was recorded, if its response
    // was recorded before, and as the context is now otherwise.
    function TurnTokens(d: Durable, m: Mem, budget: Budget): nat {
      if ResponseToProcess(d.log, d.row.step).Some? then
        if Latest(d.log, KRequest, d.row.step).Some? then Latest(d.log, KRequest, d.row.step).value.tokens else 0
      else TotalTokens(After(m, Context, budget).messages)
    }

    // The memory a turn starts with: a fresh turn builds its context first.
    function TurnMemory(d: Durable, m: Mem, budget: Budget): Mem {
      if ResponseToProcess(d.log, d.row.step).Some? then m else After(m, Context, budget)
    }

    // What a turn brings the total to.
    function TurnTotal(d: Durable, m: Mem, budget: Budget, r: Response): nat {
      var next := CostSoFar(d.log) + TurnTokens(d, m, budget) + r.tokens;
      if ResponseToProcess(d.log, d.row.step).Some? then Due(d.log, d.row.step, next) else next
    }

    // A step is charged once; a resumed step goes on with the recorded total.
    method ChargeBudget(step: nat, r: Response, tokens: nat, totalCost: nat) returns (o: Outcome, total: nat)
      requires Sound(config, db) && Hearing(db.State(), step, r) && Voiced(db.log, step, r) && totalCost == CostSoFar(db.log)
      modifies db
      ensures Sound(config, db) && Onward(db, o) && |db.history| <= |old(db.history)| + 1
      ensures Latest(db.log, KResponse, step) == Latest(old(db.log), KResponse, step)
      ensures SameMarks(old(db.log), db.log) && (o.Raised? ==> o.message == OVER_BUDGET && Overspent(config, db.State()))
      ensures db.row == old(db.row) && db.execs == old(db.execs) && db.emails == old(db.emails)
      ensures Recall(script, db.log) == Recall(script, old(db.log))
      ensures o.Ok? ==> Ready(config, db.State(), r) && total == CostSoFar(db.log)
      ensures o.Ok? ==> total == Due(old(db.log), step, totalCost + tokens + r.tokens)
      ensures !o.Killed? ==> (o.Ok? <==> Due(old(db.log), step, totalCost + tokens + r.tokens) <= config.costBudget)
      ensures !o.Killed? ==>
        db.log == old(db.log) + if Latest(old(db.log), KCharge, step).Some? then []
                                else [Charged(step, tokens + r.tokens, totalCost + tokens + r.tokens)]
      ensures !o.Killed? ==> Wordless(script, old(db.log), db.log)
    {
      hide Wordless, Checks, Announced, Path, Inv, Insert, MayLog, Recall, Voiced, CostSoFar;
      SoundInv(config, db);
      WordlessNone(script, db.log);
      total := totalCost;
      var existing := EventPayload(db.log, KCharge, step);
      if existing.Some? {
        ChargeKnown(config, db.State());
        if existing.value.total > config.costBudget {
          return Raised(OVER_BUDGET), total;
        }
        return Ok, existing.value.total;
      }
      o := RecordCharge(step, r, tokens + r.tokens, totalCost + tokens + r.tokens);
      if o.Ok? {
        if totalCost + tokens + r.tokens > config.costBudget {
          return Raised(OVER_BUDGET), total;
        }
        total := totalCost + tokens + r.tokens;
      }
    }

    method RecordCharge(step: nat, r: Response, cost: nat, nextTotal: nat) returns (o: Outcome)
      requires Sound(config, db) && Hearing(db.State(), step, r) && Voiced(db.log, step, r)
      requires nextTotal == CostSoFar(db.log) + cost && Latest(db.log, KCharge, step).None?
      modifies db
      ensures Sound(config, db) && Onward(db, o) && !o.Raised? && |db.history| <= |old(db.history)| + 1
      ensures Latest(db.log, KResponse, step) == Latest(old(db.log), KResponse, step)
      ensures SameMarks(old(db.log), db.log) && Recall(script, db.log) == Recall(script, old(db.log))
      ensures db.row == old(db.row) && db.execs == old(db.execs) && db.emails == old(db.emails)
      ensures o.Ok? ==> db.log == old(db.log) + [Charged(step, cost, nextTotal)] && CostSoFar(db.log) == nextTotal
      ensures o.Ok? ==> Responding(db.State()) && Latest(db.log, KResponse, step).value.response == r
      ensures o.Ok? ==> Latest(db.log, KCharge, step) == Some(Charged(step, cost, nextTotal))
      ensures !o.Killed? ==> Wordless(script, old(db.log), db.log)
    {
      hide Wordless, Checks, Announced, Path, Inv, Insert, MayLog, Recall, Voiced, CostSoFar, Latest;
      ghost var e := Charged(step, cost, nextTotal);
      SoundInv(config, db);
      WordlessNone(script, db.log);
      ChargeAllowed(config, db.State(), r, cost);
      ChargedNext(db.State(), r, cost, nextTotal);
      OtherKind(db.log, e, KResponse, step);
      RecallSame(db.log, e);
      MarksKept(db.log, e);
      WordlessOne(script, db.log, db.log, e);
      var inserted;
      o, inserted := Append(config, db, Charged(step, cost, nextTotal));
    }

    lemma ChargeKnown(cfg: Config, d: Durable)
      requires Inv(cfg, d) && Responding(d) && Latest(d.log, KCharge, d.row.step).Some?
      ensures CostSoFar(d.log) == Latest(d.log, KCharge, d.row.step).value.total
    {
    }

    lemma RecallSame(log: seq<Event>, e: Event)
      requires OpOf(script, e).None? && EventKeyOf(e) != NoKey
      ensures Recall(script, Insert(log, e)) == Recall(script, log)
    {
      InsertKeeps(log, e);
      RecallAppend(script, log, e);
    }

    // The batch was parsed just now: none of its calls has started.
    ghost predicate JustParsed(d: Durable, calls: seq<Call>) {
      d.row.status == RunningTools && d.row.pending == calls && calls != [] && d.row.step > 0
      && Latest(d.log, KParsed, d.row.step).Some? && Latest(d.log, KParsed, d.row.step).value.calls == calls
      && forall i :: 0 <= i < |d.log| && d.log[i].step == d.row.step ==> !d.log[i].Started? && !d.log[i].ProgressCheck?
    }

    lemma ParsedNext(cfg: Config, d: Durable)
      requires Inv(cfg, d) && CanParse(cfg, d)
      ensures JustParsed(Parsing(d), Latest(d.log, KResponse, d.row.step).value.response.calls)
      ensures Parsing(d).row.step == d.row.step && Parsing(d).log == d.log + [Parsed(d.row.step, Parsing(d).row.pending)]
    {
      hide LogOk, StepsClosed, RowOk, CostOk, ExecsOk, Paid, Latest, Insert;
      NoneStarted(cfg, d.log, d.row.step);
      ParsedLog(d, Latest(d.log, KResponse, d.row.step).value.response.calls);
    }

    lemma ParsedLog(d: Durable, calls: seq<Call>)
      requires Latest(d.log, KParsed, d.row.step).None?
      ensures var log := Insert(d.log, Parsed(d.row.step, calls));
        log == d.log + [Parsed(d.row.step, calls)] && Latest(log, KParsed, d.row.step) == Some(Parsed(d.row.step, calls))
    {
      SlotTaken(d.log, KParsed, d.row.step);
      LatestAppend(d.log, Parsed(d.row.step, calls), KParsed, d.row.step);
    }

    lemma CheckAllowed(cfg: Config, d: Durable, calls: seq<Call>)
      requires JustParsed(d, calls)
      ensures MayLog(cfg, d, ProgressCheck(d.row.step, DigestOf(calls), Repeats(d.log, d.row.step, DigestOf(calls))))
    {
    }

    lemma CheckedNext(cfg: Config, d: Durable, calls: seq<Call>, e: Event)
      requires JustParsed(d, calls) && e.ProgressCheck? && e.step == d.row.step
      ensures Logging(d, e).log == d.log + [e] && CostSoFar(d.log + [e]) == CostSoFar(d.log)
      ensures NoProgress(cfg, d.log + [e]) <==> e.repeats >= cfg.progressLimit
      ensures Latest(d.log + [e], KParsed, d.row.step) == Latest(d.log, KParsed, d.row.step)
    {
      hide LatestProgress, CostSoFar, Latest;
      assert !Logged(d.log, EventKeyOf(e));
      LatestProgressAppend(d.log, e);
      LatestAppend(d.log, e, KParsed, d.row.step);
    }

    lemma ParsedHere(d: Durable, calls: seq<Call>)
      requires JustParsed(d, calls)
      ensures d.row.step > 0 && Latest(d.log, KParsed, d.row.step).Some?
    {
    }

    // The count of equal batches in a row is recorded before the batch starts.
    method CheckProgress(step: nat, calls: seq<Call>) returns (o: Outcome)
      requires Sound(config, db) && JustParsed(db.State(), calls) && db.row.step == step
      modifies db
      ensures Sound(config, db) && Onward(db, o) && |db.history| <= |old(db.history)| + 1
      ensures Latest(db.log, KResponse, step) == Latest(old(db.log), KResponse, step)
      ensures db.row == old(db.row) && db.execs == old(db.execs) && db.emails == old(db.emails)
      ensures Recall(script, db.log) == Recall(script, old(db.log)) && CostSoFar(db.log) == CostSoFar(old(db.log))
      ensures o.Ok? ==> Latest(db.log, KParsed, step).Some?
      ensures (o.Killed? ==> db.log == old(db.log)) && (o.Raised? ==> o.message == NO_PROGRESS)
      ensures !o.Killed? ==>
        db.log == old(db.log) + [ProgressCheck(step, DigestOf(calls), Repeats(old(db.log), step, DigestOf(calls)))]
      ensures !o.Killed? ==> (o.Ok? <==> !NoProgress(config, db.log))
      ensures !o.Killed? ==> Wordless(script, old(db.log), db.log)
    {
      hide Wordless, Path, Inv, MayLog, Recall, CostSoFar, Insert, Latest, JustParsed, LatestProgress, LatestProgressBefore, DigestOf, Logged;
      ParsedHere(db.State(), calls);
      var digest := DigestOf(calls);
      var repeats := 1;
      var previous := LatestProgressCheck(db.log, Some(step));
      if previous.Some? && previous.value.digest == digest {
        repeats := if previous.value.repeats > 0 then previous.value.repeats + 1 else 1;
      }
      var e := ProgressCheck(step, digest, repeats);
      CheckAllowed(config, db.State(), calls);
      CheckedNext(config, db.State(), calls, e);
      RecallSame(db.log, e);
      OtherKind(db.log, e, KResponse, step);
      WordlessNone(script, db.log);
      WordlessOne(script, db.log, db.log, e);
      var inserted :- Append(config, db, e);
      o := if repeats >= config.progressLimit then Raised(NO_PROGRESS) else Ok;
    }

    // ----- one turn -----

    // The loop's variables agree with the row, and the memory with the log.
    ghost predicate Alive(step: nat, pending: seq<Call>, memory: MemoryManager)
      reads db, memory, memory.window
    {
      Sound(config, db) && Live(db.row) && db.row.step == step && db.row.pending == pending
      && Remembers(script, memory.Value(), db.log)
    }

    lemma AcceptedParses(cfg: Config, d: Durable, r: Response)
      requires Ready(cfg, d, r) && !r.Incomplete() && r.calls != []
      ensures CanParse(cfg, d)
    {
    }

    lemma PartialAllowed(cfg: Config, d: Durable, r: Response)
      requires Ready(cfg, d, r) && r.Incomplete()
      ensures MayLog(cfg, d, PartialTurn(d.row.step)) && Live(d.row) && d.row.step > 0
    {
    }

    lemma ContradictionAllowed(cfg: Config, d: Durable, r: Response)
      requires Ready(cfg, d, r) && !r.Incomplete() && r.calls == []
      ensures MayLog(cfg, d, Contradicted(d.row.step)) && CanFinish(cfg, d, Completed)
      ensures Live(d.row) && d.row.step > 0
    {
    }

    // What follows a recorded and charged response: a cut-off turn and a
    // contradicted claim raise, a plain answer ends the run, calls are parsed
    // and checked for progress.
    method Respond(step: nat, r: Response, memory: MemoryManager) returns (o: Outcome, finished: bool)
      requires Alive(step, [], memory) && Ready(config, db.State(), r)
      requires !NoProgress(config, db.log)
      modifies db
      ensures Sound(config, db) && Onward(db, o) && |db.history| <= |old(db.history)| + 2
      ensures Latest(db.log, KResponse, step) == Latest(old(db.log), KResponse, step)
      ensures ChecksOnly(old(db.log), db.log, step)
      ensures o.Raised? ==> Explained(config, db.State(), Error(o.message))
      ensures o.Raised? ==> Live(db.row) && db.row.step == step > 0
      ensures o.Ok? ==> !(r.partial && (r.expected.None? || |r.calls| < r.expected.value)) && (finished <==> r.calls == [])
      ensures o.Ok? && finished ==> db.row.status == Done && Concluded(config, db.history)
      ensures o.Ok? && !finished ==> Alive(step, r.calls, memory) && Dispatched(step, r.calls, CostSoFar(old(db.log)))
      ensures o.Ok? ==> |db.history| > |old(db.history)|
      ensures !o.Killed? ==> Wordless(script, old(db.log), db.log)
    {
      hide Wordless, ChecksOnly, Explained, Concluded, NoProgress, Sound, Ready, Dispatched, Remembers, CostSoFar, Latest;
      finished := false;
      if r.Incomplete() {
        o := Refuse(step, r);
      } else if r.calls == [] {
        o := Answer(step, r);
        finished := o.Ok?;
      } else {
        o := Dispatch(step, r, memory);
      }
    }

    // The batch of the step is parsed and checked.
    ghost predicate Dispatched(step: nat, calls: seq<Call>, cost: nat)
      reads db
    {
      !NoProgress(config, db.log) && CostSoFar(db.log) == cost && Latest(db.log, KParsed, step).Some?
      && HasCheck(db.log, step) && LatestProgress(db.log).Some?
      && LatestProgress(db.log).value.step == step && LatestProgress(db.log).value.digest == DigestOf(calls)
    }

    // No start is logged, and no check but one of this step.
    ghost predicate ChecksOnly(log: seq<Event>, log': seq<Event>, step: nat) {
      Announced(log') == Announced(log)
      && (Checks(log') == Checks(log) || exists c :: Checks(log') == Checks(log) + [c] && c.step == step)
    }

    lemma RefusedNext(cfg: Config, d: Durable, r: Response)
      requires Ready(cfg, d, r) && r.Incomplete()
      ensures CutOff(cfg, Logging(d, PartialTurn(d.row.step)))
    {
      hide Latest, Insert;
      var e := PartialTurn(d.row.step);
      OtherKind(d.log, e, KResponse, d.row.step);
      OtherKind(d.log, e, KCharge, d.row.step);
      OtherKind(d.log, e, KParsed, d.row.step);
    }

    lemma AnsweredNext(cfg: Config, d: Durable, r: Response)
      requires Ready(cfg, d, r) && !r.Incomplete() && r.calls == []
      ensures PlainAnswer(cfg, d)
      ensures var d' := Logging(d, Contradicted(d.row.step));
        PlainAnswer(cfg, d') && Logged(d'.log, EventKeyOf(Contradicted(d.row.step)))
    {
      hide Latest, Insert, Logged;
      var e := Contradicted(d.row.step);
      InsertKeeps(d.log, e);
      OtherKind(d.log, e, KResponse, d.row.step);
      OtherKind(d.log, e, KCharge, d.row.step);
      OtherKind(d.log, e, KParsed, d.row.step);
    }

    lemma CompletedExplained(cfg: Config, d: Durable)
      requires Live(d.row) && d.row.step > 0 && PlainAnswer(cfg, d)
      ensures Explained(cfg, d, Completed)
    {
      hide PlainAnswer;
    }

    method Refuse(step: nat, r: Response) returns (o: Outcome)
      requires Sound(config, db) && Ready(config, db.State(), r) && r.Incomplete() && db.row.step == step
      requires !NoProgress(config, db.log)
      modifies db
      ensures Sound(config, db) && Onward(db, o) && !o.Ok? && |db.history| <= |old(db.history)| + 2
      ensures Latest(db.log, KResponse, step) == Latest(old(db.log), KResponse, step)
      ensures ChecksOnly(old(db.log), db.log, step)
      ensures o.Raised? ==> Explained(config, db.State(), Error(o.message))
      ensures o.Raised? ==> Live(db.row) && db.row.step == step > 0
      ensures !o.Killed? ==> Wordless(script, old(db.log), db.log)
    {
      hide Wordless, Checks, Announced, NoProgress, Explained, CutOff, Path, Inv, MayLog, Insert, Ready, Latest;
      PartialAllowed(config, db.State(), r);
      RefusedNext(config, db.State(), r);
      MarksKept(db.log, PartialTurn(step));
      WordlessNone(script, db.log);
      WordlessOne(script, db.log, db.log, PartialTurn(step));
      SameProgress(config, db.log, Insert(db.log, PartialTurn(step)));
      OtherKind(db.log, PartialTurn(step), KResponse, step);
      var inserted :- Append(config, db, PartialTurn(step));
      PartialExplained(config, db.State());
      o := Raised(PARTIAL_TURN);
    }

    method Answer(step: nat, r: Response) returns (o: Outcome)
      requires Sound(config, db) && Ready(config, db.State(), r) && !r.Incomplete() && r.calls == [] && db.row.step == step
      requires !NoProgress(config, db.log)
      modifies db
      ensures Sound(config, db) && Onward(db, o) && |db.history| <= |old(db.history)| + 2
      ensures Latest(db.log, KResponse, step) == Latest(old(db.log), KResponse, step)
      ensures ChecksOnly(old(db.log), db.log, step)
      ensures o.Raised? ==> Explained(config, db.State(), Error(o.message))
      ensures o.Ok? ==> db.row.status == Done && Concluded(config, db.history) && |db.history| > |old(db.history)|
      ensures o.Raised? ==> Live(db.row) && db.row.step == step > 0
      ensures !o.Killed? ==> Wordless(script, old(db.log), db.log)
    {
      hide Wordless, Checks, Announced, NoProgress, Explained, PlainAnswer, Concluded, Path, Inv, MayLog, Insert, Ready, CanFinish, Latest;
      ContradictionAllowed(config, db.State(), r);
      AnsweredNext(config, db.State(), r);
      MarksKept(db.log, Contradicted(step));
      WordlessNone(script, db.log);
      WordlessOne(script, db.log, db.log, Contradicted(step));
      WordlessOne(script, db.log, db.log, Finished(step, Completed));
      SameProgress(config, db.log, Insert(db.log, Contradicted(step)));
      MarksKept(db.log, Finished(step, Completed));
      OtherKind(db.log, Contradicted(step), KResponse, step);
      OtherKind(db.log, Finished(step, Completed), KResponse, step);
      var contradicted: bool := *;
      if contradicted {
        var inserted :- Append(config, db, Contradicted(step));
        ContradictionExplained(config, db.State());
        return Raised(CONTRADICTION);
      }
      CompletedExplained(config, db.State());
      ghost var h := db.history;
      o := Guard.Finish(config, db, Completed, step);
      if o.Ok? { Concludes(config, h, db.history, Completed); }
    }

    method Dispatch(step: nat, r: Response, memory: MemoryManager) returns (o: Outcome)
      requires Alive(step, [], memory) && Ready(config, db.State(), r) && !r.Incomplete() && r.calls != []
      requires !NoProgress(config, db.log)
      modifies db
      ensures Sound(config, db) && Onward(db, o) && |db.history| <= |old(db.history)| + 2
      ensures Latest(db.log, KResponse, step) == Latest(old(db.log), KResponse, step)
      ensures ChecksOnly(old(db.log), db.log, step)
      ensures o.Raised? ==> Explained(config, db.State(), Error(o.message))
      ensures o.Raised? ==> Live(db.row) && db.row.step == step > 0
      ensures o.Ok? ==> Alive(step, r.calls, memory) && Dispatched(step, r.calls, CostSoFar(old(db.log)))
      ensures o.Ok? ==> |db.history| > |old(db.history)|
      ensures !o.Killed? ==> Wordless(script, old(db.log), db.log)
    {
      hide Wordless, Checks, Announced, Explained, HasCheck, DigestOf, Path, Inv, Recall, CostSoFar, Insert, Paid, Latest, CanParse, NoProgress;
      AcceptedParses(config, db.State(), r);
      SoundInv(config, db);
      ParsedNext(config, db.State());
      ParseSilent(db.State(), r.calls);
      ReadyCalls(config, db.State(), r);
      LatestAppend(db.log, Parsed(step, r.calls), KResponse, step);
      MarksKept(db.log, Parsed(step, r.calls));
      WordlessNone(script, db.log);
      WordlessOne(script, db.log, db.log, Parsed(step, r.calls));
      ghost var log := db.log;
      :- ParseBatch(config, db, r.calls);
      assert db.log == log + [Parsed(step, r.calls)];
      ghost var log1 := db.log;
      o := CheckProgress(step, r.calls);
      if !o.Killed? { CheckedLog(log, log1, db.log, step, r.calls); WordlessOn(script, log, log1, db.log); }
      if o.Raised? { SoundInv(config, db); NoProgressExplained(config, db.State()); }
    }

    lemma CheckedLog(log: seq<Event>, log1: seq<Event>, log': seq<Event>, step: nat, calls: seq<Call>)
      requires SameMarks(log, log1) && log' == log1 + [ProgressCheck(step, DigestOf(calls), Repeats(log1, step, DigestOf(calls)))]
      ensures Announced(log') == Announced(log) && Checks(log') == Checks(log) + [log'[|log1|]] && HasCheck(log', step)
      ensures LatestProgress(log') == Some(log'[|log1|])
    {
      hide Checks, Announced, LatestProgress, DigestOf, Repeats;
      MarksAppend(log1, log'[|log1|]);
      LatestProgressAppend(log1, log'[|log1|]);
      assert Checks(log')[|Checks(log)|].step == step;
    }

    lemma ReadyCalls(cfg: Config, d: Durable, r: Response)
      requires Ready(cfg, d, r)
      ensures Responding(d) && Latest(d.log, KResponse, d.row.step).Some? && Latest(d.log, KResponse, d.row.step).value.response == r
    {
    }

    lemma ParseSilent(d: Durable, calls: seq<Call>)
      ensures Recall(script, d.log + [Parsed(d.row.step, calls)]) == Recall(script, d.log)
      ensures CostSoFar(d.log + [Parsed(d.row.step, calls)]) == CostSoFar(d.log)
    {
      RecallAppend(script, d.log, Parsed(d.row.step, calls));
      LatestProgressAppend(d.log, Parsed(d.row.step, calls));
    }

    // The response to go on with: a recorded one is gone through again, and
    // only a step without one asks the model.
    method Listen(step: nat, memory: MemoryManager, totalCost: nat)
      returns (o: Outcome, step': nat, r: Response, tokens: nat)
      requires Alive(step, [], memory) && totalCost == CostSoFar(db.log)
      requires step < config.maxSteps && RecoverCalls(db.log, step) == [] && !NoProgress(config, db.log)
      modifies db, memory, memory.window
      ensures Sound(config, db) && Onward(db, o) && Spent(db, 3, step', r) && SameMarks(old(db.log), db.log)
      ensures !o.Killed? ==> Spoke(
        script, TurnMemory(old(db.State()), old(memory.Value()), memory.window.budget), memory.Value(), old(db.log), db.log,
        memory.window.budget)
      ensures o.Raised? ==> Latest(db.log, KCharge, step').None? && IsOutside(o.message)
      ensures if ResponseToProcess(old(db.log), step).Some? then step' == step else Latest(old(db.log), KResponse, step').None?
      ensures o.Raised? ==> Live(db.row) && db.row.step == step' > 0
      ensures o.Ok? ==> Alive(step', [], memory) && Hearing(db.State(), step', r) && Voiced(db.log, step', r)
      ensures o.Ok? ==> CostSoFar(db.log) == totalCost && step' == TurnStep(old(db.State()))
      ensures o.Ok? ==> tokens == TurnTokens(old(db.State()), old(memory.Value()), memory.window.budget)
      ensures o.Ok? && ResponseToProcess(old(db.log), step).Some? ==>
        step' == step && Latest(db.log, KCharge, step) == Latest(old(db.log), KCharge, step)
      ensures o.Ok? && ResponseToProcess(old(db.log), step).None? ==> Latest(db.log, KCharge, step').None?
    {
      hide Spoke, Checks, Announced, IsOutside, Path, Inv, MayLog, Insert, Voiced, Recall, CostSoFar, LogOk, RecoverCalls, After, TotalTokens;
      SoundInv(config, db);
      step', tokens, r := step, 0, Response("", [], [], false, None, 0);
      var validator := new AgentValidator(config, db, script);
      var recorded := RecordedResponseToProcess(db.log, step);
      if recorded.Some? {
        r := recorded.value;
        RecordedHears(config, db.State());
        var request := EventPayload(db.log, KRequest, step);
        tokens := if request.Some? && request.value.Request? then request.value.tokens else 0;
        o := validator.RecordParsedResponse(step, memory, r);
      } else {
        o, step', r, tokens := Ask(step, memory, totalCost, validator);
      }
    }

    // The step at which the next turn happens.
    function TurnStep(d: Durable): nat {
      if d.row.step > 0 && Latest(d.log, KParsed, d.row.step).None? then d.row.step else d.row.step + 1
    }

    lemma RecordedHears(cfg: Config, d: Durable)
      requires Inv(cfg, d) && Live(d.row) && d.row.pending == [] && ResponseToProcess(d.log, d.row.step).Some?
      ensures Hearing(d, d.row.step, ResponseToProcess(d.log, d.row.step).value) && TurnStep(d) == d.row.step
    {
      RespondingHears(cfg, d);
    }

    lemma BeginStep(cfg: Config, d: Durable)
      requires Inv(cfg, d) && CanBegin(cfg, d)
      ensures NextStep(d.row, d.log) == TurnStep(d)
    {
      var t := d.row.step;
      if Latest(d.log, KParsed, t).Some? { ParsedPaid(cfg, d.log, t); }
      assert Latest(d.log, KFinish, t).None?;
    }

    method Ask(step: nat, memory: MemoryManager, totalCost: nat, validator: AgentValidator)
      returns (o: Outcome, step': nat, r: Response, tokens: nat)
      requires validator.config == config && validator.db == db && validator.script == script
      requires Alive(step, [], memory) && totalCost == CostSoFar(db.log) && CanBegin(config, db.State())
      modifies db, memory, memory.window
      ensures Sound(config, db) && Onward(db, o) && Spent(db, 3, step', r) && SameMarks(old(db.log), db.log)
      ensures !o.Killed? ==> Spoke(
        script, After(old(memory.Value()), Context, memory.window.budget), memory.Value(), old(db.log), db.log, memory.window.budget)
      ensures o.Raised? ==> Latest(db.log, KCharge, step').None? && IsOutside(o.message)
      ensures Latest(old(db.log), KResponse, step').None?
      ensures o.Raised? ==> Live(db.row) && db.row.step == step' > 0
      ensures o.Ok? ==> Alive(step', [], memory) && Hearing(db.State(), step', r) && Voiced(db.log, step', r)
      ensures o.Ok? ==> CostSoFar(db.log) == totalCost && step' == TurnStep(old(db.State()))
      ensures o.Ok? ==> tokens == TotalTokens(After(old(memory.Value()), Context, memory.window.budget).messages)
      ensures o.Ok? ==> Latest(db.log, KCharge, step').None?
    {
      hide Spoke, Checks, Announced, IsOutside, Path, Inv, MayLog, Insert, Voiced, Recall, CostSoFar, CanBegin, After, TotalTokens, Apply, Enabled, AwaitingModel, Hearing, TurnStep;
      tokens, r := 0, Response("", [], [], false, None, 0);
      SoundInv(config, db);
      Begins(config, db.State());
      BeginStep(config, db.State());
      var answered := EventPayload(db.log, KResponse, step);
      step' := if db.row.status == CallingLlm && step > 0 && answered.None? then step else step + 1;
      :- Update(config, db, CallingLlm, step', None, Begin);
      o, r, tokens := StartStep(step', memory, totalCost, validator);
    }

    // The step has begun: its start is logged, and the model asked.
    method StartStep(step: nat, memory: MemoryManager, totalCost: nat, validator: AgentValidator)
      returns (o: Outcome, r: Response, tokens: nat)
      requires validator.config == config && validator.db == db && validator.script == script
      requires Sound(config, db) && AwaitingModel(db.State()) && db.row.step == step
      requires Remembers(script, memory.Value(), db.log) && totalCost == CostSoFar(db.log)
      modifies db, memory, memory.window
      ensures Sound(config, db) && Spent(db, 2, step, r) && validator.OnlyLogged(o, memory)
      ensures !o.Killed? ==> Spoke(
        script, After(old(memory.Value()), Context, memory.window.budget), memory.Value(), old(db.log), db.log, memory.window.budget)
      ensures o.Raised? ==> Latest(db.log, KCharge, step).None? && IsOutside(o.message)
      ensures o.Ok? ==> Hearing(db.State(), step, r) && Voiced(db.log, step, r)
      ensures o.Ok? ==> CostSoFar(db.log) == CostSoFar(old(db.log)) && Latest(db.log, KCharge, step).None?
      ensures o.Ok? ==> tokens == TotalTokens(After(old(memory.Value()), Context, memory.window.budget).messages)
    {
      hide Spoke, Checks, Announced, IsOutside, Path, Inv, MayLog, Insert, Voiced, Recall, CostSoFar, After, TotalTokens, AwaitingModel, Hearing, Latest;
      tokens, r := 0, Response("", [], [], false, None, 0);
      var e := StepStart(step, totalCost);
      StepStartAllowed(config, db.State(), totalCost);
      validator.SilentEvent(db.log, e, memory.Value());
      ghost var m, log := After(memory.Value(), Context, memory.window.budget), db.log;
      SpokeNothing(script, m, log, memory.window.budget);
      SpokeSilent(script, m, m, log, log, e, memory.window.budget);
      var inserted :- Append(config, db, e);
      ghost var log1 := db.log;
      o, r, tokens := validator.ValidateTurn(step, memory);
      if !o.Killed? { SpokeOn(script, m, m, memory.Value(), log, log1, db.log, memory.window.budget); }
    }

    lemma StepStartAllowed(cfg: Config, d: Durable, total: nat)
      requires AwaitingModel(d) && total == CostSoFar(d.log)
      ensures MayLog(cfg, d, StepStart(d.row.step, total)) && AwaitingModel(Logging(d, StepStart(d.row.step, total)))
    {
      OtherKind(d.log, StepStart(d.row.step, total), KResponse, d.row.step);
    }

    // The transactions a turn may make: three before it has a response, and
    // eight and one a parse error with it.
    ghost predicate Used(before: nat, after: nat, log: seq<Event>, step: nat) {
      after <= before + 3
      || (Latest(log, KResponse, step).Some? && after <= before + 8 + |Latest(log, KResponse, step).value.response.errors|)
    }

    // One round that is a turn.
    method Turn(step: nat, memory: MemoryManager, totalCost: nat)
      returns (o: Outcome, finished: bool, step': nat, pending: seq<Call>, totalCost': nat)
      requires Alive(step, [], memory) && totalCost == CostSoFar(db.log)
      requires step < config.maxSteps && RecoverCalls(db.log, step) == [] && !NoProgress(config, db.log)
      modifies db, memory, memory.window
      ensures Sound(config, db) && Onward(db, o)
      ensures o.Raised? ==> Live(db.row) && db.row.step == step' > 0
      ensures o.Ok? && finished ==> db.row.status == Done && Concluded(config, db.history)
      ensures o.Ok? && !finished ==> Alive(step', pending, memory) && totalCost' == CostSoFar(db.log)
      ensures if ResponseToProcess(old(db.log), step).Some? then step' == step else Latest(old(db.log), KResponse, step').None?
      ensures ChecksOnly(old(db.log), db.log, step')
      ensures !o.Killed? ==> Spoke(
        script, TurnMemory(old(db.State()), old(memory.Value()), memory.window.budget), memory.Value(), old(db.log), db.log,
        memory.window.budget)
      ensures o.Ok? && !finished ==> HasCheck(db.log, step')
      ensures o.Raised? ==> Explained(config, db.State(), Error(o.message))
      ensures Used(|old(db.history)|, |db.history|, db.log, step')
      ensures o.Ok? ==> Latest(db.log, KResponse, step').Some?
      ensures o.Ok? && !finished ==> pending == Latest(db.log, KResponse, step').value.response.calls != []
      ensures o.Ok? && !finished ==> totalCost' == TurnTotal(
        old(db.State()), old(memory.Value()), memory.window.budget, Latest(db.log, KResponse, step').value.response)
      ensures o.Ok? && !finished ==> Measure(config, db.State()) < Measure(config, old(db.State()))
      ensures o.Ok? ==> |db.history| > |old(db.history)| && db.row != old(db.row)
    {
      hide Spoke, Wordless, TurnMemory, Path, Inv, Voiced, Recall, Remembers, CostSoFar, NoProgress, RecoverCalls, Latest, Ready, Hearing, TurnTokens,
           ResponseToProcess, Checks, Announced, ChecksOnly, HasCheck, Explained, Concluded, Overspent, IsOutside;
      finished, pending, totalCost' := false, [], totalCost;
      var r, tokens;
      o, step', r, tokens := Listen(step, memory, totalCost);
      if Hearing(db.State(), step', r) { HearingIdle(db.State(), step', r); }
      SameProgress(config, old(db.log), db.log);
      SameChecks(old(db.log), db.log, step');
      if !o.Ok? {
        if o.Raised? { SoundInv(config, db); OutsideExplained(config, db.State(), o.message); }
        return;
      }
      ghost var log := db.log;
      o, finished, totalCost' := SettleTurn(step', r, tokens, totalCost, memory);
      if !o.Killed? {
        SpokeWordless(
          script, TurnMemory(old(db.State()), old(memory.Value()), memory.window.budget), memory.Value(), old(db.log), log, db.log,
          memory.window.budget);
      }
      pending := r.calls;
      ChecksAfter(old(db.log), log, db.log, step');
    }

    // The response is charged and acted on.
    method SettleTurn(step: nat, r: Response, tokens: nat, totalCost: nat, memory: MemoryManager)
      returns (o: Outcome, finished: bool, totalCost': nat)
      requires Alive(step, [], memory) && totalCost == CostSoFar(db.log) && !NoProgress(config, db.log)
      requires Hearing(db.State(), step, r) && Voiced(db.log, step, r)
      modifies db
      ensures Sound(config, db) && Onward(db, o) && |db.history| <= |old(db.history)| + 3
      ensures o.Raised? ==> Live(db.row) && db.row.step == step > 0 && Explained(config, db.State(), Error(o.message))
      ensures ChecksOnly(old(db.log), db.log, step)
      ensures Latest(db.log, KResponse, step) == Latest(old(db.log), KResponse, step)
      ensures o.Ok? ==> |db.history| > |old(db.history)| && (finished <==> r.calls == [])
      ensures o.Ok? && finished ==> db.row.status == Done && Concluded(config, db.history)
      ensures o.Ok? && !finished ==> Alive(step, r.calls, memory) && Dispatched(step, r.calls, totalCost')
      ensures o.Ok? ==> totalCost' == Due(old(db.log), step, totalCost + tokens + r.tokens)
      ensures !o.Killed? ==> Wordless(script, old(db.log), db.log)
    {
      hide Wordless, Path, Inv, Voiced, Recall, CostSoFar, NoProgress, Latest, Ready, Hearing, Due, Checks, Announced, ChecksOnly, HasCheck,
           Explained, Concluded, Overspent, Dispatched;
      finished := false;
      HearingIdle(db.State(), step, r);
      o, totalCost' := ChargeBudget(step, r, tokens, totalCost);
      SameProgress(config, old(db.log), db.log);
      SameChecks(old(db.log), db.log, step);
      if !o.Ok? {
        if o.Raised? { BudgetExplained(config, db.State()); }
        return;
      }
      ghost var log := db.log;
      o, finished := Respond(step, r, memory);
      ChecksAfter(old(db.log), log, db.log, step);
      if !o.Killed? { WordlessOn(script, old(db.log), log, db.log); }
    }

    lemma SameChecks(log: seq<Event>, log': seq<Event>, step: nat)
      requires SameMarks(log, log')
      ensures ChecksOnly(log, log', step)
    {
    }

    lemma ChecksAfter(log: seq<Event>, log1: seq<Event>, log': seq<Event>, step: nat)
      requires SameMarks(log, log1) && ChecksOnly(log1, log', step)
      ensures ChecksOnly(log, log', step)
    {
      hide Checks, Announced;
    }

    lemma HearingIdle(d: Durable, step: nat, r: Response)
      requires Hearing(d, step, r)
      ensures Live(d.row) && d.row.pending == [] && d.row.step == step > 0
      ensures Latest(d.log, KResponse, step).Some? && Latest(d.log, KResponse, step).value.response == r
    {
    }

    // One round that is a batch.
    method RunPending(step: nat, pending: seq<Call>, memory: MemoryManager) returns (o: Outcome)
      requires Alive(step, pending, memory) && pending != [] && step < config.maxSteps && !NoProgress(config, db.log)
      modifies db, workspace, memory, memory.window
      ensures Sound(config, db) && Onward(db, o) && |db.history| <= |old(db.history)| + 6 * |pending| + 1
      ensures o.Raised? ==> Live(db.row) && db.row.step == step > 0
      ensures Checks(db.log) == Checks(old(db.log)) && db.row.step == step
      ensures !o.Killed? ==> Spoke(script, old(memory.Value()), memory.Value(), old(db.log), db.log, memory.window.budget)
      ensures o.Raised? ==> Explained(config, db.State(), Error(o.message))
      ensures o.Ok? ==> Alive(step, [], memory) && CostSoFar(db.log) == CostSoFar(old(db.log))
      ensures o.Ok? ==> Measure(config, db.State()) < Measure(config, old(db.State()))
      ensures o.Ok? ==> |db.history| > |old(db.history)| && Latest(db.log, KParsed, step).Some?
      ensures old(Stuck(config, db.State())) ==> !o.Raised? && (o.Ok? ==> Stuck(config, db.State()))
      ensures old(Stuck(config, db.State())) && o.Ok? ==> db.State() == Again(old(db.State()), pending)
      ensures old(Stuck(config, db.State())) && o.Ok? ==> AllStarted(db.log, step, pending)
    {
      hide Spoke, Checks, Explained, Path, Inv, Remembers, CostSoFar, NoProgress, AllStarted, AllExecuted, AllResulted, Stuck, Latest, WithStarts,
           Measure;
      ghost var d, h := db.State(), db.history;
      SoundInv(config, db);
      PendingLate(config, db.State());
      o := RunBatch(step, pending, memory);
      if !o.Ok? {
        return;
      }
      BatchEnds(config, db.State());
      o := Update(config, db, CallingLlm, step, Some([]), EndBatch);
      if o.Ok? {
        SoundInv(config, db);
        HistoryLog(config, db, h);
        AfterBatch(config, d, db.State());
        if Stuck(config, d) { StillStuck(config, d, db.State()); }
      }
    }

    // The batch executor runs the pending calls.
    method RunBatch(step: nat, pending: seq<Call>, memory: MemoryManager) returns (o: Outcome)
      requires Alive(step, pending, memory) && pending != [] && step < config.maxSteps && !NoProgress(config, db.log)
      modifies db, workspace, memory, memory.window
      ensures Sound(config, db) && Onward(db, o) && |db.history| <= |old(db.history)| + 6 * |pending|
      ensures db.row == old(db.row) && Checks(db.log) == Checks(old(db.log))
      ensures !o.Killed? ==> Spoke(script, old(memory.Value()), memory.Value(), old(db.log), db.log, memory.window.budget)
      ensures o.Raised? ==> Explained(config, db.State(), Error(o.message))
      ensures o.Ok? ==> Executing(config, db.State()) && Remembers(script, memory.Value(), db.log)
      ensures o.Ok? ==> AllStarted(db.log, step, pending) && AllExecuted(db.execs, pending) && AllResulted(db.log, step, pending)
      ensures old(Stuck(config, db.State())) ==> !o.Raised?
      ensures old(Stuck(config, db.State())) && o.Ok? ==>
        db.State() == old(db.State()).(log := WithStarts(old(db.log), step, pending))
    {
      hide Spoke, Checks, Explained, IsOutside, Path, Inv, Remembers, NoProgress, AllStarted, AllExecuted, AllResulted, Stuck, BatchOutcome,
           EmailOutcome, IsTodo, Latest, WithStarts, WithResults;
      SoundInv(config, db);
      PendingExecutes(config, db.State());
      if Stuck(config, db.State()) { StuckKnows(config, db.State()); }
      ghost var d := db.State();
      var batch := new BatchExecutor(config, db, workspace, script);
      var results;
      ghost var w;
      o, results, w := batch.ExecuteToolCalls(step, pending, memory);
      if o.Raised? { BatchRaised(d, o.message); }
    }

    // The memory refused a result.
    lemma BatchRaised(d: Durable, m: string)
      requires Sound(config, db) && Executing(config, d) && Executing(config, db.State()) && db.row == d.row
      requires Checks(db.log) == Checks(d.log) && m == CONTEXT_LIMIT
      ensures Explained(config, db.State(), Error(m))
    {
      hide Checks, Inv, NoProgress, Explained, Latest;
      SoundInv(config, db);
      PendingParsed(config, db.State());
      OutsideExplained(config, db.State(), m);
    }

    // What executing a batch of a stuck run once more leaves: nothing but the
    // starts of its calls is new.
    function Again(d: Durable, calls: seq<Call>): Durable {
      d.(row := Row(CallingLlm, d.row.step, []), log := WithStarts(d.log, d.row.step, calls))
    }

    lemma PendingLate(cfg: Config, d: Durable)
      requires Inv(cfg, d) && Live(d.row) && d.row.pending != []
      ensures d.row.step > 0
    {
    }

    // ----- the loop -----

    method RaiseIfRecordedNoProgress() returns (o: Outcome)
      ensures o == if NoProgress(config, db.log) then Raised(NO_PROGRESS) else Ok
    {
      var progress := LatestProgressCheck(db.log, None);
      if progress.Some? && progress.value.repeats >= config.progressLimit {
        return Raised(NO_PROGRESS);
      }
      o := Ok;
    }

    // What a round promises the loop.
    twostate predicate Rounded(o: Outcome, finished: bool, step: nat, pending: seq<Call>, totalCost: nat, memory: MemoryManager)
      reads db, memory, memory.window
    {
      Sound(config, db) && Onward(db, o)
      && (o.Raised? ==> Live(db.row) && db.row.step == step > 0 && Explained(config, db.State(), Error(o.message)))
      && (o.Ok? ==> |db.history| > |old(db.history)|)
      && (o.Ok? && finished ==> db.row.status == Done && Concluded(config, db.history))
      && Tracked(old(db.State()), db.State(), o.Ok? && !finished)
      && (o.Ok? && !finished ==> Alive(step, pending, memory) && totalCost == CostSoFar(db.log))
      && (o.Ok? && !finished && !Repeating(db.log) ==> Measure(config, db.State()) < Measure(config, old(db.State())))
      && (o.Ok? && !Repeating(db.log) ==> db.row != old(db.row))
      && (!Repeating(db.log) ==>
            |db.history| + (if o.Ok? && !finished then Reserve(db.State()) else 0) + Work(old(db.log))
            <= |old(db.history)| + Reserve(old(db.State())) + Work(db.log) + if o.Ok? then 0 else 3)
      && (old(Stuck(config, db.State())) ==> !o.Raised? && (o.Ok? ==> !finished && Stuck(config, db.State())))
    }

    method Round(step: nat, pending: seq<Call>, totalCost: nat, memory: MemoryManager)
      returns (o: Outcome, finished: bool, step': nat, pending': seq<Call>, totalCost': nat)
      requires Alive(step, pending, memory) && totalCost == CostSoFar(db.log) && step < config.maxSteps
      modifies db, workspace, memory, memory.window
      ensures Rounded(o, finished, step', pending', totalCost', memory)
    {
      hide Path, Inv, Remembers, CostSoFar, NoProgress, Stuck, RecoverCalls, Latest, Repeating, Measure, Work, Reserve, Used,
           ResponseToProcess, Tracked, Explained, Concluded, ChecksOnly, HasCheck, Checks, Announced;
      ghost var d, h := db.State(), db.history;
      finished, step', pending', totalCost' := false, step, pending, totalCost;
      SoundInv(config, db);
      NotStuckYet(config, db.State());
      o := RaiseIfRecordedNoProgress();
      if !o.Ok? {
        BarredRaises();
        return;
      }
      if pending == [] {
        var recovered := RecoverPendingToolCalls(db.log, step);
        if recovered == [] {
          o, finished, step', pending', totalCost' := Turn(step, memory, totalCost);
          SoundInv(config, db);
          HistoryLog(config, db, h);
          RowStays(config, db, h);
          TurnAccounted(d, db.State(), |h|, |db.history|, step', o.Ok?, finished);
          TurnTracked(d, db.State(), step', o.Ok? && !finished);
          return;
        }
        RecoveredParsed(d);
        o := RunRecovered(step, recovered, memory);
        BatchTracked(d, db.State(), o.Ok?);
      } else {
        o := RunPending(step, pending, memory);
        SoundInv(config, db);
        HistoryLog(config, db, h);
        BatchAccounted(d, db.State(), o.Ok?);
        PendingParsed(config, d);
        BatchTracked(d, db.State(), o.Ok?);
      }
      pending' := [];
    }

    // A check at the limit that is found in the log ends the run.
    lemma BarredRaises()
      requires Sound(config, db) && Live(db.row) && NoProgress(config, db.log)
      ensures Explained(config, db.State(), Error(NO_PROGRESS)) && Tracked(db.State(), db.State(), false)
    {
      hide Path, Inv, NoProgress, Latest, Checks, Announced, Explained;
      SoundInv(config, db);
      PathBarred(config, db.history, |db.history| - 1);
      PendingParsed(config, db.State());
      NoProgressExplained(config, db.State());
    }

    lemma BatchTracked(d: Durable, d': Durable, going: bool)
      requires Checks(d'.log) == Checks(d.log) && d'.row.step == d.row.step && Latest(d.log, KParsed, d.row.step).Some?
      ensures Tracked(d, d', going)
    {
    }

    lemma RecoveredParsed(d: Durable)
      requires RecoverCalls(d.log, d.row.step) != []
      ensures Latest(d.log, KParsed, d.row.step).Some?
    {
    }

    lemma TurnTracked(d: Durable, d': Durable, step': nat, going: bool)
      requires Inv(config, d) && !d.row.status.NoRow? && ChecksOnly(d.log, d'.log, step')
      requires if ResponseToProcess(d.log, d.row.step).Some? then step' == d.row.step else Latest(d.log, KResponse, step').None?
      requires going ==> HasCheck(d'.log, step') && d'.row.step == step'
      ensures Tracked(d, d', going)
    {
      hide LogOk, StepsClosed, RowOk, CostOk, ExecsOk, Latest, HasCheck, Checks, Announced;
      if ResponseToProcess(d.log, d.row.step).None? { SilentStep(config, d.log, step'); }
    }

    // A turn makes no more transactions than its response accounts for, with
    // those for its calls still to come.
    lemma TurnAccounted(d: Durable, d': Durable, n: nat, n': nat, step': nat, ok: bool, finished: bool)
      requires Inv(config, d) && Inv(config, d') && !d'.row.status.NoRow? && d.log <= d'.log && d.row.pending == []
      requires if ResponseToProcess(d.log, d.row.step).Some? then step' == d.row.step else Latest(d.log, KResponse, step').None?
      requires Used(n, n', d'.log, step')
      requires ok ==> Latest(d'.log, KResponse, step').Some?
      requires ok && !finished ==> d'.row.pending == Latest(d'.log, KResponse, step').value.response.calls != []
      ensures n' + (if ok && !finished then Reserve(d') else 0) + Work(d.log)
        <= n + Reserve(d) + Work(d'.log) + if ok then 0 else 3
    {
      hide LogOk, StepsClosed, RowOk, CostOk, ExecsOk, Latest, Work;
      WorkGrows(d.log, d'.log, step');
      if ResponseToProcess(d.log, d.row.step).Some? {
        assert d'.log[..|d.log|] == d.log;
        LatestInPrefix(config, d'.log, |d.log|, KResponse, step');
      }
    }

    lemma BatchAccounted(d: Durable, d': Durable, ok: bool)
      requires d.log <= d'.log && d.row.pending != []
      requires ok ==> d'.row.pending == [] && d'.row.step == d.row.step && Latest(d'.log, KParsed, d.row.step).Some?
      ensures Work(d.log) <= Work(d'.log) && Reserve(d) == 6 * |d.row.pending| + 1 && (ok ==> Reserve(d') == 0)
    {
      hide Latest, Work;
      WorkGrows(d.log, d'.log, 0);
    }

    lemma NotStuckYet(cfg: Config, d: Durable)
      requires Inv(cfg, d) && Live(d.row)
      ensures NoProgress(cfg, d.log) ==> d.row.step > 0 && !Stuck(cfg, d)
      ensures Stuck(cfg, d) ==> RecoverCalls(d.log, d.row.step) != []
    {
      hide RepeatsEmail, StepsClosed, CostOk, ExecsOk;
      if Stuck(cfg, d) { StuckRecovers(cfg, d); }
    }

    // Calls that still lack a result are made pending again, in one commit,
    // and executed.  For a stuck run this is a circle: after one such round it
    // comes back to the very same state.
    method RunRecovered(step: nat, recovered: seq<Call>, memory: MemoryManager) returns (o: Outcome)
      requires Alive(step, [], memory) && step < config.maxSteps && !NoProgress(config, db.log)
      requires recovered == RecoverCalls(db.log, step) && recovered != []
      modifies db, workspace, memory, memory.window
      ensures Sound(config, db) && Onward(db, o) && Repeating(db.log)
      ensures o.Raised? ==> Live(db.row) && db.row.step == step > 0
      ensures Checks(db.log) == Checks(old(db.log)) && db.row.step == step
      ensures o.Raised? ==> Explained(config, db.State(), Error(o.message))
      ensures o.Ok? ==> Alive(step, [], memory) && CostSoFar(db.log) == CostSoFar(old(db.log))
      ensures o.Ok? ==> |db.history| > |old(db.history)|
      ensures old(Stuck(config, db.State())) ==> !o.Raised? && (o.Ok? ==> Stuck(config, db.State()))
      ensures old(Stuck(config, db.State())) && o.Ok? ==>
        db.State() == Again(old(db.State()), recovered) && Circling(db.State(), recovered)
      ensures old(Stuck(config, db.State()) && Circling(db.State(), recovered)) && o.Ok? ==> db.State() == old(db.State())
    {
      hide Checks, Explained, Path, Inv, Remembers, CostSoFar, NoProgress, RecoverCalls, Latest, Repeating, RepeatsEmail, AllExecuted, AllResulted, Measure,
           WithStarts, AllStarted;
      ghost var d, h := db.State(), db.history;
      if AllStarted(d.log, step, recovered) { StartsIdle(d.log, step, recovered); }
      StartsRecoverSame(d.log, step, recovered);
      SoundInv(config, db);
      RecoverMeansRepeat(config, d);
      Recovers(config, d);
      :- Update(config, db, RunningTools, step, Some(recovered), Recover);
      o := RunPending(step, recovered, memory);
      SoundInv(config, db);
      HistoryLog(config, db, h);
      RowStays(config, db, h);
      RepeatingPersistsIn(config, d.log, db.State());
    }

    // Between two rounds of a stuck run, once each of its calls has a start.
    predicate Circling(d: Durable, recovered: seq<Call>) {
      d.row == Row(CallingLlm, d.row.step, []) && RecoverCalls(d.log, d.row.step) == recovered
      && AllStarted(d.log, d.row.step, recovered)
    }

    lemma RepeatingPersistsIn(cfg: Config, log: seq<Event>, d: Durable)
      requires Inv(cfg, d) && log <= d.log && Repeating(log) && !d.row.status.NoRow?
      ensures Repeating(d.log)
    {
      RepeatingPersists(cfg, log, d.log);
    }

    // One pass of the loop: a round, and the end of the run if it raises.
    method Pass(
      step: nat, pending: seq<Call>, totalCost: nat, memory: MemoryManager, ghost start: Durable, ghost spent: nat)
      returns (o: Outcome, ended: bool, step': nat, pending': seq<Call>, totalCost': nat)
      requires Alive(step, pending, memory) && totalCost == CostSoFar(db.log) && step < config.maxSteps
      requires Watching(start, db.State()) && (!Repeating(db.log) ==> |db.history| + Reserve(db.State()) <= spent + Work(db.log))
      modifies db, workspace, memory, memory.window
      ensures Sound(config, db) && Onward(db, o) && !o.Raised?
      ensures o.Ok? && ended ==> db.row.status == Done && Concluded(config, db.history)
      ensures !o.Ok? || ended ==> Watched(start, db.State()) && (!Repeating(db.log) ==> |db.history| <= spent + Work(db.log) + 4)
      ensures o.Ok? && !ended ==> Alive(step', pending', memory) && totalCost' == CostSoFar(db.log) && Watching(start, db.State())
      ensures o.Ok? && !ended && !Repeating(db.log) ==>
        |db.history| + Reserve(db.State()) <= spent + Work(db.log) && Measure(config, db.State()) < Measure(config, old(db.State()))
      ensures o.Ok? && !ended ==> db.lives < old(db.lives) && (Repeating(old(db.log)) ==> Repeating(db.log))
      ensures o.Ok? && old(Stuck(config, db.State())) ==> !ended && Stuck(config, db.State())
    {
      hide Path, Inv, Remembers, CostSoFar, NoProgress, Stuck, RecoverCalls, Latest, Repeating, Measure, Work, Reserve, Watched, Watching, Tracked,
           Explained, Concluded;
      ghost var d, h := db.State(), db.history;
      SoundInv(config, db);
      o, ended, step', pending', totalCost' := Round(step, pending, totalCost, memory);
      SoundInv(config, db);
      HistoryLog(config, db, h);
      RowStays(config, db, h);
      if Repeating(d.log) { RepeatingPersistsIn(config, d.log, db.State()); }
      Watches(config, start, d, db.State(), o.Ok? && !ended);
      if o.Raised? {
        ghost var d' := db.State();
        o := EndRun(Error(o.message), step');
        ended := true;
        WatchedOn(start, d', db.State());
      }
    }

    // The loop ends the run or dies: an error ends it with its message, and
    // running out of steps with the step limit.  Without an email repeated
    // across steps each round shortens the rest of the run, so that only such
    // an email lets a process go on for as long as it lives.
    method Loop(memory: MemoryManager) returns (o: Outcome)
      requires Sound(config, db) && Live(db.row) && Remembers(script, memory.Value(), db.log)
      modifies db, workspace, memory, memory.window
      ensures Sound(config, db) && Onward(db, o) && !o.Raised?
      ensures o.Ok? ==> db.row.status == Done
      ensures old(Stuck(config, db.State())) ==> !o.Ok?
      ensures Watched(old(db.State()), db.State()) && (o.Ok? ==> Concluded(config, db.history))
      ensures !Repeating(db.log) ==> |db.history| <= |old(db.history)| + Work(db.log) + 4
    {
      hide Path, Inv, Remembers, CostSoFar, NoProgress, Stuck, RecoverCalls, Latest, Repeating, Measure, Work, Reserve, Watched, Watching, Tracked,
           Explained, Concluded;
      WatchBegins(db.State());
      o := Ok;
      var step: nat, pending := db.row.step, db.row.pending;
      var totalCost := CostSoFarOf(db.log);
      SoundInv(config, db);
      if !Repeating(db.log) { ReserveCovered(config, db.State()); }
      while step < config.maxSteps
        invariant Alive(step, pending, memory) && totalCost == CostSoFar(db.log)
        invariant Onward(db, o) && o == Ok && Watching(old(db.State()), db.State())
        invariant !Repeating(db.log) ==> |db.history| + Reserve(db.State()) <= |old(db.history)| + Work(db.log)
        invariant old(Stuck(config, db.State())) ==> Stuck(config, db.State())
        decreases !Repeating(db.log), if Repeating(db.log) then db.lives else Measure(config, db.State())
      {
        SoundInv(config, db);
        MeasureBounds(config, db.State());
        var ended;
        o, ended, step, pending, totalCost := Pass(step, pending, totalCost, memory, old(db.State()), |old(db.history)|);
        if o.Killed? || ended {
          return;
        }
        SoundInv(config, db);
        MeasureBounds(config, db.State());
      }
      if Stuck(config, db.State()) { StuckBelowLimit(config, db.State()); }
      WatchingWatched(old(db.State()), db.State());
      ghost var d := db.State();
      o := StopAtLimit(step);
      WatchedOn(old(db.State()), d, db.State());
    }

    lemma WatchingWatched(d: Durable, d': Durable)
      requires Watching(d, d')
      ensures Watched(d, d')
    {
    }

    // The run ends with its reason, in one commit.
    method EndRun(reason: Reason, step: nat) returns (o: Outcome)
      requires Sound(config, db) && Live(db.row) && db.row.step == step && reason != Completed
      requires Explained(config, db.State(), reason)
      modifies db
      ensures Sound(config, db) && Onward(db, o) && !o.Raised? && |db.history| <= |old(db.history)| + 1
      ensures o.Ok? ==> db.row.status == Done && Concluded(config, db.history)
      ensures old(db.log) <= db.log && SameMarks(old(db.log), db.log)
      ensures Work(old(db.log)) <= Work(db.log) && (Repeating(old(db.log)) ==> Repeating(db.log))
    {
      hide Path, Inv, Insert, Explained, Concluded, Checks, Announced, Work, Repeating;
      ghost var h := db.history;
      ExplainedEnds(config, db.State(), reason);
      MarksKept(db.log, Finished(step, reason));
      o := Guard.Finish(config, db, reason, step);
      if o.Ok? { Concludes(config, h, db.history, reason); }
      MoreWork(h);
      HistoryLog(config, db, h);
    }

    lemma ExplainedEnds(cfg: Config, d: Durable, reason: Reason)
      requires Explained(cfg, d, reason) && reason != Completed
      ensures CanFinish(cfg, d, reason)
    {
      hide Overspent, CutOff, PlainAnswer, NoProgress;
    }

    // What the log accounts for only grows, and a repeated email stays one.
    lemma MoreWork(h: seq<Durable>)
      requires Sound(config, db) && h != [] && h <= db.history && Live(h[|h| - 1].row)
      ensures Work(h[|h| - 1].log) <= Work(db.log) && (Repeating(h[|h| - 1].log) ==> Repeating(db.log))
    {
      hide Inv, Repeating, Work, Path;
      HistoryLog(config, db, h);
      RowStays(config, db, h);
      SoundInv(config, db);
      WorkGrows(h[|h| - 1].log, db.log, 0);
      if Repeating(h[|h| - 1].log) { RepeatingPersistsIn(config, h[|h| - 1].log, db.State()); }
    }

    lemma MeasureBounds(cfg: Config, d: Durable)
      requires Inv(cfg, d) && Live(d.row)
      ensures 2 * (cfg.maxSteps - d.row.step) <= Measure(cfg, d) <= 2 * cfg.maxSteps + 2 && d.row.step <= cfg.maxSteps
    {
    }

    lemma StuckBelowLimit(cfg: Config, d: Durable)
      requires Stuck(cfg, d)
      ensures d.row.step < cfg.maxSteps
    {
    }

    lemma RowStays(cfg: Config, db: AgentDatabase, h: seq<Durable>)
      requires Sound(cfg, db) && h != [] && h <= db.history && !h[|h| - 1].row.status.NoRow?
      ensures !db.row.status.NoRow?
    {
      hide Inv;
      PathLater(cfg, db.history, |h| - 1, |db.history| - 1);
      PathInvariant(cfg, db.history, |h| - 1);
      SoundInv(cfg, db);
      RowMeansLog(cfg, h[|h| - 1]);
      RowMeansLog(cfg, db.State());
    }

    lemma RowMeansLog(cfg: Config, d: Durable)
      requires Inv(cfg, d)
      ensures d.row.status.NoRow? <==> d.log == []
    {
    }

    method StopAtLimit(step: nat) returns (o: Outcome)
      requires Sound(config, db) && Live(db.row) && db.row.step == step >= config.maxSteps
      modifies db
      ensures Sound(config, db) && Onward(db, o) && !o.Raised? && |db.history| <= |old(db.history)| + 2
      ensures o.Ok? ==> db.row.status == Done && Concluded(config, db.history)
      ensures old(db.log) <= db.log && SameMarks(old(db.log), db.log)
      ensures Work(old(db.log)) <= Work(db.log) && (Repeating(old(db.log)) ==> Repeating(db.log))
    {
      hide Path, Inv, Insert, Concluded, Checks, Announced, Work, Repeating;
      ghost var h := db.history;
      MarksKept(db.log, StepLimit(step));
      var inserted;
      o, inserted := Append(config, db, StepLimit(step));
      MoreWork(h);
      HistoryLog(config, db, h);
      if o.Ok? { o := EndRun(StepLimitReached, step); }
    }

    // The memory of a new run holds the user's request; any other is rebuilt
    // from the log.  This happens before the loop and raises if and only if
    // some message of the log does not fit the budget alone.
    method Prepare(created: bool) returns (o: Outcome, memory: MemoryManager)
      requires created ==> db.log == [RunStarted(0)]
      ensures fresh(memory) && fresh(memory.window) && !o.Killed?
      ensures o.Ok? <==> AllFit(script, db.log, tokenBudget)
      ensures o.Ok? ==> Remembers(script, memory.Value(), db.log)
    {
      hide After, Noted, Returns, FitsAlone;
      if created {
        memory := new MemoryManager(tokenBudget);
        RememberNext(script, EMPTY, [], RunStarted(0), SayUser(script.request), tokenBudget);
        assert [] + [RunStarted(0)] == [RunStarted(0)];
        assert db.log[..0] == [] && db.log[..1] == db.log;
        NextReplays(script, db.log, 0, tokenBudget);
        FitMore(script, db.log, 0, tokenBudget);
        o := memory.AddUserMessage(script.request);
      } else {
        o, memory := FromEvents(script, db.log, tokenBudget);
      }
    }

    // The state in which a process takes the run up.
    function Taken(d: Durable): Durable { if d.row.status.NoRow? then Created(d) else d }

    // The log of an unfinished run holds a message too large to be replayed.
    predicate Unreadable(d: Durable) {
      !d.row.status.Done? && !AllFit(script, Taken(d).log, tokenBudget)
    }

    // A process: it creates the run or takes it up, and drives it until it is
    // finished or the process dies.  It raises if and only if the log holds a
    // message that does not fit alone, and then leaves the run as it took it
    // up; otherwise it returns only when the run is finished.  A run stuck on a
    // repeated email is never finished by it.
    method Run() returns (o: Outcome)
      requires Sound(config, db)
      modifies db, workspace
      ensures Sound(config, db) && Onward(db, o)
      ensures !o.Killed? ==> (o.Raised? <==> old(Unreadable(db.State())))
      ensures o.Ok? ==> db.row.status == Done
      ensures old(Unreadable(db.State())) ==> db.State() == old(db.State()) || db.State() == Taken(old(db.State()))
      ensures old(db.row.status.Done?) ==> db.State() == old(db.State())
      ensures old(Stuck(config, db.State())) ==> !o.Ok?
      ensures Watched(old(db.State()), db.State())
      ensures o.Ok? && old(!db.row.status.Done?) ==> Concluded(config, db.history)
      ensures o.Killed? && !Repeating(db.log) ==> old(db.lives) <= Work(db.log) + 5
    {
      hide Path, Inv, Remembers, Stuck, Repeating, AllFit, Work, Watched, Concluded;
      ghost var d := db.State();
      WatchBegins(d);
      WatchingWatched(d, d);
      SoundInv(config, db);
      FreshLog(config, db.State());
      var created :- Guard.Create(config, db);
      WatchCreated(d);
      if db.row.status == Done {
        return Ok;
      }
      var memory;
      o, memory := Prepare(created);
      if o.Ok? {
        o := Loop(memory);
        if created { WatchedFromStart(d, db.State()); }
      }
    }

    lemma WatchCreated(d: Durable)
      requires d.row.status.NoRow? ==> d.log == []
      ensures d.row.status.NoRow? ==> Watched(d, Created(d))
    {
      if d.row.status.NoRow? {
        WatchBegins(Created(d));
        WatchedFromStart(d, Created(d));
      }
    }

    // Creating the run starts and checks nothing.
    lemma WatchedFromStart(d: Durable, d': Durable)
      requires d.log == [] && Watched(Created(d), d')
      ensures Watched(d, d')
    {
      hide HasCheck;
      CreatedUnchecked(d);
      assert d'.log[0] == RunStarted(0);
    }

    lemma CreatedUnchecked(d: Durable)
      requires d.log == []
      ensures forall t :: !TakenUnchecked(d, t) && !TakenUnchecked(Created(d), t)
    {
      hide HasCheck;
      forall t ensures !TakenUnchecked(d, t) && !TakenUnchecked(Created(d), t) {
        assert Latest(d.log, KParsed, t).None?;
        LatestAppend(d.log, RunStarted(0), KParsed, t);
      }
    }

    lemma FreshLog(cfg: Config, d: Durable)
      requires Inv(cfg, d)
      ensures d.row.status.NoRow? ==> d.log == [] && !Stuck(cfg, d)
      ensures d.row.status.Done? ==> !Stuck(cfg, d)
    {
    }

    // Any number of processes, one after the other, each with as many
    // transactions to live as the environment grants it: the log only grows,
    // sent emails and the outcomes of emails stay, a finished run is left
    // alone, and so is for ever a run whose log holds a message too large to
    // be replayed.
    method Sessions(plan: seq<nat>)
      requires Sound(config, db)
      modifies db, workspace
      ensures Sound(config, db) && old(db.history) <= db.history
      ensures Later(old(db.State()), db.State())
      ensures !db.row.status.NoRow? ==> ExecsOk(db.State())
      ensures old(Live(db.row) && Unreadable(db.State())) ==> db.State() == old(db.State())
    {
      hide Path, Stuck, Repeating, Later, Inv, AllFit;
      ghost var h := db.history;
      for i := 0 to |plan|
        invariant Sound(config, db) && old(db.history) <= db.history
        invariant old(Live(db.row) && Unreadable(db.State())) ==> db.State() == old(db.State())
      {
        db.lives := plan[i];
        var o := Run();
      }
      PathLater(config, db.history, |h| - 1, |db.history| - 1);
      SoundInv(config, db);
      InvExecs(config, db.State());
    }

    lemma InvExecs(cfg: Config, d: Durable)
      requires Inv(cfg, d)
      ensures !d.row.status.NoRow? ==> ExecsOk(d)
    {
    }
  }
}
