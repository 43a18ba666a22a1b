// Runs the loop can go through, commit by commit in the order of the code: two
// turns that ask for the same email get a run stuck, and a message too large to
// be replayed makes it unreadable.
module Witness {
  import opened Events
  import opened Protocol
  import opened Invariant
  import opened History
  import opened Guard
  import opened Tokenizer
  import opened Resume
  import opened Executor
  import opened ToolBatch
  import opened Validator
  import opened Runtime
  import opened Order

  // The state a list of commits leads to, if each is allowed where it comes.
  function Runs(cfg: Config, d: Durable, commits: seq<Commit>): Option<Durable> {
    if commits == [] then Some(d)
    else
      var n := |commits| - 1;
      var mid := Runs(cfg, d, commits[..n]);
      if mid.Some? && Enabled(cfg, mid.value, commits[n]) then Some(Apply(cfg, mid.value, commits[n])) else None
  }

  // A new run can come to this state by these commits.
  ghost predicate At(cfg: Config, commits: seq<Commit>, d: Durable) {
    Runs(cfg, Initial(), commits) == Some(d) && Inv(cfg, d)
  }

  // Such a run is one of the histories, with one state a commit.
  lemma {:induction false} RunIsPath(cfg: Config, commits: seq<Commit>, d: Durable) returns (h: seq<Durable>)
    requires Runs(cfg, Initial(), commits) == Some(d)
    ensures Path(cfg, h) && |h| == |commits| + 1 && h[|h| - 1] == d
  {
    hide Path, Enabled, Apply;
    if commits == [] {
      h := [Initial()];
      StartPath(cfg);
    } else {
      var n := |commits| - 1;
      var mid := Runs(cfg, Initial(), commits[..n]).value;
      var before := RunIsPath(cfg, commits[..n], mid);
      CommitExtends(cfg, before, commits[n]);
      h := before + [d];
    }
  }

  lemma StartPath(cfg: Config)
    ensures Path(cfg, [Initial()])
  {
  }

  lemma Step(cfg: Config, commits: seq<Commit>, d: Durable, c: Commit)
    requires At(cfg, commits, d) && Enabled(cfg, d, c)
    ensures At(cfg, commits + [c], Apply(cfg, d, c))
  {
    hide Inv, Enabled, Apply;
    assert (commits + [c])[..|commits|] == commits;
    NextKeeps(cfg, d, c);
  }

  // Logging an event that is no check, no charge and no result.
  lemma LogStep(cfg: Config, commits: seq<Commit>, d: Durable, e: Event)
    requires At(cfg, commits, d) && MayLog(cfg, d, e) && EventKeyOf(e) != NoKey
    ensures At(cfg, commits + [Log(e)], Logging(d, e)) && d.log <= Logging(d, e).log
    ensures !e.ProgressCheck? ==> LatestProgress(Logging(d, e).log) == LatestProgress(d.log)
    ensures !e.Charged? ==> CostSoFar(Logging(d, e).log) == CostSoFar(d.log)
    ensures !e.Result? ==> (Tainted(Logging(d, e).log) <==> Tainted(d.log))
  {
    hide At, MayLog, Logged, Tainted, LatestProgress, CostSoFar;
    LogEnabled(cfg, d, e);
    Step(cfg, commits, d, Log(e));
    InsertKeeps(d.log, e);
    LatestProgressAppend(d.log, e);
    TaintedAppend(d.log, e);
  }

  lemma LogEnabled(cfg: Config, d: Durable, e: Event)
    requires MayLog(cfg, d, e)
    ensures Enabled(cfg, d, Log(e)) && Apply(cfg, d, Log(e)) == Logging(d, e)
  {
    hide MayLog;
  }

  lemma TaintedAppend(log: seq<Event>, e: Event)
    ensures Tainted(log + [e]) <==> Tainted(log) || e.Result?
  {
    if Tainted(log) {
      var i :| 0 <= i < |log| && log[i].Result?;
      assert (log + [e])[i].Result?;
    }
    if e.Result? { assert (log + [e])[|log|].Result?; }
  }

  // ----- one turn -----

  // The commits of a turn at one step: the request counts k, the response r is
  // nothing but calls, and the check of the batch is there or was cut off.
  function TurnRun(t: nat, total: nat, k: nat, r: Response, check: Option<nat>): seq<Commit> {
    [Begin, Log(StepStart(t, total)), Log(Request(t, k)), Log(Responded(t, r)),
     Log(Charged(t, k + r.tokens, total + k + r.tokens)), Parse]
    + if check.Some? then [Log(CheckOf(t, r, check.value))] else []
  }

  function CheckOf(t: nat, r: Response, repeats: nat): Event { ProgressCheck(t, DigestOf(r.calls), repeats) }

  predicate OnlyCalls(r: Response) { r.text == "" && r.errors == [] && r.calls != [] && !r.Incomplete() }

  // The response of the step, without what it says, is recorded.
  ghost predicate Heard(d: Durable, t: nat, r: Response) {
    Hearing(d, t, r) && Latest(d.log, KCharge, t).None?
  }

  // Nothing but the row and the log has changed, and the log by no result, no
  // check and no charge.
  ghost predicate Quiet(d: Durable, d': Durable) {
    d.log <= d'.log && d'.execs == d.execs && d'.emails == d.emails && LatestProgress(d'.log) == LatestProgress(d.log)
    && (Tainted(d'.log) <==> Tainted(d.log))
  }

  lemma Asks(cfg: Config, commits: seq<Commit>, d: Durable, k: nat, r: Response) returns (d': Durable)
    requires At(cfg, commits, d) && CanBegin(cfg, d)
    ensures var t := NextStep(d.row, d.log);
      && At(cfg, commits + [Begin, Log(StepStart(t, CostSoFar(d.log))), Log(Request(t, k)), Log(Responded(t, r))], d')
      && Heard(d', t, r)
    ensures Quiet(d, d') && CostSoFar(d'.log) == CostSoFar(d.log)
  {
    var t, total := NextStep(d.row, d.log), CostSoFar(d.log);
    hide Runs, Inv, CanBegin, Enabled, MayLog, Logged, Tainted, LatestProgress, CostSoFar, NextStep, Insert, Latest;
    Begins(cfg, d);
    Step(cfg, commits, d, Begin);
    var d1 := Begun(d);
    hide Apply;
    var e := StepStart(t, total);
    StartOfStep(cfg, d1, total);
    LogStep(cfg, commits + [Begin], d1, e);
    var d2 := Logging(d1, e);
    RequestAllowed(cfg, d2, k);
    RequestedNext(d2, k);
    LogStep(cfg, commits + [Begin] + [Log(e)], d2, Request(t, k));
    var d3 := Logging(d2, Request(t, k));
    ResponseAllowed(cfg, d3, r);
    AskedNext(cfg, d3, r);
    LogStep(cfg, commits + [Begin] + [Log(e)] + [Log(Request(t, k))], d3, Responded(t, r));
    d' := Logging(d3, Responded(t, r));
    assert commits + [Begin] + [Log(e)] + [Log(Request(t, k))] + [Log(Responded(t, r))]
      == commits + [Begin, Log(e), Log(Request(t, k)), Log(Responded(t, r))];
  }

  lemma StartOfStep(cfg: Config, d: Durable, total: nat)
    requires AwaitingModel(d) && total == CostSoFar(d.log)
    ensures var e := StepStart(d.row.step, total); MayLog(cfg, d, e) && AwaitingModel(Logging(d, e))
  {
    OtherKind(d.log, StepStart(d.row.step, total), KResponse, d.row.step);
  }

  lemma Pays(cfg: Config, commits: seq<Commit>, d: Durable, t: nat, k: nat, r: Response) returns (d': Durable)
    requires At(cfg, commits, d) && Heard(d, t, r) && OnlyCalls(r) && CostSoFar(d.log) + k + r.tokens <= cfg.costBudget
    ensures At(cfg, commits + [Log(Charged(t, k + r.tokens, CostSoFar(d.log) + k + r.tokens)), Parse], d')
    ensures ParsedAt(d', t, r) && Quiet(d, d') && CostSoFar(d'.log) == CostSoFar(d.log) + k + r.tokens
  {
    hide Runs, Inv, Apply, Enabled, Logged, Insert, LatestProgress, CostSoFar, MayLog, Latest, Voiced, Tainted;
    var cost, total := k + r.tokens, CostSoFar(d.log) + k + r.tokens;
    var e := Charged(t, cost, total);
    HeardIdle(d, t, r);
    NothingToVoice(d.log, t, r);
    ChargeAllowed(cfg, d, r, cost);
    ChargedNext(d, r, cost, total);
    LogStep(cfg, commits, d, e);
    var d1 := Logging(d, e);
    ChargedParses(cfg, d1, r);
    Step(cfg, commits + [Log(e)], d1, Parse);
    ParsedLast(cfg, d1, r);
    d' := Apply(cfg, d1, Parse);
    assert commits + [Log(e)] + [Parse] == commits + [Log(e), Parse];
  }

  lemma HeardIdle(d: Durable, t: nat, r: Response)
    requires Heard(d, t, r)
    ensures d.row.step == t > 0 && Responding(d) && Latest(d.log, KResponse, t).value.response == r
  {
  }

  // The batch of the step is parsed and pending.
  ghost predicate ParsedAt(d: Durable, t: nat, r: Response) {
    d.row == Row(RunningTools, t, r.calls) && t > 0 && Latest(d.log, KParsed, t) == Some(Parsed(t, r.calls))
    && forall i :: 0 <= i < |d.log| && d.log[i].step == t ==> !d.log[i].Started? && !d.log[i].ProgressCheck?
  }

  lemma NothingToVoice(log: seq<Event>, t: nat, r: Response)
    requires OnlyCalls(r)
    ensures Voiced(log, t, r)
  {
  }

  lemma ChargedParses(cfg: Config, d: Durable, r: Response)
    requires Responding(d) && Latest(d.log, KResponse, d.row.step).value.response == r && OnlyCalls(r)
    requires Latest(d.log, KCharge, d.row.step).Some? && Latest(d.log, KCharge, d.row.step).value.total <= cfg.costBudget
    ensures CanParse(cfg, d) && Enabled(cfg, d, Parse)
  {
  }

  lemma ParsedLast(cfg: Config, d: Durable, r: Response)
    requires Inv(cfg, d) && CanParse(cfg, d) && Latest(d.log, KResponse, d.row.step).value.response == r
    ensures var d' := Apply(cfg, d, Parse);
      ParsedAt(d', d.row.step, r) && Quiet(d, d') && CostSoFar(d'.log) == CostSoFar(d.log)
  {
    var t, e := d.row.step, Parsed(d.row.step, r.calls);
    hide LogOk, StepsClosed, RowOk, CostOk, ExecsOk, LatestProgress, CostSoFar, Paid, Tainted;
    SlotTaken(d.log, KParsed, t);
    LatestAppend(d.log, e, KParsed, t);
    LatestProgressAppend(d.log, e);
    TaintedAppend(d.log, e);
    NoneStarted(cfg, d.log, t);
  }

  ghost predicate NotStarted(log: seq<Event>, t: nat) {
    forall i :: 0 <= i < |log| && log[i].step == t ==> !log[i].Started?
  }

  // The check of a parsed batch, or none.
  lemma Checks(cfg: Config, commits: seq<Commit>, d: Durable, r: Response, check: Option<nat>) returns (d': Durable)
    requires At(cfg, commits, d) && ParsedAt(d, d.row.step, r) && OnlyCalls(r)
    requires check.Some? ==> check.value == Repeats(d.log, d.row.step, DigestOf(r.calls))
    ensures At(cfg, commits + if check.Some? then [Log(CheckOf(d.row.step, r, check.value))] else [], d')
    ensures d.log <= d'.log && d'.row == d.row && d'.execs == d.execs && d'.emails == d.emails
    ensures CostSoFar(d'.log) == CostSoFar(d.log) && (Tainted(d'.log) <==> Tainted(d.log))
    ensures LatestProgress(d'.log) ==
      if check.Some? then Some(CheckOf(d.row.step, r, check.value)) else LatestProgress(d.log)
    ensures NotStarted(d'.log, d.row.step)
  {
    hide Runs, Inv, Enabled, Apply, Logged, MayLog, LatestProgress, CostSoFar, Tainted, Latest, DigestOf, Repeats;
    d' := d;
    if check.Some? {
      var e := CheckOf(d.row.step, r, check.value);
      CheckMayCome(cfg, d, r, e);
      LogStep(cfg, commits, d, e);
      LatestProgressAppend(d.log, e);
      d' := Logging(d, e);
      assert d'.log == d.log + [e];
    } else {
      assert commits + [] == commits;
    }
  }

  lemma CheckMayCome(cfg: Config, d: Durable, r: Response, e: Event)
    requires ParsedAt(d, d.row.step, r) && OnlyCalls(r)
    requires e == ProgressCheck(d.row.step, DigestOf(r.calls), Repeats(d.log, d.row.step, DigestOf(r.calls)))
    ensures MayLog(cfg, d, e) && Logging(d, e).log == d.log + [e]
  {
    hide Repeats, DigestOf, LatestProgressBefore, Latest;
    assert !Logged(d.log, EventKeyOf(e));
  }

  // A whole turn, from its first commit to its last.
  lemma TurnPasses(cfg: Config, commits: seq<Commit>, d: Durable, k: nat, r: Response, check: Option<nat>) returns (d': Durable)
    requires At(cfg, commits, d) && CanBegin(cfg, d) && OnlyCalls(r) && CostSoFar(d.log) + k + r.tokens <= cfg.costBudget
    requires var t := NextStep(d.row, d.log);
      check.Some? ==> check.value == Counted(LatestProgress(d.log), t, DigestOf(r.calls))
    ensures var t := NextStep(d.row, d.log);
      && At(cfg, commits + TurnRun(t, CostSoFar(d.log), k, r, check), d')
      && d'.row == Row(RunningTools, t, r.calls) && t > 0 && Latest(d'.log, KParsed, t) == Some(Parsed(t, r.calls))
      && LatestProgress(d'.log) == if check.Some? then Some(CheckOf(t, r, check.value)) else LatestProgress(d.log)
    ensures d.log <= d'.log && d'.execs == d.execs && d'.emails == d.emails && (Tainted(d'.log) <==> Tainted(d.log))
    ensures CostSoFar(d'.log) == CostSoFar(d.log) + k + r.tokens && NotStarted(d'.log, NextStep(d.row, d.log))
  {
    var t, total := NextStep(d.row, d.log), CostSoFar(d.log);
    hide Runs, Inv, CanBegin, LatestProgress, CostSoFar, Tainted, Latest, DigestOf, Repeats, NextStep, Heard, OnlyCalls;
    var d1 := Asks(cfg, commits, d, k, r);
    var begin := [Begin, Log(StepStart(t, total)), Log(Request(t, k)), Log(Responded(t, r))];
    var d2 := Pays(cfg, commits + begin, d1, t, k, r);
    var pay := [Log(Charged(t, k + r.tokens, total + k + r.tokens)), Parse];
    if check.Some? { CountedRight(cfg, d2, t, r); }
    d' := Checks(cfg, commits + begin + pay, d2, r, check);
    var last := if check.Some? then [Log(CheckOf(t, r, check.value))] else [];
    assert commits + begin + pay + last == commits + TurnRun(t, total, k, r, check);
    if d' != d2 { KeepsParsed(cfg, d2, d', t); }
  }

  lemma KeepsParsed(cfg: Config, d: Durable, d': Durable, t: nat)
    requires Inv(cfg, d') && Live(d'.row) && d.log <= d'.log && Latest(d.log, KParsed, t).Some?
    ensures Latest(d'.log, KParsed, t) == Latest(d.log, KParsed, t)
  {
    hide LogOk, Closed;
    assert d'.log[..|d.log|] == d.log;
    LatestInPrefix(cfg, d'.log, |d.log|, KParsed, t);
  }

  // What the count of a check is, by the check before it.
  function Counted(previous: Option<Event>, t: nat, digest: Digest): nat {
    if previous.Some? && previous.value.ProgressCheck? && previous.value.digest == digest && previous.value.repeats > 0
    then previous.value.repeats + 1 else 1
  }

  lemma CountedRight(cfg: Config, d: Durable, t: nat, r: Response)
    requires Inv(cfg, d) && ParsedAt(d, t, r)
    ensures Repeats(d.log, t, DigestOf(r.calls)) == Counted(LatestProgress(d.log), t, DigestOf(r.calls))
  {
    hide LogOk, RowOk, CostOk, ExecsOk, DigestOf, Closed, Latest;
    forall i | 0 <= i < |d.log| && d.log[i].ProgressCheck? ensures d.log[i].step < t { StepsBounded(cfg, d.log, i); }
    BeforeIsLatest(d.log, t);
  }


  // ----- the batch of one email -----

  const MALFORMED := Exec(ExecFailed, "", "ToolArgumentError")

  function ExecOf(c: Call): Exec { if Mailable(c.args) then Exec(ExecCompleted, "queued", "") else MALFORMED }

  // The commits of a batch of one new email: it is sent if it is well formed,
  // and fails otherwise.
  function EmailRun(t: nat, c: Call): seq<Commit> {
    [Log(Started(t, 0, c)), if Mailable(c.args) then Send(c) else Record(c, MALFORMED),
     Log(Result(t, 0, ResultOf(c, ExecOf(c)))), EndBatch]
  }

  lemma EmailPasses(cfg: Config, commits: seq<Commit>, d: Durable, c: Call) returns (d': Durable)
    requires At(cfg, commits, d) && c.tool == SendEmail && KeyOf(c) !in d.execs && !Tainted(d.log)
    requires d.row.status == RunningTools && d.row.pending == [c] && 0 < d.row.step < cfg.maxSteps && !NoProgress(cfg, d.log)
    ensures At(cfg, commits + EmailRun(d.row.step, c), d') && d.log <= d'.log
    ensures d'.row == Row(CallingLlm, d.row.step, []) && KeyOf(c) in d'.execs
    ensures LatestProgress(d'.log) == LatestProgress(d.log) && CostSoFar(d'.log) == CostSoFar(d.log)
    ensures Logged(d'.log, EmailResult(KeyOf(c))) && (KeyOf(c) in d'.emails <==> Mailable(c.args))
  {
    hide Runs, Inv, Apply, Enabled, Logged, Insert, LatestProgress, CostSoFar, MayLog, AllStarted, AllExecuted, AllResulted, NoProgress,
         Tainted, Mailable, ExecOk;
    var t := d.row.step;
    StartPasses(cfg, d, c);
    LogStep(cfg, commits, d, Started(t, 0, c));
    var d1 := Logging(d, Started(t, 0, c));
    SameProgress(cfg, d.log, d1.log);
    StartedOnly(d.log, t, c);
    var run := if Mailable(c.args) then Send(c) else Record(c, MALFORMED);
    var d2 := Mails(cfg, commits + [Log(Started(t, 0, c))], d1, c);
    var r := ResultOf(c, ExecOf(c));
    ResultAllowed(cfg, d2, 0, r);
    LogStep(cfg, commits + [Log(Started(t, 0, c))] + [run], d2, Result(t, 0, r));
    var d3 := Logging(d2, Result(t, 0, r));
    SameProgress(cfg, d2.log, d3.log);
    ResultedOnly(d2.log, t, c, r);
    BatchPasses(cfg, d3, c);
    Step(cfg, commits + [Log(Started(t, 0, c))] + [run] + [Log(Result(t, 0, r))], d3, EndBatch);
    d' := Apply(cfg, d3, EndBatch);
    assert commits + [Log(Started(t, 0, c))] + [run] + [Log(Result(t, 0, r))] + [EndBatch] == commits + EmailRun(t, c);
  }

  lemma SameProgress(cfg: Config, log: seq<Event>, log': seq<Event>)
    requires LatestProgress(log') == LatestProgress(log)
    ensures NoProgress(cfg, log') <==> NoProgress(cfg, log)
  {
  }

  // The email goes out, or fails as malformed.
  lemma Mails(cfg: Config, commits: seq<Commit>, d: Durable, c: Call) returns (d': Durable)
    requires At(cfg, commits, d) && c.tool == SendEmail && KeyOf(c) !in d.execs && !Tainted(d.log)
    requires Executing(cfg, d) && d.row.pending == [c] && AllStarted(d.log, d.row.step, [c])
    ensures At(cfg, commits + [if Mailable(c.args) then Send(c) else Record(c, MALFORMED)], d')
    ensures d'.row == d.row && d'.log == d.log && KeyOf(c) in d'.execs && AllExecuted(d'.execs, [c]) && Executing(cfg, d')
    ensures KeyOf(c) in d'.emails <==> Mailable(c.args)
  {
    hide Runs, Inv, AllStarted, Tainted, NoProgress;
    NotYetSent(cfg, d, c);
    if Mailable(c.args) {
      Step(cfg, commits, d, Send(c));
      d' := Mailed(d, c);
    } else {
      RecordAllowed(cfg, d, c, MALFORMED);
      Step(cfg, commits, d, Record(c, MALFORMED));
      d' := Recorded(d, c, MALFORMED);
    }
  }

  lemma NotYetSent(cfg: Config, d: Durable, c: Call)
    requires Inv(cfg, d) && Live(d.row) && KeyOf(c) !in d.execs
    ensures KeyOf(c) !in d.emails
  {
    hide LogOk, StepsClosed, RowOk, CostOk, Requested;
  }

  lemma StartPasses(cfg: Config, d: Durable, c: Call)
    requires d.row.status == RunningTools && d.row.pending == [c] && 0 < d.row.step < cfg.maxSteps && !NoProgress(cfg, d.log)
    ensures Executing(cfg, d) && MayLog(cfg, d, Started(d.row.step, 0, c))
  {
  }

  lemma StartedOnly(log: seq<Event>, t: nat, c: Call)
    ensures AllStarted(Insert(log, Started(t, 0, c)), t, [c])
  {
    hide Logged, Insert;
    InsertKeeps(log, Started(t, 0, c));
  }

  lemma ResultedOnly(log: seq<Event>, t: nat, c: Call, r: ToolResult)
    requires r.key == KeyOf(c) && r.tool == c.tool == SendEmail && AllStarted(log, t, [c])
    ensures var log' := Insert(log, Result(t, 0, r));
      AllResulted(log', t, [c]) && AllStarted(log', t, [c]) && Logged(log', EmailResult(KeyOf(c)))
  {
    hide Logged, Insert;
    InsertKeeps(log, Result(t, 0, r));
  }

  lemma BatchPasses(cfg: Config, d: Durable, c: Call)
    requires d.row.status == RunningTools && d.row.pending == [c] && 0 < d.row.step < cfg.maxSteps && !NoProgress(cfg, d.log)
    requires AllStarted(d.log, d.row.step, [c]) && AllExecuted(d.execs, [c]) && AllResulted(d.log, d.row.step, [c])
    ensures Enabled(cfg, d, EndBatch) && Apply(cfg, d, EndBatch) == d.(row := Row(CallingLlm, d.row.step, []))
  {
    BatchEnds(cfg, d);
  }

  // ----- getting stuck -----

  lemma FreshBegins(cfg: Config)
    ensures var d := Created(Initial());
      && At(cfg, [Create], d) && CanBegin(cfg, d) && CostSoFar(d.log) == 0 && LatestProgress(d.log).None?
      && NextStep(d.row, d.log) == 1 && d.execs == map[] && d.emails == map[] && !Tainted(d.log)
  {
    FirstEvent(KParsed, 0);
    FirstEvent(KResponse, 0);
    assert Runs(cfg, Initial(), []) == Some(Initial());
    hide Latest, LatestProgress, CostSoFar, CompletedKeys;
    Step(cfg, [], Initial(), Create);
    assert [] + [Create] == [Create];
  }

  lemma FirstEvent(kind: Kind, step: nat)
    requires kind != KOther
    ensures var log := Created(Initial()).log;
      Latest(log, kind, step).None? && LatestProgress(log).None? && CostSoFar(log) == 0
  {
    EmptyLog(kind, step);
    hide Latest, LatestProgress, CostSoFar;
    LatestAppend([], RunStarted(0), kind, step);
    LatestProgressAppend([], RunStarted(0));
  }

  lemma EmptyLog(kind: Kind, step: nat)
    ensures Latest([], kind, step).None? && LatestProgress([]).None? && CostSoFar([]) == 0
  {
  }

  lemma ResultStep(cfg: Config, log: seq<Event>, i: nat)
    requires LogOk(cfg, log) && i < |log| && log[i].Result?
    ensures 1 <= log[i].step <= log[|log| - 1].step
  {
    GrammarAt(cfg, log, i);
    StepsBounded(cfg, log, i);
    hide LogOk, Fits, Closed, Logged;
  }

  // Where the email's result is logged: at the first step.
  lemma ResultAtFirst(cfg: Config, d: Durable, key: Key) returns (i: nat)
    requires Inv(cfg, d) && Live(d.row) && d.row.step == 1 && Logged(d.log, EmailResult(key))
    ensures i < |d.log| && EventKeyOf(d.log[i]) == EmailResult(key) && d.log[i].step == 1 && key in CompletedKeys(d.log, 1)
  {
    hide LogOk, RowOk, CostOk, ExecsOk, Closed;
    i :| 0 <= i < |d.log| && EventKeyOf(d.log[i]) == EmailResult(key);
    ResultStep(cfg, d.log, i);
  }

  // After the first batch the second turn can begin.
  lemma SecondBegins(cfg: Config, d: Durable, c: Call)
    requires Inv(cfg, d) && d.row == Row(CallingLlm, 1, []) && 1 < cfg.maxSteps && !NoProgress(cfg, d.log)
    requires Latest(d.log, KParsed, 1) == Some(Parsed(1, [c])) && KeyOf(c) in CompletedKeys(d.log, 1)
    ensures CanBegin(cfg, d) && NextStep(d.row, d.log) == 2
  {
    MissingEmpty([c], CompletedKeys(d.log, 1));
    ParsedPaid(cfg, d.log, 1);
  }

  // The second turn asks for the email again: the run is stuck.
  lemma SecondStuck(cfg: Config, d: Durable, d': Durable, c: Call, c': Call, i: nat)
    requires i < |d.log| && EventKeyOf(d.log[i]) == EmailResult(KeyOf(c')) && d.log[i].step == 1
    requires c.tool == SendEmail && c'.tool == SendEmail && KeyOf(c) == KeyOf(c')
    requires d.log <= d'.log && d'.row == Row(RunningTools, 2, [c']) && Latest(d'.log, KParsed, 2) == Some(Parsed(2, [c']))
    requires KeyOf(c) in d.execs && d'.execs == d.execs && 2 < cfg.maxSteps && !NoProgress(cfg, d'.log)
    ensures Stuck(cfg, d')
  {
    hide NoProgress, Latest;
    assert d'.log[i] == d.log[i];
    assert c' in [c'];
  }

  // A run of two turns that ask for the same email: the first executes it, the
  // second parses it.
  function StuckRun(c: Call, k: nat, r: Response, k': nat, r': Response, check: Option<nat>, check': Option<nat>): seq<Commit> {
    [Create] + TurnRun(1, 0, k, r, check) + EmailRun(1, c) + TurnRun(2, k + r.tokens, k', r', check')
  }

  // How often the two batches come in a row.
  function SecondCount(r: Response, r': Response): nat { if SameWork(r.calls, r'.calls) then 2 else 1 }

  // Whatever the two requests and responses count, if they are within budget
  // and the limits allow two batches to run at all, a model that asks for the
  // same email in its first two turns gets the run stuck, without any kill.
  lemma StuckReachable(cfg: Config, c: Call, k: nat, r: Response, c': Call, k': nat, r': Response) returns (d: Durable)
    requires c.tool == SendEmail && c'.tool == SendEmail && KeyOf(c) == KeyOf(c')
    requires OnlyCalls(r) && r.calls == [c] && OnlyCalls(r') && r'.calls == [c']
    requires cfg.maxSteps > 2 && cfg.progressLimit > SecondCount(r, r')
    requires k + r.tokens + k' + r'.tokens <= cfg.costBudget
    ensures Runs(cfg, Initial(), StuckRun(c, k, r, k', r', Some(1), Some(SecondCount(r, r')))) == Some(d)
    ensures Stuck(cfg, d) && (KeyOf(c) in d.emails <==> Mailable(c.args))
  {
    d := StuckEitherWay(cfg, c, k, r, c', k', r', true);
  }

  // Two kills, each between the parse of a batch and its check, leave the same
  // run stuck with a batch executed and no progress check at all, whatever the
  // limit of equal batches.
  lemma StuckUnchecked(cfg: Config, c: Call, k: nat, r: Response, c': Call, k': nat, r': Response) returns (d: Durable)
    requires c.tool == SendEmail && c'.tool == SendEmail && KeyOf(c) == KeyOf(c')
    requires OnlyCalls(r) && r.calls == [c] && OnlyCalls(r') && r'.calls == [c']
    requires cfg.maxSteps > 2 && k + r.tokens + k' + r'.tokens <= cfg.costBudget
    ensures Runs(cfg, Initial(), StuckRun(c, k, r, k', r', None, None)) == Some(d)
    ensures Stuck(cfg, d) && LatestProgress(d.log).None?
  {
    d := StuckEitherWay(cfg, c, k, r, c', k', r', false);
  }

  // The first turn and its batch.
  lemma FirstStep(cfg: Config, c: Call, k: nat, r: Response, check: Option<nat>) returns (d: Durable)
    requires c.tool == SendEmail && OnlyCalls(r) && r.calls == [c] && cfg.maxSteps > 2 && k + r.tokens <= cfg.costBudget
    requires check.Some? ==> check.value == 1 < cfg.progressLimit
    ensures At(cfg, [Create] + TurnRun(1, 0, k, r, check) + EmailRun(1, c), d) && CanBegin(cfg, d)
    ensures NextStep(d.row, d.log) == 2 && CostSoFar(d.log) == k + r.tokens && KeyOf(c) in d.execs
    ensures LatestProgress(d.log) == if check.Some? then Some(CheckOf(1, r, 1)) else None
    ensures KeyOf(c) in d.emails <==> Mailable(c.args)
    ensures exists i :: 0 <= i < |d.log| && EventKeyOf(d.log[i]) == EmailResult(KeyOf(c)) && d.log[i].step == 1
  {
    hide Runs, Inv, CanBegin, Stuck, NoProgress, LatestProgress, CostSoFar, Latest, RepeatsEmail, NextStep, Logged, CompletedKeys,
         OnlyCalls, Mailable, DigestOf, Tainted, TurnRun, EmailRun, NotStarted;
    FreshBegins(cfg);
    var d1 := TurnPasses(cfg, [Create], Created(Initial()), k, r, check);
    ProgressLeft(cfg, d1.log);
    d := EmailPasses(cfg, [Create] + TurnRun(1, 0, k, r, check), d1, c);
    KeepsParsed(cfg, d1, d, 1);
    var i := ResultAtFirst(cfg, d, KeyOf(c));
    ProgressLeft(cfg, d.log);
    SecondBegins(cfg, d, c);
  }

  lemma StuckEitherWay(cfg: Config, c: Call, k: nat, r: Response, c': Call, k': nat, r': Response, checked: bool)
    returns (d: Durable)
    requires c.tool == SendEmail && c'.tool == SendEmail && KeyOf(c) == KeyOf(c')
    requires OnlyCalls(r) && r.calls == [c] && OnlyCalls(r') && r'.calls == [c']
    requires cfg.maxSteps > 2 && (checked ==> cfg.progressLimit > SecondCount(r, r'))
    requires k + r.tokens + k' + r'.tokens <= cfg.costBudget
    ensures var check, check' := if checked then Some(1) else None, if checked then Some(SecondCount(r, r')) else None;
      Runs(cfg, Initial(), StuckRun(c, k, r, k', r', check, check')) == Some(d)
    ensures Stuck(cfg, d) && (KeyOf(c) in d.emails <==> Mailable(c.args)) && (!checked ==> LatestProgress(d.log).None?)
  {
    hide Runs, Inv, CanBegin, Stuck, NoProgress, LatestProgress, CostSoFar, Latest, RepeatsEmail, NextStep, Logged, CompletedKeys,
         OnlyCalls, Mailable, DigestOf, Tainted, TurnRun, EmailRun, NotStarted;
    var check, check' := if checked then Some(1) else None, if checked then Some(SecondCount(r, r')) else None;
    var d2 := FirstStep(cfg, c, k, r, check);
    var i :| 0 <= i < |d2.log| && EventKeyOf(d2.log[i]) == EmailResult(KeyOf(c)) && d2.log[i].step == 1;
    SameDigest(r.calls, r'.calls);
    d := TurnPasses(cfg, [Create] + TurnRun(1, 0, k, r, check) + EmailRun(1, c), d2, k', r', check');
    ProgressLeft(cfg, d.log);
    SecondStuck(cfg, d2, d, c, c', i);
  }

  lemma ProgressLeft(cfg: Config, log: seq<Event>)
    requires LatestProgress(log).Some? ==> LatestProgress(log).value.repeats < cfg.progressLimit
    ensures !NoProgress(cfg, log)
  {
  }

  // ----- a start after a result -----

  // The commits of a second batch of a call x that is no email and an email the
  // first step answered: x runs, the email is known, and its result is already
  // in the log; then the email alone is recovered and announced anew.
  function PairRun(x: Call, exec: Exec, c: Call, known: Exec): seq<Commit> {
    [Log(Started(2, 0, x)), Log(Started(2, 1, c)), Record(x, exec), Log(Result(2, 0, ResultOf(x, exec))),
     Log(Result(2, 1, ResultOf(c, known))), EndBatch, Recover, Log(Started(2, 0, c))]
  }

  // Announced, executed and answered, a batch of the two.
  lemma PairPasses(cfg: Config, commits: seq<Commit>, d: Durable, x: Call, exec: Exec, c: Call, i: nat) returns (d': Durable)
    requires At(cfg, commits, d) && x.tool != SendEmail && c.tool == SendEmail && KeyOf(c) in d.execs && NotStarted(d.log, 2)
    requires d.row == Row(RunningTools, 2, [x, c]) && 2 < cfg.maxSteps && !NoProgress(cfg, d.log)
    requires i < |d.log| && EventKeyOf(d.log[i]) == EmailResult(KeyOf(c)) && d.log[i].step == 1
    ensures var known := d.execs[KeyOf(c)];
      At(cfg, commits + PairRun(x, exec, c, known)[..6], d') && d'.row == Row(CallingLlm, 2, [])
    ensures d.log <= d'.log && !NoProgress(cfg, d'.log)
    ensures Logged(d'.log, ResultSlot(2, 0, KeyOf(x))) && !Logged(d'.log, StartSlot(2, 0, KeyOf(c)))
  {
    hide Runs, Inv, Apply, Enabled, Logged, Insert, LatestProgress, CostSoFar, MayLog, AllStarted, AllExecuted, AllResulted, NoProgress,
         Tainted, KeyOf, EventKeyOf, NotStarted;
    var known := d.execs[KeyOf(c)];
    var e0, e1 := Started(2, 0, x), Started(2, 1, c);
    PairStarts(cfg, d, x, c);
    LogStep(cfg, commits, d, e0);
    var d1 := Logging(d, e0);
    SameProgress(cfg, d.log, d1.log);
    PairStarts(cfg, d1, x, c);
    LogStep(cfg, commits + [Log(e0)], d1, e1);
    var d2 := Logging(d1, e1);
    SameProgress(cfg, d1.log, d2.log);
    PairStarted(d.log, x, c);
    var d3 := PairRecorded(cfg, commits + [Log(e0)] + [Log(e1)], d2, x, exec, c);
    var r0, r1 := Result(2, 0, ResultOf(x, exec)), Result(2, 1, ResultOf(c, known));
    ResultMay(cfg, d3, 0, ResultOf(x, exec));
    LogStep(cfg, commits + [Log(e0)] + [Log(e1)] + [Record(x, exec)], d3, r0);
    var d4 := Logging(d3, r0);
    SameProgress(cfg, d3.log, d4.log);
    StartsStay(d3.log, r0, x, c);
    ResultMay(cfg, d4, 1, ResultOf(c, known));
    LogStep(cfg, commits + [Log(e0)] + [Log(e1)] + [Record(x, exec)] + [Log(r0)], d4, r1);
    var d5 := Logging(d4, r1);
    SameProgress(cfg, d4.log, d5.log);
    StartsStay(d4.log, r1, x, c);
    PairResulted(d3.log, x, exec, c, known);
    PairEnds(cfg, d5, x, c);
    Step(cfg, commits + [Log(e0)] + [Log(e1)] + [Record(x, exec)] + [Log(r0)] + [Log(r1)], d5, EndBatch);
    d' := Ended(d5);
    assert commits + [Log(e0)] + [Log(e1)] + [Record(x, exec)] + [Log(r0)] + [Log(r1)] + [EndBatch]
      == commits + PairRun(x, exec, c, known)[..6];
  }

  lemma PairStarts(cfg: Config, d: Durable, x: Call, c: Call)
    requires d.row == Row(RunningTools, 2, [x, c]) && 2 < cfg.maxSteps && !NoProgress(cfg, d.log)
    ensures MayLog(cfg, d, Started(2, 0, x)) && MayLog(cfg, d, Started(2, 1, c)) && Executing(cfg, d)
    ensures EventKeyOf(Started(2, 0, x)) != NoKey && EventKeyOf(Started(2, 1, c)) != NoKey
  {
  }

  // Both starts are in, and none of the email at the first place.
  lemma PairStarted(log: seq<Event>, x: Call, c: Call)
    requires NotStarted(log, 2) && x.tool != SendEmail && c.tool == SendEmail
    ensures var log' := Insert(Insert(log, Started(2, 0, x)), Started(2, 1, c));
      AllStarted(log', 2, [x, c]) && !Logged(log', StartSlot(2, 0, KeyOf(c)))
  {
    var log1 := Insert(log, Started(2, 0, x));
    InsertKeeps(log, Started(2, 0, x));
    InsertKeeps(log1, Started(2, 1, c));
    NotLogged(log, KeyOf(c));
    LoggedAppend(log, Started(2, 0, x), StartSlot(2, 0, KeyOf(c)));
    LoggedAppend(log1, Started(2, 1, c), StartSlot(2, 0, KeyOf(c)));
    hide Logged, Insert;
  }

  lemma NotLogged(log: seq<Event>, key: Key)
    requires NotStarted(log, 2)
    ensures !Logged(log, StartSlot(2, 0, key))
  {
  }

  lemma PairRecorded(cfg: Config, commits: seq<Commit>, d: Durable, x: Call, exec: Exec, c: Call) returns (d': Durable)
    requires At(cfg, commits, d) && d.row == Row(RunningTools, 2, [x, c]) && 2 < cfg.maxSteps && !NoProgress(cfg, d.log)
    requires x.tool != SendEmail && c.tool == SendEmail && KeyOf(c) in d.execs && AllStarted(d.log, 2, [x, c])
    ensures At(cfg, commits + [Record(x, exec)], d') && d' == d.(execs := d.execs[KeyOf(x) := exec])
    ensures AllExecuted(d'.execs, [x, c]) && d'.execs[KeyOf(c)] == d.execs[KeyOf(c)]
  {
    hide Runs, Inv, AllStarted, NoProgress;
    RecordAllowed(cfg, d, x, exec);
    Step(cfg, commits, d, Record(x, exec));
    d' := Recorded(d, x, exec);
  }

  lemma ResultMay(cfg: Config, d: Durable, i: nat, r: ToolResult)
    requires d.row.status == RunningTools && |d.row.pending| == 2 && d.row.step == 2 < cfg.maxSteps && !NoProgress(cfg, d.log)
    requires AllStarted(d.log, 2, d.row.pending) && AllExecuted(d.execs, d.row.pending) && i < 2
    requires r.key == KeyOf(d.row.pending[i]) && r.tool == d.row.pending[i].tool
    ensures MayLog(cfg, d, Result(2, i, r)) && EventKeyOf(Result(2, i, r)) != NoKey
  {
  }

  lemma StartsStay(log: seq<Event>, e: Event, x: Call, c: Call)
    requires AllStarted(log, 2, [x, c]) && e.Result? && EventKeyOf(e) != NoKey
    ensures AllStarted(Insert(log, e), 2, [x, c])
    ensures Logged(Insert(log, e), StartSlot(2, 0, KeyOf(c))) <==> Logged(log, StartSlot(2, 0, KeyOf(c)))
  {
    hide Logged, Insert;
    InsertKeeps(log, e);
    LoggedAppend(log, e, StartSlot(2, 0, KeyOf(c)));
  }

  lemma PairResulted(log: seq<Event>, x: Call, exec: Exec, c: Call, known: Exec)
    requires x.tool != SendEmail && c.tool == SendEmail
    ensures var log' := Insert(Insert(log, Result(2, 0, ResultOf(x, exec))), Result(2, 1, ResultOf(c, known)));
      AllResulted(log', 2, [x, c]) && Logged(log', ResultSlot(2, 0, KeyOf(x)))
  {
    hide Logged, Insert;
    InsertKeeps(log, Result(2, 0, ResultOf(x, exec)));
    InsertKeeps(Insert(log, Result(2, 0, ResultOf(x, exec))), Result(2, 1, ResultOf(c, known)));
  }

  lemma PairEnds(cfg: Config, d: Durable, x: Call, c: Call)
    requires d.row == Row(RunningTools, 2, [x, c]) && 2 < cfg.maxSteps && !NoProgress(cfg, d.log)
    requires AllStarted(d.log, 2, [x, c]) && AllExecuted(d.execs, [x, c]) && AllResulted(d.log, 2, [x, c])
    ensures Enabled(cfg, d, EndBatch) && Apply(cfg, d, EndBatch) == Ended(d)
  {
    BatchEnds(cfg, d);
  }

  // Only the email is left to recover.
  lemma EmailLeft(cfg: Config, d: Durable, x: Call, c: Call, i: nat)
    requires Inv(cfg, d) && Live(d.row) && Latest(d.log, KParsed, 2) == Some(Parsed(2, [x, c])) && c.tool == SendEmail
    requires Logged(d.log, ResultSlot(2, 0, KeyOf(x)))
    requires i < |d.log| && EventKeyOf(d.log[i]) == EmailResult(KeyOf(c)) && d.log[i].step == 1
    ensures RecoverCalls(d.log, 2) == [c]
  {
    hide LogOk, StepsClosed, RowOk, CostOk, ExecsOk, Latest, CompletedKeys;
    ResultedCompleted(d.log, 2, 0, KeyOf(x));
    RepeatedUncompleted(cfg, d.log, 2, KeyOf(c), i);
    var keys := CompletedKeys(d.log, 2);
    assert [x, c][1..] == [c] && [c][1..] == [];
    assert Missing([], keys) == [] && Missing([c], keys) == [c] && Missing([x, c], keys) == [c];
  }

  // Recovered alone, the email is announced at the first place of its step,
  // after the result of the call that stood there.
  lemma OutOfOrderReachable(
    cfg: Config, c: Call, k: nat, r: Response, x: Call, exec: Exec, c': Call, k': nat, r': Response) returns (d: Durable, known: Exec)
    requires c.tool == SendEmail && c'.tool == SendEmail && KeyOf(c) == KeyOf(c') && x.tool != SendEmail
    requires OnlyCalls(r) && r.calls == [c] && OnlyCalls(r') && r'.calls == [x, c']
    requires cfg.maxSteps > 2 && cfg.progressLimit > 1 && k + r.tokens + k' + r'.tokens <= cfg.costBudget
    ensures Runs(cfg, Initial(), [Create] + TurnRun(1, 0, k, r, Some(1)) + EmailRun(1, c)
      + TurnRun(2, k + r.tokens, k', r', Some(1)) + PairRun(x, exec, c', known)) == Some(d)
    ensures StartAfterResult(d.log, 0, 2) && Logged(d.log, StartSlot(2, 0, KeyOf(c')))
  {
    hide Runs, Inv, CanBegin, NoProgress, LatestProgress, CostSoFar, Latest, NextStep, Logged, CompletedKeys, OnlyCalls, Mailable,
         DigestOf, Tainted, TurnRun, EmailRun, NotStarted, RecoverCalls, KeyOf;
    var d2 := FirstStep(cfg, c, k, r, Some(1));
    var i :| 0 <= i < |d2.log| && EventKeyOf(d2.log[i]) == EmailResult(KeyOf(c)) && d2.log[i].step == 1;
    var one := [Create] + TurnRun(1, 0, k, r, Some(1)) + EmailRun(1, c);
    OtherDigest(r, r');
    var d3 := TurnPasses(cfg, one, d2, k', r', Some(1));
    var two := one + TurnRun(2, k + r.tokens, k', r', Some(1));
    ProgressLeft(cfg, d3.log);
    known := d3.execs[KeyOf(c')];
    var d4 := PairPasses(cfg, two, d3, x, exec, c', i);
    KeepsParsed(cfg, d3, d4, 2);
    EmailLeft(cfg, d4, x, c', i);
    d := RecoveredStarts(cfg, two + PairRun(x, exec, c', known)[..6], d4, x, c');
    assert two + PairRun(x, exec, c', known)[..6] + [Recover, Log(Started(2, 0, c'))] == two + PairRun(x, exec, c', known);
  }

  lemma OtherDigest(r: Response, r': Response)
    requires |r.calls| == 1 && |r'.calls| == 2
    ensures Counted(Some(CheckOf(1, r, 1)), 2, DigestOf(r'.calls)) == 1
  {
    assert |DigestOf(r.calls)| == 1 && |DigestOf(r'.calls)| == 2;
  }

  lemma RecoveredStarts(cfg: Config, commits: seq<Commit>, d: Durable, x: Call, c: Call) returns (d': Durable)
    requires At(cfg, commits, d) && d.row == Row(CallingLlm, 2, []) && 2 < cfg.maxSteps && !NoProgress(cfg, d.log)
    requires RecoverCalls(d.log, 2) == [c] && Logged(d.log, ResultSlot(2, 0, KeyOf(x))) && !Logged(d.log, StartSlot(2, 0, KeyOf(c)))
    ensures At(cfg, commits + [Recover, Log(Started(2, 0, c))], d')
    ensures StartAfterResult(d'.log, 0, 2) && Logged(d'.log, StartSlot(2, 0, KeyOf(c)))
  {
    hide Runs, Inv, NoProgress, LatestProgress, CostSoFar, Tainted, RecoverCalls, Logged;
    var e := Started(2, 0, c);
    Step(cfg, commits, d, Recover);
    var d1 := Recovered(d);
    LogStep(cfg, commits + [Recover], d1, e);
    d' := Logging(d1, e);
    InsertKeeps(d.log, e);
    assert commits + [Recover] + [Log(e)] == commits + [Recover, Log(e)];
    SlotHolds(d.log, KeyOf(x), e);
  }

  lemma SlotHolds(log: seq<Event>, key: Key, e: Event)
    requires Logged(log, ResultSlot(2, 0, key)) && e.Started? && e.step == 2
    ensures StartAfterResult(log + [e], 0, 2)
  {
    var i :| 0 <= i < |log| && EventKeyOf(log[i]) == ResultSlot(2, 0, key);
    assert (log + [e])[i] == log[i] && (log + [e])[|log|] == e;
  }

  // ----- a log that cannot be replayed -----

  // The request of a run, if it does not fit the token budget alone, makes the
  // log unreadable with the run's first commit.
  lemma OversizeRequest(s: Script, budget: nat)
    requires MessageTokens(Message(User, s.request)) > budget
    ensures !AllFit(s, Created(Initial()).log, budget)
  {
    hide MessageTokens;
    assert Created(Initial()).log[0] == RunStarted(0);
    assert !FitsAlone(s, Created(Initial()).log[0], budget);
  }

  // A text of the model that does not fit the token budget alone does so if
  // the process is killed once the text is logged.
  lemma OversizeReachable(cfg: Config, s: Script, budget: nat, k: nat, r: Response) returns (d: Durable)
    requires r.text != "" && MessageTokens(Message(Assistant, r.text)) > budget
    ensures Runs(cfg, Initial(), [Create, Begin, Log(StepStart(1, 0)), Log(Request(1, k)), Log(Responded(1, r)), Log(Said(1, r.text))])
      == Some(d)
    ensures Live(d.row) && !AllFit(s, d.log, budget)
  {
    hide Runs, Inv, CanBegin, LatestProgress, CostSoFar, Latest, NextStep, CompletedKeys, MessageTokens, MayLog, Logged, Tainted;
    FreshBegins(cfg);
    var d1 := Asks(cfg, [Create], Created(Initial()), k, r);
    var e := Said(1, r.text);
    HeardIdle(d1, 1, r);
    TextMayCome(cfg, d1, r);
    var before := [Create] + [Begin, Log(StepStart(1, 0)), Log(Request(1, k)), Log(Responded(1, r))];
    LogStep(cfg, before, d1, e);
    InsertKeeps(d1.log, e);
    d := Logging(d1, e);
    assert before + [Log(e)]
      == [Create, Begin, Log(StepStart(1, 0)), Log(Request(1, k)), Log(Responded(1, r)), Log(Said(1, r.text))];
    TooLarge(s, d.log, e, budget);
  }

  lemma TextMayCome(cfg: Config, d: Durable, r: Response)
    requires Heard(d, d.row.step, r) && r.text != ""
    ensures MayLog(cfg, d, Said(d.row.step, r.text)) && Live(d.row)
  {
  }

  lemma TooLarge(s: Script, log: seq<Event>, e: Event, budget: nat)
    requires Logged(log, EventKeyOf(e)) && e.Said? && MessageTokens(Message(Assistant, e.text)) > budget
    ensures !AllFit(s, log, budget)
  {
    hide MessageTokens;
    var i :| 0 <= i < |log| && EventKeyOf(log[i]) == EventKeyOf(e);
    assert log[i] == e && !FitsAlone(s, log[i], budget);
  }
}
