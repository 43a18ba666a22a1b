// The durable protocol: the state that survives a kill, and every commit a
// live process may make on it.  A commit is guarded by durable facts only, so
// a crash is simply a point after which the next process goes on committing.
module Protocol {
  import opened Events

  type positive = n: nat | n > 0 witness 1

  // The configured limits, validated to be positive and fixed for a run.
  datatype Config = Config(maxSteps: positive, costBudget: positive, progressLimit: positive)

  datatype Status = NoRow | Fresh | CallingLlm | RunningTools | Done

  // The row of the runs table.
  datatype Row = Row(status: Status, step: nat, pending: seq<Call>)

  datatype ExecStatus = ExecCompleted | ExecFailed | ExecBlocked

  // The outcome in a row of the tool_executions table; an empty error is none.
  datatype Exec = Exec(status: ExecStatus, body: string, error: string)

  predicate ExecOk(e: Exec) { e.status == ExecCompleted && e.error == "" }

  // A row of the sent_emails table.
  datatype Sent = Sent(to: string, subject: string, body: string)

  datatype Durable = Durable(row: Row, log: seq<Event>, execs: map<Key, Exec>, emails: map<Key, Sent>)

  function Initial(): Durable { Durable(Row(NoRow, 0, []), [], map[], map[]) }

  predicate Live(row: Row) { !row.status.NoRow? && !row.status.Done? }

  // ----- facts about the log and the tables that guards are made of -----

  predicate AllStarted(log: seq<Event>, step: nat, calls: seq<Call>) {
    forall i :: 0 <= i < |calls| ==> Logged(log, StartSlot(step, i, KeyOf(calls[i])))
  }

  // The text and the parse errors of a response are in the log.
  predicate Voiced(log: seq<Event>, step: nat, r: Response) {
    (r.text != "" ==> Logged(log, Content(Said(step, r.text))))
    && forall i :: 0 <= i < |r.errors| ==> Logged(log, Content(ParseFailed(step, i, r.errors[i])))
  }

  predicate AllResulted(log: seq<Event>, step: nat, calls: seq<Call>) {
    forall i :: 0 <= i < |calls| ==> Logged(log, ResultKey(step, i, calls[i].tool, KeyOf(calls[i])))
  }

  predicate AllExecuted(execs: map<Key, Exec>, calls: seq<Call>) {
    forall i :: 0 <= i < |calls| ==> KeyOf(calls[i]) in execs
  }

  predicate OthersSucceeded(execs: map<Key, Exec>, calls: seq<Call>) {
    forall i :: 0 <= i < |calls| && calls[i].tool != SendEmail ==>
      KeyOf(calls[i]) in execs && ExecOk(execs[KeyOf(calls[i])])
  }

  predicate NoProgress(cfg: Config, log: seq<Event>) {
    LatestProgress(log).Some? && LatestProgress(log).value.repeats >= cfg.progressLimit
  }

  // The charge of a step is recorded and stays within the budget.
  predicate Paid(cfg: Config, log: seq<Event>, step: nat) {
    Latest(log, KCharge, step).Some? && Latest(log, KCharge, step).value.total <= cfg.costBudget
  }

  // The batch of a step is parsed and every call of it has its result there.
  predicate Closed(log: seq<Event>, step: nat) {
    Latest(log, KParsed, step).Some? && RecoverCalls(log, step) == []
  }

  function Repeats(log: seq<Event>, step: nat, digest: Digest): nat {
    var previous := LatestProgressBefore(log, step);
    if previous.Some? && previous.value.digest == digest && previous.value.repeats > 0
    then previous.value.repeats + 1 else 1
  }

  function NextStep(row: Row, log: seq<Event>): nat {
    if row.step > 0 && Latest(log, KResponse, row.step).None? then row.step else row.step + 1
  }

  // ----- commits -----

  datatype Commit =
    | Create
    | Begin
    | Log(event: Event)
    | Parse
    | Recover
    | Record(call: Call, exec: Exec)
    | Send(call: Call)
    | EndBatch
    | Finish(reason: Reason)

  // A process is between batches: nothing is pending or recoverable.
  predicate Idle(cfg: Config, d: Durable) {
    Live(d.row) && d.row.pending == [] && d.row.step < cfg.maxSteps && RecoverCalls(d.log, d.row.step) == []
    && !NoProgress(cfg, d.log)
  }

  predicate Executing(cfg: Config, d: Durable) {
    d.row.status == RunningTools && d.row.pending != [] && d.row.step < cfg.maxSteps && !NoProgress(cfg, d.log)
  }

  predicate AwaitingModel(d: Durable) {
    d.row.status == CallingLlm && d.row.pending == [] && d.row.step > 0
    && Latest(d.log, KResponse, d.row.step).None?
  }

  predicate Responding(d: Durable) {
    Live(d.row) && d.row.pending == [] && d.row.step > 0
    && Latest(d.log, KResponse, d.row.step).Some? && Latest(d.log, KParsed, d.row.step).None?
  }

  predicate MayLog(cfg: Config, d: Durable, e: Event) {
    var t := d.row.step;
    Live(d.row) && t > 0 && e.step == t &&
    match e
    case StepStart(_, total) => AwaitingModel(d) && total == CostSoFar(d.log)
    case Request(_, _) => AwaitingModel(d)
    case Responded(_, _) => AwaitingModel(d) && Latest(d.log, KRequest, t).Some?
    case Said(_, text) =>
      Responding(d) && Latest(d.log, KCharge, t).None? && text == Latest(d.log, KResponse, t).value.response.text
    case ParseFailed(_, i, error) =>
      Responding(d) && Latest(d.log, KCharge, t).None? && i < |Latest(d.log, KResponse, t).value.response.errors|
      && error == Latest(d.log, KResponse, t).value.response.errors[i]
    case Charged(_, cost, total) =>
      Responding(d) && Latest(d.log, KCharge, t).None? && total == CostSoFar(d.log) + cost
      && Voiced(d.log, t, Latest(d.log, KResponse, t).value.response)
    case PartialTurn(_) =>
      Responding(d) && Paid(cfg, d.log, t) && Latest(d.log, KResponse, t).value.response.Incomplete()
    case Contradicted(_) =>
      Accepted(cfg, d) && Latest(d.log, KResponse, t).value.response.calls == []
    case ProgressCheck(_, digest, repeats) =>
      d.row.status == RunningTools && Latest(d.log, KParsed, t).Some?
      && d.row.pending == Latest(d.log, KParsed, t).value.calls
      && digest == DigestOf(d.row.pending) && repeats == Repeats(d.log, t, digest)
      && (forall i :: 0 <= i < |d.log| && d.log[i].step == t ==> !d.log[i].Started? && !d.log[i].ProgressCheck?)
    case Started(_, i, call) => Executing(cfg, d) && i < |d.row.pending| && call == d.row.pending[i]
    case Result(_, i, r) =>
      Executing(cfg, d) && i < |d.row.pending| && r.key == KeyOf(d.row.pending[i]) && r.tool == d.row.pending[i].tool
      && AllStarted(d.log, t, d.row.pending) && AllExecuted(d.execs, d.row.pending)
    case StepLimit(_) => t >= cfg.maxSteps
    case RunStarted(_) => false
    case Parsed(_, _) => false
    case Finished(_, _) => false
  }

  predicate CanBegin(cfg: Config, d: Durable) {
    Idle(cfg, d) && ResponseToProcess(d.log, d.row.step).None?
  }

  // The recorded response is complete and paid for.
  predicate Accepted(cfg: Config, d: Durable) {
    Responding(d) && Paid(cfg, d.log, d.row.step)
    && !Latest(d.log, KResponse, d.row.step).value.response.Incomplete()
  }

  predicate CanParse(cfg: Config, d: Durable) {
    Accepted(cfg, d) && Latest(d.log, KResponse, d.row.step).value.response.calls != []
  }

  predicate CanRecover(cfg: Config, d: Durable) {
    Live(d.row) && d.row.pending == [] && d.row.step < cfg.maxSteps && RecoverCalls(d.log, d.row.step) != []
    && !NoProgress(cfg, d.log)
  }

  predicate CanRecord(cfg: Config, d: Durable, call: Call, exec: Exec) {
    Executing(cfg, d) && call in d.row.pending
    && AllStarted(d.log, d.row.step, d.row.pending)
    && (call.tool == SendEmail ==> KeyOf(call) !in d.execs && exec.status != ExecCompleted)
  }

  predicate Mailable(args: Args) { args.to.Text? && args.subject.Text? && args.body.Text? }

  predicate CanSend(cfg: Config, d: Durable, call: Call) {
    Executing(cfg, d) && call in d.row.pending && call.tool == SendEmail && KeyOf(call) !in d.execs
    && Mailable(call.args) && AllStarted(d.log, d.row.step, d.row.pending)
    && OthersSucceeded(d.execs, d.row.pending) && !Tainted(d.log)
  }

  predicate CanEndBatch(cfg: Config, d: Durable) {
    Executing(cfg, d) && AllStarted(d.log, d.row.step, d.row.pending) && AllExecuted(d.execs, d.row.pending)
    && AllResulted(d.log, d.row.step, d.row.pending)
  }

  predicate CanFinish(cfg: Config, d: Durable, reason: Reason) {
    Live(d.row) && d.row.step > 0
    && (reason == StepLimitReached ==> d.row.step >= cfg.maxSteps)
    && (reason == Completed ==> Accepted(cfg, d) && Latest(d.log, KResponse, d.row.step).value.response.calls == [])
  }

  predicate Enabled(cfg: Config, d: Durable, c: Commit) {
    match c
    case Create => d.row.status == NoRow
    case Begin => CanBegin(cfg, d)
    case Log(e) => MayLog(cfg, d, e)
    case Parse => CanParse(cfg, d)
    case Recover => CanRecover(cfg, d)
    case Record(call, exec) => CanRecord(cfg, d, call, exec)
    case Send(call) => CanSend(cfg, d, call)
    case EndBatch => CanEndBatch(cfg, d)
    case Finish(reason) => CanFinish(cfg, d, reason)
  }

  // ----- what each commit leaves -----

  function Created(d: Durable): Durable { d.(row := Row(Fresh, 0, []), log := d.log + [RunStarted(0)]) }

  function Begun(d: Durable): Durable { d.(row := Row(CallingLlm, NextStep(d.row, d.log), d.row.pending)) }

  function Logging(d: Durable, e: Event): Durable { d.(log := Insert(d.log, e)) }

  function Parsing(d: Durable): Durable
    requires Responding(d)
  {
    var calls := Latest(d.log, KResponse, d.row.step).value.response.calls;
    d.(row := Row(RunningTools, d.row.step, calls), log := Insert(d.log, Parsed(d.row.step, calls)))
  }

  function Recovered(d: Durable): Durable {
    d.(row := Row(RunningTools, d.row.step, RecoverCalls(d.log, d.row.step)))
  }

  function Recorded(d: Durable, call: Call, exec: Exec): Durable { d.(execs := d.execs[KeyOf(call) := exec]) }

  function SentOf(args: Args): Sent
    requires Mailable(args)
  {
    Sent(args.to.text, args.subject.text, args.body.text)
  }

  function Mailed(d: Durable, call: Call): Durable
    requires Mailable(call.args)
  {
    var k := KeyOf(call);
    d.(emails := if k in d.emails then d.emails else d.emails[k := SentOf(call.args)],
       execs := d.execs[k := Exec(ExecCompleted, "queued", "")])
  }

  function Ended(d: Durable): Durable { d.(row := Row(CallingLlm, d.row.step, [])) }

  function Finishing(d: Durable, reason: Reason): Durable {
    d.(row := Row(Done, d.row.step, []), log := Insert(d.log, Finished(d.row.step, reason)))
  }

  function Apply(cfg: Config, d: Durable, c: Commit): Durable
    requires Enabled(cfg, d, c)
  {
    match c
    case Create => Created(d)
    case Begin => Begun(d)
    case Log(e) => Logging(d, e)
    case Parse => Parsing(d)
    case Recover => Recovered(d)
    case Record(call, exec) => Recorded(d, call, exec)
    case Send(call) => Mailed(d, call)
    case EndBatch => Ended(d)
    case Finish(reason) => Finishing(d, reason)
  }

  // One transaction: it changes nothing, or it is one of the commits.
  ghost predicate Next(cfg: Config, d: Durable, d': Durable) {
    d' == d || exists c :: Enabled(cfg, d, c) && d' == Apply(cfg, d, c)
  }

  // A history of durable states: everything any number of processes, each
  // killed anywhere, may have left behind, one state per commit.
  ghost predicate Path(cfg: Config, h: seq<Durable>) {
    |h| > 0 && h[0] == Initial() && forall i :: 0 <= i < |h| - 1 ==> Next(cfg, h[i], h[i + 1])
  }
}
