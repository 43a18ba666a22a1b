// The main results about histories: they hold of every durable state that any
// number of processes, each killed between any two commits, can leave behind.
module History {
  import opened Events
  import opened Protocol
  import opened Invariant

  lemma {:induction false} PathInvariant(cfg: Config, h: seq<Durable>, i: nat)
    requires Path(cfg, h) && i < |h|
    ensures Inv(cfg, h[i])
  {
    if i > 0 {
      PathInvariant(cfg, h, i - 1);
      assert Next(cfg, h[i - 1], h[i - 1 + 1]);
      if h[i] != h[i - 1] {
        var c :| Enabled(cfg, h[i - 1], c) && h[i] == Apply(cfg, h[i - 1], c);
        NextKeeps(cfg, h[i - 1], c);
      }
    }
  }

  // ----- what only grows -----

  ghost predicate Later(d: Durable, d': Durable) {
    && d.log <= d'.log
    && d.row.step <= d'.row.step
    && (forall k :: k in d.emails ==> k in d'.emails && d'.emails[k] == d.emails[k])
    && (forall k :: k in d.execs && k.EmailKey? ==> k in d'.execs && d'.execs[k] == d.execs[k])
    && (d.row.status.Done? ==> d' == d)
  }

  lemma CommitLater(cfg: Config, d: Durable, c: Commit)
    requires Inv(cfg, d) && Enabled(cfg, d, c)
    ensures Later(d, Apply(cfg, d, c))
  {
  }

  lemma {:induction false} PathLater(cfg: Config, h: seq<Durable>, i: nat, j: nat)
    requires Path(cfg, h) && i <= j < |h|
    ensures Later(h[i], h[j])
    decreases j - i
  {
    hide Inv, Enabled, Apply;
    if i < j {
      PathLater(cfg, h, i, j - 1);
      assert Next(cfg, h[j - 1], h[j - 1 + 1]);
      if h[j] != h[j - 1] {
        var c :| Enabled(cfg, h[j - 1], c) && h[j] == Apply(cfg, h[j - 1], c);
        PathInvariant(cfg, h, j - 1);
        CommitLater(cfg, h[j - 1], c);
      }
    }
  }

  // ----- exactly-once email -----

  // Over any history: a logical email has at most one row, the row holds its
  // content, it stays, and it exists exactly when the email's execution is
  // recorded as completed; whatever outcome an email gets first is final; and
  // only the first batch of a run ever sends.
  lemma ExactlyOnceEmail(cfg: Config, h: seq<Durable>, i: nat, j: nat)
    requires Path(cfg, h) && i <= j < |h|
    ensures forall k :: k in h[i].emails ==> k in h[j].emails && h[j].emails[k] == h[i].emails[k]
    ensures forall k: Key :: k.EmailKey? && k in h[i].execs ==> k in h[j].execs && h[j].execs[k] == h[i].execs[k]
    ensures forall k :: k in h[j].emails <==> k in h[j].execs && k.EmailKey? && h[j].execs[k].status == ExecCompleted
    ensures forall k :: k in h[j].emails ==>
      k == EmailKey(Text(h[j].emails[k].to), Text(h[j].emails[k].subject), Text(h[j].emails[k].body))
    ensures forall k :: k in h[j].emails ==> Requested(h[j].log, 1, SendEmail, k)
  {
    PathLater(cfg, h, i, j);
    PathInvariant(cfg, h, j);
  }

  // Only a Send commit touches the sent emails.
  lemma EmailsChange(cfg: Config, d: Durable, d': Durable) returns (call: Call)
    requires Next(cfg, d, d') && d.emails != d'.emails
    ensures CanSend(cfg, d, call) && d' == Mailed(d, call)
  {
    var c :| Enabled(cfg, d, c) && d' == Apply(cfg, d, c);
    call := c.call;
  }

  lemma SendState(cfg: Config, d: Durable, call: Call)
    requires Inv(cfg, d) && CanSend(cfg, d, call)
    ensures d.row.step == 1 && Latest(d.log, KParsed, 1).Some? && KeyOf(call) !in d.emails
    ensures d.row.pending == Latest(d.log, KParsed, 1).value.calls
  {
    SendInFirstStep(cfg, d, call);
    PendingRequested(cfg, d, call);
    hide LogOk, Latest, Tainted, OthersSucceeded, AllStarted;
    assert ExecsOk(d);
  }

  lemma UntaintedLog(log: seq<Event>)
    requires !Tainted(log)
    ensures forall e :: e in log ==> !e.Result?
  {
  }

  // The commit that sends an email happens in step 1, before any tool result
  // is logged, with its content unsent so far, and when every other call of
  // the batch that is no email is recorded as completed without error.
  lemma SendMoment(cfg: Config, h: seq<Durable>, i: nat) returns (call: Call)
    requires Path(cfg, h) && i + 1 < |h| && h[i].emails != h[i + 1].emails
    ensures h[i].row.step == 1 && (forall e :: e in h[i].log ==> !e.Result?) && Latest(h[i].log, KParsed, 1).Some?
    ensures forall c :: c in Latest(h[i].log, KParsed, 1).value.calls && c.tool != SendEmail ==>
      KeyOf(c) in h[i].execs && h[i].execs[KeyOf(c)].status == ExecCompleted && h[i].execs[KeyOf(c)].error == ""
    ensures call in Latest(h[i].log, KParsed, 1).value.calls && call.tool == SendEmail
    ensures call.args.to.Text? && call.args.subject.Text? && call.args.body.Text?
    ensures KeyOf(call) !in h[i].execs && KeyOf(call) !in h[i].emails
    ensures h[i + 1].emails ==
      h[i].emails[KeyOf(call) := Sent(call.args.to.text, call.args.subject.text, call.args.body.text)]
  {
    hide Path, Inv, Latest, Enabled, Next, Tainted;
    PathInvariant(cfg, h, i);
    PathStep(cfg, h, i);
    call := EmailsChange(cfg, h[i], h[i + 1]);
    SendState(cfg, h[i], call);
    UntaintedLog(h[i].log);
  }

  lemma PathStep(cfg: Config, h: seq<Durable>, i: nat)
    requires Path(cfg, h) && i + 1 < |h|
    ensures Next(cfg, h[i], h[i + 1])
  {
    hide Next;
  }

  // ----- the grammar, read off positions -----

  lemma {:induction false} GrammarAt(cfg: Config, log: seq<Event>, q: nat)
    requires LogOk(cfg, log) && q < |log|
    ensures MayFollow(cfg, log[..q], log[q]) && LogOk(cfg, log[..q])
  {
    var p := log[..|log| - 1];
    if q < |log| - 1 {
      GrammarAt(cfg, p, q);
      assert p[..q] == log[..q];
    } else {
      assert p == log[..q];
    }
  }

  lemma LatestPosition(log: seq<Event>, kind: Kind, step: nat) returns (i: nat)
    requires Latest(log, kind, step).Some?
    ensures i < |log| && log[i] == Latest(log, kind, step).value
  {
    i :| 0 <= i < |log| && log[i] == Latest(log, kind, step).value;
  }

  lemma {:induction false} LatestInPrefix(cfg: Config, log: seq<Event>, q: nat, kind: Kind, step: nat)
    requires LogOk(cfg, log) && q <= |log| && kind != KOther && kind != KFinish
    requires Latest(log[..q], kind, step).Some?
    ensures Latest(log, kind, step) == Latest(log[..q], kind, step)
  {
    hide Latest;
    if q == |log| {
      assert log[..q] == log;
    } else {
      var p, e := log[..|log| - 1], log[|log| - 1];
      assert p[..q] == log[..q] && log == p + [e];
      LatestInPrefix(cfg, p, q, kind, step);
      LatestStable(p, e, kind, step);
    }
  }

  // No two events share a unique key.
  lemma KeysUnique(cfg: Config, log: seq<Event>, i: nat, j: nat)
    requires LogOk(cfg, log) && i < j < |log|
    ensures EventKeyOf(log[i]) != EventKeyOf(log[j])
  {
    GrammarAt(cfg, log, j);
    assert log[..j][i] == log[i];
  }

  // An event of this kind at this step stands exactly once in the log.
  ghost predicate ExactlyOne(log: seq<Event>, kind: Kind, step: nat) {
    exists i ::
      0 <= i < |log| && KindOf(log[i]) == kind && log[i].step == step
      && forall j :: 0 <= j < |log| && KindOf(log[j]) == kind && log[j].step == step ==> j == i
  }

  lemma LatestExactlyOne(cfg: Config, log: seq<Event>, kind: Kind, step: nat)
    requires LogOk(cfg, log) && kind != KOther && kind != KFinish && Latest(log, kind, step).Some?
    ensures ExactlyOne(log, kind, step)
  {
    var i := LatestPosition(log, kind, step);
    forall j | 0 <= j < |log| && KindOf(log[j]) == kind && log[j].step == step ensures j == i {
      if i < j { KeysUnique(cfg, log, i, j); }
      if j < i { KeysUnique(cfg, log, j, i); }
    }
  }

  // ----- no call is lost, no step is skipped -----

  // Every step before the current one has exactly one request, response,
  // charge and parse, and a result at that very step for every parsed call.
  lemma NoCallLost(cfg: Config, h: seq<Durable>, j: nat, t: nat)
    requires Path(cfg, h) && j < |h| && 1 <= t < h[j].row.step
    ensures ExactlyOne(h[j].log, KRequest, t) && ExactlyOne(h[j].log, KResponse, t)
    ensures ExactlyOne(h[j].log, KCharge, t) && ExactlyOne(h[j].log, KParsed, t)
    ensures Latest(h[j].log, KParsed, t).Some? && ResponseIs(h[j].log, t, Latest(h[j].log, KParsed, t).value.calls)
    ensures forall c :: c in Latest(h[j].log, KParsed, t).value.calls ==>
      exists i :: 0 <= i < |h[j].log| && h[j].log[i].Result? && h[j].log[i].step == t && h[j].log[i].outcome.key == KeyOf(c)
  {
    PathInvariant(cfg, h, j);
    var log := h[j].log;
    assert Closed(log, t);
    ParsedPaid(cfg, log, t);
    ResponseRequested(cfg, log, t);
    LatestExactlyOne(cfg, log, KRequest, t);
    LatestExactlyOne(cfg, log, KResponse, t);
    LatestExactlyOne(cfg, log, KCharge, t);
    LatestExactlyOne(cfg, log, KParsed, t);
    var calls := Latest(log, KParsed, t).value.calls;
    MissingEmpty(calls, CompletedKeys(log, t));
    forall c | c in calls
      ensures exists i :: 0 <= i < |log| && log[i].Result? && log[i].step == t && log[i].outcome.key == KeyOf(c)
    {
      assert KeyOf(c) in CompletedKeys(log, t);
    }
  }

  lemma ResponseRequested(cfg: Config, log: seq<Event>, step: nat)
    requires LogOk(cfg, log) && Latest(log, KResponse, step).Some?
    ensures Latest(log, KRequest, step).Some?
  {
    var q := LatestPosition(log, KResponse, step);
    GrammarAt(cfg, log, q);
    LatestInPrefix(cfg, log, q, KRequest, step);
  }

  // The stages of a turn.  The events that open or end the run have none.
  function Stage(e: Event): nat {
    match e
    case StepStart(_, _) => 1
    case Request(_, _) => 1
    case Responded(_, _) => 2
    case Said(_, _) => 3
    case ParseFailed(_, _, _) => 3
    case Charged(_, _, _) => 4
    case PartialTurn(_) => 5
    case Contradicted(_) => 5
    case Parsed(_, _) => 5
    case ProgressCheck(_, _, _) => 6
    case Started(_, _, _) => 7
    case Result(_, _, _) => 8
    case _ => 0
  }

  // What a turn event at position p leaves known at the end of the log.
  lemma StageReached(cfg: Config, log: seq<Event>, p: nat)
    requires LogOk(cfg, log) && p < |log|
    ensures var t := log[p].step;
      && (Stage(log[p]) >= 2 ==> Latest(log, KResponse, t).Some?)
      && (Stage(log[p]) >= 4 ==> Latest(log, KCharge, t).Some?)
      && (Stage(log[p]) >= 6 ==> Latest(log, KParsed, t).Some?)
  {
    var t := log[p].step;
    GrammarAt(cfg, log, p);
    var pre := log[..p];
    if KindOf(log[p]) != KOther && Stage(log[p]) > 0 {
      assert log[p] in log;
      LatestComplete(log, KindOf(log[p]), t);
    }
    if Latest(pre, KResponse, t).Some? { LatestInPrefix(cfg, log, p, KResponse, t); }
    if Latest(pre, KCharge, t).Some? { LatestInPrefix(cfg, log, p, KCharge, t); }
    if Latest(pre, KParsed, t).Some? {
      LatestInPrefix(cfg, log, p, KParsed, t);
      ParsedPaid(cfg, log, t);
    }
  }

  lemma ResultShowsStart(cfg: Config, log: seq<Event>, step: nat) returns (i: nat)
    requires LogOk(cfg, log) && CompletedKeys(log, step) != {}
    ensures i < |log| && log[i].Started? && log[i].step == step
  {
    hide LogOk;
    ResultMeansStarted(cfg, log, step);
    ParsedNotEmpty(cfg, log, step);
    var first := Latest(log, KParsed, step).value.calls[0];
    assert Logged(log, StartSlot(step, 0, KeyOf(first)));
    i :| 0 <= i < |log| && EventKeyOf(log[i]) == StartSlot(step, 0, KeyOf(first));
  }

  // A turn event presupposes its earlier stages, which rules out going back.
  lemma NoWayBack(cfg: Config, log: seq<Event>, e: Event, p: nat)
    requires LogOk(cfg, log) && Opens(cfg, log, e) && Fits(cfg, log, e)
    requires p < |log| && log[p].step == e.step && 0 < Stage(e) < Stage(log[p])
    ensures log[p].Result? && e.Started? && RepeatsEmail(log, e.step)
  {
    hide Closed, LogOk, RepeatsEmail;
    var t := e.step;
    StageReached(cfg, log, p);
    if KindOf(e) != KOther { SlotTaken(log, KindOf(e), t); }
    if log[p].Result? {
      assert log[p].outcome.key in CompletedKeys(log, t);
      var i := ResultShowsStart(cfg, log, t);
    }
  }

  // Within a step the log goes request, response, text, charge, parse,
  // progress check, starts, results, across any number of crashes.  The one
  // exception is a start that follows a result, and it occurs only when the
  // batch repeats an email whose result an earlier step already logged.
  lemma StagesInOrder(cfg: Config, h: seq<Durable>, j: nat, p: nat, q: nat)
    requires Path(cfg, h) && j < |h| && p < q < |h[j].log|
    requires h[j].log[p].step == h[j].log[q].step && Stage(h[j].log[p]) > 0 && Stage(h[j].log[q]) > 0
    ensures Stage(h[j].log[p]) <= Stage(h[j].log[q])
      || (h[j].log[p].Result? && h[j].log[q].Started? && RepeatsEmail(h[j].log[..q], h[j].log[q].step))
  {
    PathInvariant(cfg, h, j);
    var log := h[j].log;
    GrammarAt(cfg, log, q);
    assert log[..q][p] == log[p];
    if Stage(log[q]) < Stage(log[p]) { NoWayBack(cfg, log[..q], log[q], p); }
  }

  lemma AllStartedBefore(cfg: Config, log: seq<Event>, q: nat)
    requires LogOk(cfg, log) && q < |log| && log[q].Result?
    ensures Latest(log, KParsed, log[q].step).Some?
    ensures AllStarted(log[..q], log[q].step, Latest(log, KParsed, log[q].step).value.calls)
  {
    GrammarAt(cfg, log, q);
    hide Opens, AllStarted, LogOk, NoProgress;
    LatestInPrefix(cfg, log, q, KParsed, log[q].step);
  }

  // Every result comes after a start of every call of its batch.
  lemma ResultsAfterAllStarts(cfg: Config, h: seq<Durable>, j: nat, q: nat, n: nat)
    returns (p: nat)
    requires Path(cfg, h) && j < |h| && q < |h[j].log| && h[j].log[q].Result?
    requires Latest(h[j].log, KParsed, h[j].log[q].step).Some?
      ==> n < |Latest(h[j].log, KParsed, h[j].log[q].step).value.calls|
    ensures Latest(h[j].log, KParsed, h[j].log[q].step).Some?
    ensures p < q && h[j].log[p].Started? && h[j].log[p].step == h[j].log[q].step && h[j].log[p].index == n
    ensures KeyOf(h[j].log[p].call) == KeyOf(Latest(h[j].log, KParsed, h[j].log[q].step).value.calls[n])
  {
    PathInvariant(cfg, h, j);
    var log, t := h[j].log, h[j].log[q].step;
    AllStartedBefore(cfg, log, q);
    hide Inv, Path;
    var key := StartSlot(t, n, KeyOf(Latest(log, KParsed, t).value.calls[n]));
    assert Logged(log[..q], key);
    p :| 0 <= p < |log[..q]| && EventKeyOf(log[..q][p]) == key;
  }

  // ----- the end of a run -----

  // A run is finished exactly when its log holds one end event, which is the
  // last event; from then on nothing is ever committed.
  lemma FinishedAbsorbing(cfg: Config, h: seq<Durable>, i: nat, j: nat)
    requires Path(cfg, h) && i <= j < |h|
    ensures h[i].row.status.Done? ==> h[j] == h[i] && h[i].row.pending == []
    ensures h[i].row.status.Done? <==> exists q :: 0 <= q < |h[i].log| && h[i].log[q].Finished?
    ensures forall p, q :: 0 <= p < |h[i].log| && 0 <= q < |h[i].log| && h[i].log[p].Finished? && h[i].log[q].Finished? ==> p == q
  {
    PathLater(cfg, h, i, j);
    PathInvariant(cfg, h, i);
    var log := h[i].log;
    forall p, q | 0 <= p < |log| && 0 <= q < |log| && log[p].Finished? && log[q].Finished? ensures p == q {
      if p < q { KeysUnique(cfg, log, p, q); }
      if q < p { KeysUnique(cfg, log, q, p); }
    }
    if h[i].row.status.Done? { assert log[|log| - 1].Finished?; }
  }

  lemma ParsedComplete(cfg: Config, log: seq<Event>, p: nat)
    requires LogOk(cfg, log) && p < |log| && log[p].Responded? && Latest(log, KParsed, log[p].step).Some?
    ensures !log[p].response.Incomplete()
  {
    hide LogOk;
    var t := log[p].step;
    ParsedPaid(cfg, log, t);
    var r := LatestPosition(log, KResponse, t);
    if r < p { KeysUnique(cfg, log, r, p); }
    if p < r { KeysUnique(cfg, log, p, r); }
  }

  // A turn that was cut off, and shows fewer calls than it announced or
  // announced none, never has its calls parsed, started or answered.
  lemma IncompleteNeverRuns(cfg: Config, h: seq<Durable>, j: nat, p: nat, q: nat)
    requires Path(cfg, h) && j < |h| && p < |h[j].log| && q < |h[j].log|
    requires var log := h[j].log;
      log[p].Responded? && log[q].step == log[p].step && log[p].response.partial
      && (log[p].response.expected.None? || |log[p].response.calls| < log[p].response.expected.value)
    ensures !h[j].log[q].Parsed? && !h[j].log[q].Started? && !h[j].log[q].Result? && !h[j].log[q].ProgressCheck?
  {
    hide LogOk, Inv, Path;
    PathInvariant(cfg, h, j);
    InvLog(cfg, h[j]);
    var log, t := h[j].log, h[j].log[p].step;
    if Latest(log, KParsed, t).Some? { ParsedComplete(cfg, log, p); assert false; }
    StageReached(cfg, log, q);
    if log[q].Parsed? {
      assert log[q] in log;
      LatestComplete(log, KParsed, t);
    }
  }

  // ----- the budget -----

  function CostSum(log: seq<Event>): nat {
    if log == [] then 0
    else CostSum(log[..|log| - 1]) + if log[|log| - 1].Charged? then log[|log| - 1].cost else 0
  }

  lemma {:induction false} CostIsSum(cfg: Config, log: seq<Event>)
    requires LogOk(cfg, log)
    ensures CostSoFar(log) == CostSum(log)
  {
    if log != [] { CostIsSum(cfg, log[..|log| - 1]); }
  }

  lemma {:induction false} CostSumMonotone(log: seq<Event>, p: nat)
    requires p <= |log|
    ensures CostSum(log[..p]) <= CostSum(log)
  {
    if p < |log| {
      assert log[..|log| - 1][..p] == log[..p];
      CostSumMonotone(log[..|log| - 1], p);
    } else {
      assert log[..p] == log;
    }
  }

  // Each charge brings the total to the sum of all costs so far, which is also
  // what a step starts with; a step is charged once; every charge but the last stays within the budget; and a
  // batch is parsed, started or answered only under a charge within it.
  lemma BudgetConserved(cfg: Config, h: seq<Durable>, j: nat, q: nat)
    requires Path(cfg, h) && j < |h| && q < |h[j].log|
    ensures h[j].log[q].Charged? ==> h[j].log[q].total == CostSum(h[j].log[..q + 1])
    ensures h[j].log[q].StepStart? ==> h[j].log[q].total == CostSum(h[j].log[..q])
    ensures h[j].log[q].Charged? ==> forall p :: 0 <= p < q && h[j].log[p].Charged? ==>
      h[j].log[p].total <= cfg.costBudget && h[j].log[p].step != h[j].log[q].step
    ensures Stage(h[j].log[q]) >= 5 ==> Paid(cfg, h[j].log, h[j].log[q].step)
  {
    hide LogOk, Inv, Path, CostSum, Paid;
    PathInvariant(cfg, h, j);
    var log := h[j].log;
    InvLog(cfg, h[j]);
    ChargeFits(cfg, log, q);
    if log[q].Charged? {
      ChargedTotal(cfg, log, q);
      ChargesBefore(cfg, log, q);
    }
    if Stage(log[q]) >= 5 { StagePaid(cfg, log, q); }
  }

  lemma ChargesBefore(cfg: Config, log: seq<Event>, q: nat)
    requires LogOk(cfg, log) && q < |log| && log[q].Charged?
    ensures forall p :: 0 <= p < q && log[p].Charged? ==>
      log[p].total <= cfg.costBudget && log[p].step != log[q].step
  {
    hide LogOk;
    forall p | 0 <= p < q && log[p].Charged? ensures log[p].total <= cfg.costBudget && log[p].step != log[q].step {
      KeysUnique(cfg, log, p, q);
      EarlierWithinBudget(cfg, log, p, q);
    }
  }

  lemma TotalFits(cfg: Config, p: seq<Event>, e: Event)
    requires Fits(cfg, p, e)
    ensures e.Charged? ==> CostSoFar(p) <= cfg.costBudget && e.total == CostSoFar(p) + e.cost
    ensures e.StepStart? ==> e.total == CostSoFar(p)
  {
    hide Latest, CostSoFar, Voiced, Paid, ResponseIs, Repeats;
  }

  lemma ChargeFits(cfg: Config, log: seq<Event>, q: nat)
    requires LogOk(cfg, log) && q < |log|
    ensures log[q].Charged? ==> CostSum(log[..q]) <= cfg.costBudget && log[q].total == CostSum(log[..q]) + log[q].cost
    ensures log[q].StepStart? ==> log[q].total == CostSum(log[..q])
  {
    hide LogOk, Opens, Fits, CostSum, CostSoFar;
    GrammarAt(cfg, log, q);
    CostIsSum(cfg, log[..q]);
    if q > 0 { TotalFits(cfg, log[..q], log[q]); }
  }

  lemma ChargedTotal(cfg: Config, log: seq<Event>, p: nat)
    requires LogOk(cfg, log) && p < |log| && log[p].Charged?
    ensures log[p].total == CostSum(log[..p + 1])
  {
    ChargeFits(cfg, log, p);
    hide LogOk;
    assert log[..p + 1][..p] == log[..p];
  }

  lemma EarlierWithinBudget(cfg: Config, log: seq<Event>, p: nat, q: nat)
    requires LogOk(cfg, log) && p < q < |log| && log[p].Charged? && log[q].Charged?
    ensures log[p].total <= cfg.costBudget
  {
    hide LogOk;
    ChargeFits(cfg, log, q);
    ChargedTotal(cfg, log, p);
    assert log[..q][..p + 1] == log[..p + 1];
    CostSumMonotone(log[..q], p + 1);
  }

  lemma StagePaid(cfg: Config, log: seq<Event>, q: nat)
    requires LogOk(cfg, log) && q < |log| && Stage(log[q]) >= 5
    ensures Paid(cfg, log, log[q].step)
  {
    GrammarAt(cfg, log, q);
    var t := log[q].step;
    if Latest(log[..q], KParsed, t).Some? { ParsedPaid(cfg, log[..q], t); }
    LatestInPrefix(cfg, log, q, KCharge, t);
  }

  // ----- progress -----

  // The digests of the batches that were checked for progress, in order.
  function Digests(log: seq<Event>): seq<Digest> {
    if log == [] then []
    else Digests(log[..|log| - 1]) + if log[|log| - 1].ProgressCheck? then [log[|log| - 1].digest] else []
  }

  // How many times the last element is repeated at the end.
  function TailRun(s: seq<Digest>): nat {
    if s == [] then 0
    else if |s| > 1 && s[|s| - 2] == s[|s| - 1] then TailRun(s[..|s| - 1]) + 1
    else 1
  }

  lemma {:induction false} BeforeIsLatest(log: seq<Event>, step: nat)
    requires forall i :: 0 <= i < |log| && log[i].ProgressCheck? ==> log[i].step < step
    ensures LatestProgressBefore(log, step) == LatestProgress(log)
  {
    if log != [] && !log[|log| - 1].ProgressCheck? { BeforeIsLatest(log[..|log| - 1], step); }
  }

  lemma CheckCounts(cfg: Config, p: seq<Event>, e: Event)
    requires LogOk(cfg, p) && MayFollow(cfg, p, e) && e.ProgressCheck?
    ensures e.repeats == match LatestProgress(p)
      case None => 1
      case Some(c) => if c.digest == e.digest && c.repeats > 0 then c.repeats + 1 else 1
  {
    hide LogOk, Closed;
    forall i | 0 <= i < |p| && p[i].ProgressCheck? ensures p[i].step < e.step { StepsBounded(cfg, p, i); }
    BeforeIsLatest(p, e.step);
  }

  lemma {:induction false} RepeatsCount(cfg: Config, log: seq<Event>)
    requires LogOk(cfg, log)
    ensures LatestProgress(log).None? <==> Digests(log) == []
    ensures LatestProgress(log).Some? ==>
      Digests(log)[|Digests(log)| - 1] == LatestProgress(log).value.digest
      && LatestProgress(log).value.repeats == TailRun(Digests(log))
  {
    hide MayFollow;
    if log != [] {
      var p, e := log[..|log| - 1], log[|log| - 1];
      RepeatsCount(cfg, p);
      if e.ProgressCheck? {
        CheckCounts(cfg, p, e);
        TailRunGrows(Digests(p), e.digest);
        assert Digests(log) == Digests(p) + [e.digest];
      } else {
        assert Digests(log) == Digests(p);
      }
    }
  }

  lemma TailRunGrows(s: seq<Digest>, d: Digest)
    ensures TailRun(s + [d]) == if s != [] && s[|s| - 1] == d then TailRun(s) + 1 else 1
    ensures s != [] ==> TailRun(s) > 0
  {
    assert (s + [d])[..|s|] == s;
  }

  lemma {:induction false} TailRunIs(s: seq<Digest>)
    requires s != []
    ensures var n, last := TailRun(s), s[|s| - 1];
      && 1 <= n <= |s| && (forall k :: |s| - n <= k < |s| ==> s[k] == last) && (n < |s| ==> s[|s| - n - 1] != last)
  {
    if |s| > 1 && s[|s| - 2] == s[|s| - 1] { TailRunIs(s[..|s| - 1]); }
  }

  function CallsAt(log: seq<Event>, t: nat): seq<Call> {
    if Latest(log, KParsed, t).Some? then Latest(log, KParsed, t).value.calls else []
  }

  // The batches that were checked for progress, in order.
  function CheckedBatches(log: seq<Event>): seq<seq<Call>> {
    if log == [] then []
    else
      var p, e := log[..|log| - 1], log[|log| - 1];
      CheckedBatches(p) + if e.ProgressCheck? then [CallsAt(p, e.step)] else []
  }

  lemma {:induction false} DigestsOf(cfg: Config, log: seq<Event>)
    requires LogOk(cfg, log)
    ensures |Digests(log)| == |CheckedBatches(log)|
    ensures forall k :: 0 <= k < |Digests(log)| ==> Digests(log)[k] == DigestOf(CheckedBatches(log)[k])
  {
    hide Latest, Closed, DigestOf;
    if log != [] { DigestsOf(cfg, log[..|log| - 1]); }
  }

  // The recorded count is the length of the run of checked batches, ending with
  // this one, that ask for the same tools with the same arguments.
  lemma RepeatsIsRun(cfg: Config, h: seq<Durable>, j: nat, q: nat)
    requires Path(cfg, h) && j < |h| && q < |h[j].log| && h[j].log[q].ProgressCheck?
    ensures var b, n := CheckedBatches(h[j].log[..q + 1]), h[j].log[q].repeats;
      && 1 <= n <= |b| && b[|b| - 1] == CallsAt(h[j].log, h[j].log[q].step)
      && (forall k :: |b| - n <= k < |b| ==> SameWork(b[k], b[|b| - 1]))
      && (n < |b| ==> !SameWork(b[|b| - n - 1], b[|b| - 1]))
  {
    hide *;
    PathLogOk(cfg, h, j);
    RepeatsInLog(cfg, h[j].log, q);
  }

  lemma RepeatsInLog(cfg: Config, log: seq<Event>, q: nat)
    requires LogOk(cfg, log) && q < |log| && log[q].ProgressCheck?
    ensures var b, n := CheckedBatches(log[..q + 1]), log[q].repeats;
      && 1 <= n <= |b| && b[|b| - 1] == CallsAt(log, log[q].step)
      && (forall k :: |b| - n <= k < |b| ==> SameWork(b[k], b[|b| - 1]))
      && (n < |b| ==> !SameWork(b[|b| - n - 1], b[|b| - 1]))
  {
    hide *;
    CountAt(cfg, log, q);
    LastBatch(cfg, log, q);
    RunOfWork(CheckedBatches(log[..q + 1]), Digests(log[..q + 1]));
  }

  lemma PathLogOk(cfg: Config, h: seq<Durable>, j: nat)
    requires Path(cfg, h) && j < |h|
    ensures LogOk(cfg, h[j].log)
  {
    PathInvariant(cfg, h, j);
  }

  lemma CountAt(cfg: Config, log: seq<Event>, q: nat)
    requires LogOk(cfg, log) && q < |log| && log[q].ProgressCheck?
    ensures var pre := log[..q + 1];
      && Digests(pre) != [] && log[q].repeats == TailRun(Digests(pre)) && |Digests(pre)| == |CheckedBatches(pre)|
      && forall k :: 0 <= k < |Digests(pre)| ==> Digests(pre)[k] == DigestOf(CheckedBatches(pre)[k])
  {
    hide LogOk, MayFollow, TailRun, Digests, CheckedBatches, DigestOf;
    var pre := log[..q + 1];
    if q + 1 < |log| { GrammarAt(cfg, log, q + 1); } else { assert pre == log; }
    assert pre[|pre| - 1] == log[q];
    RepeatsCount(cfg, pre);
    DigestsOf(cfg, pre);
  }

  lemma RunOfWork(b: seq<seq<Call>>, s: seq<Digest>)
    requires s != [] && |s| == |b| && forall k :: 0 <= k < |s| ==> s[k] == DigestOf(b[k])
    ensures var n := TailRun(s);
      && 1 <= n <= |b| && (forall k :: |b| - n <= k < |b| ==> SameWork(b[k], b[|b| - 1]))
      && (n < |b| ==> !SameWork(b[|b| - n - 1], b[|b| - 1]))
  {
    hide TailRun, SameWork, DigestOf;
    TailRunIs(s);
    forall k | 0 <= k < |b| ensures SameWork(b[k], b[|b| - 1]) <==> s[k] == s[|b| - 1] { WorkDigest(b[k], b[|b| - 1]); }
  }

  lemma WorkDigest(a: seq<Call>, b: seq<Call>)
    ensures SameWork(a, b) <==> DigestOf(a) == DigestOf(b)
  {
    SameDigest(a, b);
  }

  lemma LastBatch(cfg: Config, log: seq<Event>, q: nat)
    requires LogOk(cfg, log) && q < |log| && log[q].ProgressCheck?
    ensures var b := CheckedBatches(log[..q + 1]); b != [] && b[|b| - 1] == CallsAt(log, log[q].step)
  {
    GrammarAt(cfg, log, q);
    assert log[..q + 1][..q] == log[..q];
    LatestInPrefix(cfg, log, q, KParsed, log[q].step);
  }

  // The last events are a check of step t, with nothing answered at t, and
  // perhaps the end of the run.
  ghost predicate EndsChecked(log: seq<Event>, t: nat) {
    log != [] && 1 <= t == log[|log| - 1].step && CompletedKeys(log, t) == {} && Latest(log, KParsed, t).Some?
    && exists i :: 0 <= i < |log| && log[i].ProgressCheck? && log[i].step == t
  }

  lemma CheckEnds(cfg: Config, p: seq<Event>, e: Event)
    requires LogOk(cfg, p) && Opens(cfg, p, e) && Fits(cfg, p, e) && e.ProgressCheck?
    ensures EndsChecked(p + [e], e.step)
  {
    hide LogOk, Closed, NoProgress, Repeats;
    CompletedAppend(p, e, e.step);
    LatestStable(p, e, KParsed, e.step);
    assert (p + [e])[|p|] == e;
    if CompletedKeys(p, e.step) != {} { var i := ResultShowsStart(cfg, p, e.step); assert false; }
  }

  lemma EndStays(p: seq<Event>, e: Event, t: nat)
    requires EndsChecked(p, t) && e.step == t && (e.StepLimit? || e.Finished?) && !Logged(p, EventKeyOf(e))
    ensures EndsChecked(p + [e], t)
  {
    CompletedAppend(p, e, t);
    LatestStable(p, e, KParsed, t);
    var i :| 0 <= i < |p| && p[i].ProgressCheck? && p[i].step == t;
    assert (p + [e])[i] == p[i];
  }

  // The state of the log at and after a terminal check.
  lemma {:induction false} AfterTerminal(cfg: Config, log: seq<Event>)
    requires LogOk(cfg, log) && NoProgress(cfg, log)
    ensures EndsChecked(log, LatestProgress(log).value.step)
  {
    hide EndsChecked, Fits, Closed;
    var p, e := log[..|log| - 1], log[|log| - 1];
    assert log == p + [e];
    if e.ProgressCheck? {
      CheckEnds(cfg, p, e);
    } else {
      AfterTerminal(cfg, p);
      OnlyTheEnd(cfg, p, e);
      EndStays(p, e, LatestProgress(p).value.step);
    }
  }

  lemma OnlyTheEnd(cfg: Config, p: seq<Event>, e: Event)
    requires LogOk(cfg, p) && NoProgress(cfg, p) && Opens(cfg, p, e) && Fits(cfg, p, e)
    requires EndsChecked(p, LatestProgress(p).value.step)
    ensures e.step == LatestProgress(p).value.step && (e.StepLimit? || e.Finished?)
  {
    hide Fits, LogOk, Closed, RecoverCalls;
    var t := LatestProgress(p).value.step;
    ParsedPaid(cfg, p, t);
    NotClosed(cfg, p, t);
    if e.step > t { FarClosed(cfg, p, e.step - 1, t); }
    if KindOf(e) != KOther && KindOf(e) != KFinish { SlotTaken(p, KindOf(e), t); }
    assert e.step == t;
    FitsOnlyTheEnd(cfg, p, e);
  }

  lemma FitsOnlyTheEnd(cfg: Config, p: seq<Event>, e: Event)
    requires Fits(cfg, p, e) && NoProgress(cfg, p) && Paid(cfg, p, e.step)
    requires Latest(p, KResponse, e.step).Some? && Latest(p, KParsed, e.step).Some?
    requires KindOf(e) != KOther && KindOf(e) != KFinish ==> Latest(p, KindOf(e), e.step).None?
    requires exists i :: 0 <= i < |p| && p[i].ProgressCheck? && p[i].step == e.step
    ensures e.StepLimit? || e.Finished?
  {
    hide Latest, LatestProgress, Repeats, AllStarted, Voiced, CompletedKeys, Requested, RepeatsEmail;
  }

  lemma NotClosed(cfg: Config, p: seq<Event>, t: nat)
    requires LogOk(cfg, p) && Latest(p, KParsed, t).Some? && CompletedKeys(p, t) == {}
    ensures !Closed(p, t)
  {
    ParsedNotEmpty(cfg, p, t);
    MissingEmpty(Latest(p, KParsed, t).value.calls, {});
  }

  // No step after the last logged one is closed.
  lemma FarClosed(cfg: Config, p: seq<Event>, s: nat, t: nat)
    requires LogOk(cfg, p) && p != [] && p[|p| - 1].step == t <= s && !Closed(p, t)
    ensures !Closed(p, s)
  {
    if s > t && Closed(p, s) {
      var i := LatestPosition(p, KParsed, s);
      StepsBounded(cfg, p, i);
    }
  }

  // Once a check has reached the limit, the batch never starts: only the step
  // limit and the end of the run can still be logged.
  lemma TerminalCheckIsFinal(cfg: Config, h: seq<Durable>, j: nat, p: nat, q: nat)
    requires Path(cfg, h) && j < |h| && p < q < |h[j].log|
    requires h[j].log[p].ProgressCheck? && h[j].log[p].repeats >= cfg.progressLimit
    ensures h[j].log[q].StepLimit? || h[j].log[q].Finished?
  {
    PathInvariant(cfg, h, j);
    hide MayFollow;
    TerminalStays(cfg, h[j].log, p, q);
  }

  lemma {:induction false} TerminalStays(cfg: Config, log: seq<Event>, p: nat, q: nat)
    requires LogOk(cfg, log) && p < q < |log| && log[p].ProgressCheck? && log[p].repeats >= cfg.progressLimit
    ensures (log[q].StepLimit? || log[q].Finished?) && NoProgress(cfg, log[..q])
    decreases q
  {
    hide Opens, Fits, LogOk;
    GrammarAt(cfg, log, q);
    assert log[..q] == log[..q - 1] + [log[q - 1]];
    LatestProgressAppend(log[..q - 1], log[q - 1]);
    if q > p + 1 { TerminalStays(cfg, log, p, q - 1); }
    AfterTerminal(cfg, log[..q]);
    OnlyTheEnd(cfg, log[..q], log[q]);
  }

  // A batch starts only while, among as many checked batches as the limit says,
  // one differs from the last.
  lemma StartsBelowLimit(cfg: Config, h: seq<Durable>, j: nat, q: nat)
    requires Path(cfg, h) && j < |h| && q < |h[j].log| && h[j].log[q].Started?
    ensures var b := CheckedBatches(h[j].log[..q]);
      |b| >= cfg.progressLimit ==> exists k :: |b| - cfg.progressLimit <= k < |b| && !SameWork(b[k], b[|b| - 1])
  {
    hide *;
    PathLogOk(cfg, h, j);
    StartBelowInLog(cfg, h[j].log, q);
  }

  lemma StartBelowInLog(cfg: Config, log: seq<Event>, q: nat)
    requires LogOk(cfg, log) && q < |log| && log[q].Started?
    ensures var b := CheckedBatches(log[..q]);
      |b| >= cfg.progressLimit ==> exists k :: |b| - cfg.progressLimit <= k < |b| && !SameWork(b[k], b[|b| - 1])
  {
    hide *;
    StartBelow(cfg, log, q);
    var b, s := CheckedBatches(log[..q]), Digests(log[..q]);
    if |b| >= cfg.progressLimit { RunOfWork(b, s); }
  }

  lemma StartBelow(cfg: Config, log: seq<Event>, q: nat)
    requires LogOk(cfg, log) && q < |log| && log[q].Started?
    ensures var b, s := CheckedBatches(log[..q]), Digests(log[..q]);
      && |s| == |b| && (forall k :: 0 <= k < |s| ==> s[k] == DigestOf(b[k])) && TailRun(s) < cfg.progressLimit
  {
    hide TailRun, Digests, LogOk, Opens, CheckedBatches, DigestOf;
    GrammarAt(cfg, log, q);
    RepeatsCount(cfg, log[..q]);
    DigestsOf(cfg, log[..q]);
    NoRun();
  }

  lemma NoRun()
    ensures TailRun([]) == 0
  {
  }

  // Until its batch is parsed, a step has neither start nor check.
  lemma NoneStarted(cfg: Config, log: seq<Event>, t: nat)
    requires LogOk(cfg, log) && Latest(log, KParsed, t).None?
    ensures forall i :: 0 <= i < |log| && log[i].step == t ==> !log[i].Started? && !log[i].ProgressCheck?
  {
    hide LogOk;
    forall i | 0 <= i < |log| && log[i].step == t ensures !log[i].Started? && !log[i].ProgressCheck? {
      StageReached(cfg, log, i);
    }
  }

  // ----- how many turns -----

  function Turns(log: seq<Event>): nat {
    if log == [] then 0 else Turns(log[..|log| - 1]) + if log[|log| - 1].Request? then 1 else 0
  }

  // The step of the latest request, of any step.
  function LastAsked(log: seq<Event>): nat {
    if log == [] then 0 else if log[|log| - 1].Request? then log[|log| - 1].step else LastAsked(log[..|log| - 1])
  }

  lemma {:induction false} LastAskedTaken(log: seq<Event>)
    ensures LastAsked(log) > 0 ==> Logged(log, Slot(KRequest, LastAsked(log)))
    ensures LastAsked(log) == 0 || exists i :: 0 <= i < |log| && log[i].step == LastAsked(log)
  {
    if log != [] {
      var p := log[..|log| - 1];
      LastAskedTaken(p);
      assert log == p + [log[|log| - 1]];
      LoggedAppend(p, log[|log| - 1], Slot(KRequest, LastAsked(log)));
      if log[|log| - 1].Request? { assert log[|log| - 1].step == LastAsked(log); }
      else if LastAsked(log) > 0 {
        var i :| 0 <= i < |p| && p[i].step == LastAsked(p);
        assert log[i] == p[i];
      }
    }
  }

  lemma {:induction false} TurnsUpToStep(cfg: Config, log: seq<Event>)
    requires LogOk(cfg, log)
    ensures Turns(log) <= LastAsked(log) <= cfg.maxSteps
  {
    hide Fits, Closed, Logged;
    if log != [] {
      var p, e := log[..|log| - 1], log[|log| - 1];
      TurnsUpToStep(cfg, p);
      if e.Request? {
        LastAskedTaken(p);
        if LastAsked(p) > 0 {
          var i :| 0 <= i < |p| && p[i].step == LastAsked(p);
          StepsBounded(cfg, p, i);
        }
      }
    }
  }

  // A run asks for at most maxSteps turns, over all its processes, and no call
  // starts or is answered at the last of these steps.
  lemma TurnsBounded(cfg: Config, h: seq<Durable>, j: nat)
    requires Path(cfg, h) && j < |h|
    ensures Turns(h[j].log) <= cfg.maxSteps
    ensures forall q :: 0 <= q < |h[j].log| && (h[j].log[q].Started? || h[j].log[q].Result?) ==> h[j].log[q].step < cfg.maxSteps
  {
    PathInvariant(cfg, h, j);
    hide LogOk, Path, Opens, Turns;
    InvLog(cfg, h[j]);
    TurnsUpToStep(cfg, h[j].log);
    forall q | 0 <= q < |h[j].log| && (h[j].log[q].Started? || h[j].log[q].Result?) ensures h[j].log[q].step < cfg.maxSteps {
      GrammarAt(cfg, h[j].log, q);
    }
  }

  lemma InvLog(cfg: Config, d: Durable)
    requires Inv(cfg, d)
    ensures LogOk(cfg, d.log)
  {
  }

  // ----- how often the row moves -----

  function RowChanges(h: seq<Durable>): nat {
    if |h| <= 1 then 0
    else RowChanges(h[..|h| - 1]) + if h[|h| - 2].row != h[|h| - 1].row then 1 else 0
  }

  // Some batch of the log repeats an email of an earlier step.
  ghost predicate Repeating(log: seq<Event>) { exists t :: RepeatsEmail(log, t) }

  // How many changes of the row are still to come: three a step, for beginning
  // its turn, parsing it and ending its batch.
  function RowsLeft(cfg: Config, d: Durable): int {
    match d.row.status
    case NoRow => 3 * cfg.maxSteps + 2
    case Done => 0
    case _ =>
      1 + 3 * (cfg.maxSteps - d.row.step) +
      if d.row.pending != [] then 1 else if d.row.step > 0 && Latest(d.log, KParsed, d.row.step).None? then 2 else 0
  }

  lemma RepeatsPersist(cfg: Config, log: seq<Event>, log': seq<Event>, t: nat)
    requires LogOk(cfg, log') && log <= log' && RepeatsEmail(log, t)
    ensures RepeatsEmail(log', t)
  {
    hide LogOk;
    assert log'[..|log|] == log;
    LatestInPrefix(cfg, log', |log|, KParsed, t);
    var c, i :| c in Latest(log, KParsed, t).value.calls && c.tool == SendEmail
      && 0 <= i < |log| && EventKeyOf(log[i]) == EmailResult(KeyOf(c)) && log[i].step < t;
    assert log'[i] == log[i];
  }

  lemma RepeatingPersists(cfg: Config, log: seq<Event>, log': seq<Event>)
    requires LogOk(cfg, log') && log <= log' && Repeating(log)
    ensures Repeating(log')
  {
    hide LogOk, RepeatsEmail;
    var t :| RepeatsEmail(log, t);
    RepeatsPersist(cfg, log, log', t);
  }

  // Whatever is recovered between batches is a repeated email.
  lemma RecoverMeansRepeat(cfg: Config, d: Durable)
    requires Inv(cfg, d) && CanRecover(cfg, d)
    ensures Repeating(d.log)
  {
    var t := d.row.step;
    var calls := Latest(d.log, KParsed, t).value.calls;
    ParsedNotEmpty(cfg, d.log, t);
    MissingMembers(calls, CompletedKeys(d.log, t));
    var c := RecoverCalls(d.log, t)[0];
    assert c in RecoverCalls(d.log, t);
    LackingIsRepeated(cfg, d, c);
  }

  lemma LogKeepsRows(cfg: Config, d: Durable, e: Event)
    requires MayLog(cfg, d, e)
    ensures RowsLeft(cfg, Logging(d, e)) == RowsLeft(cfg, d) && Logging(d, e).row == d.row
  {
    LatestAppend(d.log, e, KParsed, d.row.step);
  }

  lemma ParseShortens(cfg: Config, d: Durable)
    requires Inv(cfg, d) && CanParse(cfg, d)
    ensures RowsLeft(cfg, Parsing(d)) < RowsLeft(cfg, d)
  {
    hide Inv;
  }

  lemma BeginShortens(cfg: Config, d: Durable)
    requires Inv(cfg, d) && CanBegin(cfg, d)
    ensures Begun(d).row == d.row || RowsLeft(cfg, Begun(d)) < RowsLeft(cfg, d)
  {
    var t := d.row.step;
    if NextStep(d.row, d.log) == t {
      assert Begun(d).row == d.row;
    } else if t > 0 {
      CurrentClosed(cfg, d);
    }
  }

  lemma BatchShortens(cfg: Config, d: Durable)
    requires Inv(cfg, d) && CanEndBatch(cfg, d)
    ensures RowsLeft(cfg, Ended(d)) < RowsLeft(cfg, d)
  {
    hide LogOk, StepsClosed, CostOk, ExecsOk, Closed;
  }

  lemma FinishShortens(cfg: Config, d: Durable, reason: Reason)
    requires Inv(cfg, d) && CanFinish(cfg, d, reason)
    ensures RowsLeft(cfg, Finishing(d, reason)) < RowsLeft(cfg, d)
  {
    hide LogOk, RowOk, CostOk, ExecsOk, Closed;
  }

  // A commit leaves the row as it is or brings it nearer to the end, unless it
  // recovers a repeated email.
  lemma CommitShortens(cfg: Config, d: Durable, c: Commit)
    requires Inv(cfg, d) && Enabled(cfg, d, c)
    ensures var d' := Apply(cfg, d, c);
      Repeating(d.log) || RowsLeft(cfg, d') + (if d'.row != d.row then 1 else 0) <= RowsLeft(cfg, d)
  {
    hide Inv, RowsLeft, Repeating, CanBegin, CanParse, CanRecover, CanEndBatch, CanFinish, MayLog;
    match c
    case Create => CreateShortens(cfg, d);
    case Begin => BeginShortens(cfg, d); BeginStays(cfg, d);
    case Log(e) => LogKeepsRows(cfg, d, e);
    case Parse => ParseShortens(cfg, d);
    case Recover => RecoverMeansRepeat(cfg, d);
    case Record(_, _) => SameRowsLeft(cfg, d, Apply(cfg, d, c));
    case Send(_) => SameRowsLeft(cfg, d, Apply(cfg, d, c));
    case EndBatch => BatchShortens(cfg, d);
    case Finish(reason) => FinishShortens(cfg, d, reason);
  }

  lemma CreateShortens(cfg: Config, d: Durable)
    requires d.row.status.NoRow?
    ensures RowsLeft(cfg, Created(d)) < RowsLeft(cfg, d)
  {
  }

  lemma BeginStays(cfg: Config, d: Durable)
    ensures Begun(d).row == d.row ==> RowsLeft(cfg, Begun(d)) == RowsLeft(cfg, d)
  {
  }

  lemma SameRowsLeft(cfg: Config, d: Durable, d': Durable)
    requires d'.row == d.row && d'.log == d.log
    ensures RowsLeft(cfg, d') == RowsLeft(cfg, d)
  {
  }

  // Over any history, by any number of processes killed anywhere, in which no
  // batch repeats an email of an earlier step, the row changes at most three
  // times a step and twice more.
  lemma RowChangesBounded(cfg: Config, h: seq<Durable>)
    requires Path(cfg, h) && !Repeating(h[|h| - 1].log)
    ensures RowChanges(h) <= 3 * cfg.maxSteps + 2
  {
    hide Inv, Repeating, RowsLeft, Next;
    PathInvariant(cfg, h, |h| - 1);
    RowChangesSpent(cfg, h, |h| - 1);
    RowsLeftNatural(cfg, h[|h| - 1]);
    assert h[..|h|] == h;
  }

  lemma RowsLeftNatural(cfg: Config, d: Durable)
    requires Inv(cfg, d)
    ensures RowsLeft(cfg, d) >= 0
  {
  }

  lemma {:induction false} RowChangesSpent(cfg: Config, h: seq<Durable>, n: nat)
    requires Path(cfg, h) && n < |h| && !Repeating(h[n].log)
    ensures RowChanges(h[..n + 1]) + RowsLeft(cfg, h[n]) <= 3 * cfg.maxSteps + 2
  {
    hide Inv, Repeating, RowsLeft, Next, Later;
    if n == 0 {
      InitialRowsLeft(cfg);
    } else {
      PathLater(cfg, h, n - 1, n);
      PathInvariant(cfg, h, n - 1);
      PathInvariant(cfg, h, n);
      StillNotRepeating(cfg, h[n - 1], h[n]);
      RowChangesSpent(cfg, h, n - 1);
      assert h[..n + 1][..n] == h[..n];
      assert Next(cfg, h[n - 1], h[n - 1 + 1]);
      StepShortens(cfg, h[n - 1], h[n]);
    }
  }

  lemma InitialRowsLeft(cfg: Config)
    ensures RowsLeft(cfg, Initial()) == 3 * cfg.maxSteps + 2
  {
  }

  lemma StillNotRepeating(cfg: Config, d: Durable, d': Durable)
    requires Inv(cfg, d) && Inv(cfg, d') && Later(d, d') && !Repeating(d'.log)
    ensures !Repeating(d.log)
  {
    if Repeating(d.log) { RepeatingPersists(cfg, d.log, d'.log); }
  }

  lemma StepShortens(cfg: Config, d: Durable, d': Durable)
    requires Inv(cfg, d) && Next(cfg, d, d') && !Repeating(d.log)
    ensures RowsLeft(cfg, d') + (if d'.row != d.row then 1 else 0) <= RowsLeft(cfg, d)
  {
    hide Inv, Repeating, RowsLeft, Enabled, Apply;
    if d' != d {
      var c :| Enabled(cfg, d, c) && d' == Apply(cfg, d, c);
      CommitShortens(cfg, d, c);
    }
  }

  // ----- the repeated email -----

  // Between batches, the parsed step still has a call to recover exactly when
  // its batch repeats an email of an earlier step.
  lemma RecoversIffRepeats(cfg: Config, h: seq<Durable>, j: nat)
    requires Path(cfg, h) && j < |h| && Live(h[j].row) && h[j].row.pending == []
    requires Latest(h[j].log, KParsed, h[j].row.step).Some?
    ensures RecoverCalls(h[j].log, h[j].row.step) != [] <==> RepeatsEmail(h[j].log, h[j].row.step)
  {
    PathInvariant(cfg, h, j);
    var d, t := h[j], h[j].row.step;
    var calls := Latest(d.log, KParsed, t).value.calls;
    ParsedNotEmpty(cfg, d.log, t);
    MissingMembers(calls, CompletedKeys(d.log, t));
    if RecoverCalls(d.log, t) != [] {
      LackingIsRepeated(cfg, d, RecoverCalls(d.log, t)[0]);
    }
    if RepeatsEmail(d.log, t) { RepeatedLacks(cfg, d.log, t); }
  }

  lemma ResultTool(cfg: Config, log: seq<Event>, n: nat)
    requires LogOk(cfg, log) && n < |log| && log[n].Result?
    ensures log[n].outcome.key.EmailKey? <==> log[n].outcome.tool == SendEmail
  {
    GrammarAt(cfg, log, n);
  }

  lemma RepeatedLacks(cfg: Config, log: seq<Event>, t: nat)
    requires LogOk(cfg, log) && RepeatsEmail(log, t)
    ensures RecoverCalls(log, t) != []
  {
    hide LogOk;
    var calls := Latest(log, KParsed, t).value.calls;
    var c, i :| c in calls && c.tool == SendEmail && 0 <= i < |log| && EventKeyOf(log[i]) == EmailResult(KeyOf(c)) && log[i].step < t;
    RepeatedUncompleted(cfg, log, t, KeyOf(c), i);
    MissingMembers(calls, CompletedKeys(log, t));
  }

  lemma RepeatedUncompleted(cfg: Config, log: seq<Event>, t: nat, key: Key, i: nat)
    requires LogOk(cfg, log) && i < |log| && EventKeyOf(log[i]) == EmailResult(key) && log[i].step < t && key.EmailKey?
    ensures key !in CompletedKeys(log, t)
  {
    hide LogOk;
    if key in CompletedKeys(log, t) {
      var n :| 0 <= n < |log| && log[n].Result? && log[n].step == t && log[n].outcome.key == key;
      ResultTool(cfg, log, n);
      if n < i { KeysUnique(cfg, log, n, i); } else { KeysUnique(cfg, log, i, n); }
    }
  }

  // Such a step is never left: no later commit advances the run, and it can
  // only end in an error.
  lemma {:induction false} RepeatedEmailBlocks(cfg: Config, h: seq<Durable>, i: nat, j: nat)
    requires Path(cfg, h) && i <= j < |h| && RepeatsEmail(h[i].log, h[i].row.step)
    ensures h[j].row.step == h[i].row.step && RepeatsEmail(h[j].log, h[j].row.step)
    ensures h[i].log <= h[j].log
    decreases j - i
  {
    hide Inv, RepeatsEmail, Next;
    if i < j {
      RepeatedEmailBlocks(cfg, h, i, j - 1);
      PathInvariant(cfg, h, j - 1);
      assert Next(cfg, h[j - 1], h[j - 1 + 1]);
      if h[j] != h[j - 1] { RepeatedEmailStep(cfg, h[j - 1], h[j]); }
    }
  }

  // A commit appends at most one event, under a free key, and only Begin moves
  // the step, once nothing is left to recover.
  lemma CommitLog(cfg: Config, d: Durable, c: Commit)
    requires Enabled(cfg, d, c) && !d.row.status.NoRow?
    ensures var d' := Apply(cfg, d, c);
      && (d'.log == d.log || (d'.log == d.log + [d'.log[|d.log|]] && !Logged(d.log, EventKeyOf(d'.log[|d.log|]))))
      && (d'.row.step != d.row.step ==> RecoverCalls(d.log, d.row.step) == [])
  {
    hide RecoverCalls, Latest, Logged;
  }

  lemma RepeatedEmailStep(cfg: Config, d: Durable, d': Durable)
    requires Inv(cfg, d) && Next(cfg, d, d') && d != d' && RepeatsEmail(d.log, d.row.step)
    ensures d'.row.step == d.row.step && RepeatsEmail(d'.log, d.row.step) && d.log <= d'.log
  {
    var c :| Enabled(cfg, d, c) && d' == Apply(cfg, d, c);
    RepeatedLacks(cfg, d.log, d.row.step);
    hide RepeatsEmail, RecoverCalls, LogOk;
    CommitLog(cfg, d, c);
    if d'.log != d.log { RepeatsStable(d.log, d'.log[|d.log|], d.row.step); }
  }

  lemma RepeatsStable(log: seq<Event>, e: Event, t: nat)
    requires RepeatsEmail(log, t) && !Logged(log, EventKeyOf(e))
    ensures RepeatsEmail(log + [e], t)
  {
    LatestStable(log, e, KParsed, t);
    var c, i :| c in Latest(log, KParsed, t).value.calls && c.tool == SendEmail
      && 0 <= i < |log| && EventKeyOf(log[i]) == EmailResult(KeyOf(c)) && log[i].step < t;
    assert (log + [e])[i] == log[i];
  }
}
