// Why a run ends: the reason it finishes with, explained by the state it ends in.
module Ending {
  import opened Events
  import opened Protocol
  import opened Invariant
  import opened History
  import opened Checking
  import opened Validator

  // The step is charged, and over budget.
  predicate Overspent(cfg: Config, d: Durable) {
    Latest(d.log, KCharge, d.row.step).Some? && Latest(d.log, KCharge, d.row.step).value.total > cfg.costBudget
  }

  // The recorded response of the step, not parsed yet and charged within the
  // budget.
  predicate PaidResponse(cfg: Config, d: Durable) {
    var log, t := d.log, d.row.step;
    Responding(d) && Latest(log, KCharge, t).Some? && Latest(log, KCharge, t).value.total <= cfg.costBudget
  }

  // The response was interrupted, and shows fewer calls than it announced or
  // announced none.
  predicate CutOff(cfg: Config, d: Durable) {
    PaidResponse(cfg, d) &&
    var r := Latest(d.log, KResponse, d.row.step).value.response;
    r.partial && (r.expected.None? || |r.calls| < r.expected.value)
  }

  // The response has no calls, and was not cut off.
  predicate PlainAnswer(cfg: Config, d: Durable) {
    PaidResponse(cfg, d) && Latest(d.log, KResponse, d.row.step).value.response.calls == [] && !CutOff(cfg, d)
  }

  // What must be so for a run to end with this reason in this state, and for
  // the errors of the loop's own checks also the other way round.
  ghost predicate Explained(cfg: Config, d: Durable, reason: Reason) {
    Live(d.row) && d.row.step > 0 &&
    match reason
    case Completed => PlainAnswer(cfg, d)
    case StepLimitReached => d.row.step >= cfg.maxSteps
    case Error(m) =>
      && (m == NO_PROGRESS <==> NoProgress(cfg, d.log))
      && (m == OVER_BUDGET <==> Overspent(cfg, d))
      && (m == PARTIAL_TURN <==> CutOff(cfg, d))
      && (m == CONTRADICTION ==> PlainAnswer(cfg, d) && Logged(d.log, EventKeyOf(Contradicted(d.row.step))))
      && (IsOutside(m) || m in {NO_PROGRESS, OVER_BUDGET, PARTIAL_TURN, CONTRADICTION})
  }

  // The last commit of the history ended the run, for a reason explained by the
  // state before it.
  ghost predicate Concluded(cfg: Config, h: seq<Durable>) {
    |h| >= 2 && Ends(cfg, h[|h| - 2], h[|h| - 1])
  }

  ghost predicate Ends(cfg: Config, d: Durable, d': Durable) { exists reason :: EndedBy(cfg, d, d', reason) }

  ghost predicate EndedBy(cfg: Config, d: Durable, d': Durable, reason: Reason) {
    d' == Finishing(d, reason) && Explained(cfg, d, reason)
  }

  lemma Concludes(cfg: Config, h: seq<Durable>, h': seq<Durable>, reason: Reason)
    requires h != [] && h <= h' && |h'| == |h| + 1 && h'[|h|] == Finishing(h[|h| - 1], reason)
    requires Explained(cfg, h[|h| - 1], reason)
    ensures Concluded(cfg, h')
  {
    hide Explained;
    assert EndedBy(cfg, h'[|h'| - 2], h'[|h'| - 1], reason);
  }

  lemma ErrorsDiffer()
    ensures NO_PROGRESS != OVER_BUDGET && NO_PROGRESS != PARTIAL_TURN && NO_PROGRESS != CONTRADICTION
    ensures OVER_BUDGET != PARTIAL_TURN && OVER_BUDGET != CONTRADICTION && PARTIAL_TURN != CONTRADICTION
    ensures forall m :: IsOutside(m) ==> m !in {NO_PROGRESS, OVER_BUDGET, PARTIAL_TURN, CONTRADICTION}
  {
    assert |NO_PROGRESS| == 15 && |OVER_BUDGET| == 19 && |PARTIAL_TURN| == 20 && |CONTRADICTION| == 23;
    assert |CONTEXT_LIMIT| == 25 && |NETWORK_FAILURE| == 19 && |CIRCUIT_OPEN| == 23;
    assert OVER_BUDGET[0] == 'B' && NETWORK_FAILURE[0] == 'N' && CONTRADICTION[0] == 'M' && CIRCUIT_OPEN[0] == 'C';
  }

  // ----- the progress error -----

  lemma {:induction false} LastCheck(log: seq<Event>)
    ensures LatestProgress(log) == if Checks(log) == [] then None else Some(Checks(log)[|Checks(log)| - 1])
  {
    if log != [] { LastCheck(log[..|log| - 1]); }
  }

  lemma SameProgress(cfg: Config, log: seq<Event>, log': seq<Event>)
    requires Checks(log') == Checks(log)
    ensures LatestProgress(log') == LatestProgress(log) && (NoProgress(cfg, log') <==> NoProgress(cfg, log))
  {
    hide Checks;
    LastCheck(log);
    LastCheck(log');
  }

  // A run with a check at the limit waits with its batch pending.
  ghost predicate Barred(cfg: Config, d: Durable) { Live(d.row) && NoProgress(cfg, d.log) ==> d.row.pending != [] }

  lemma BarredNext(cfg: Config, d: Durable, c: Commit)
    requires Inv(cfg, d) && Enabled(cfg, d, c) && Barred(cfg, d)
    ensures Barred(cfg, Apply(cfg, d, c))
  {
    hide Inv, Latest, Logged, LatestProgress, AllStarted, AllExecuted, AllResulted, RecoverCalls, Voiced, Paid;
    match c
    case Log(e) => LatestProgressAppend(d.log, e); if e.ProgressCheck? { CheckPends(cfg, d, e); }
    case Parse => ParsedPends(cfg, d);
    case Create => LatestProgressAppend(d.log, RunStarted(0)); FreshBarred(cfg, d);
    case _ =>
  }

  lemma CheckPends(cfg: Config, d: Durable, e: Event)
    requires Inv(cfg, d) && MayLog(cfg, d, e) && e.ProgressCheck?
    ensures d.row.pending != []
  {
    hide LogOk, StepsClosed, CostOk, ExecsOk;
  }

  lemma ParsedPends(cfg: Config, d: Durable)
    requires CanParse(cfg, d)
    ensures Parsing(d).row.pending != []
  {
  }

  lemma FreshBarred(cfg: Config, d: Durable)
    requires Inv(cfg, d) && d.row.status.NoRow?
    ensures LatestProgress(d.log).None?
  {
  }

  lemma {:induction false} PathBarred(cfg: Config, h: seq<Durable>, j: nat)
    requires Path(cfg, h) && j < |h|
    ensures Barred(cfg, h[j])
  {
    hide Inv, Enabled, Apply, Barred;
    if j > 0 {
      PathBarred(cfg, h, j - 1);
      PathInvariant(cfg, h, j - 1);
      assert Next(cfg, h[j - 1], h[j - 1 + 1]);
      if h[j] != h[j - 1] {
        var c :| Enabled(cfg, h[j - 1], c) && h[j] == Apply(cfg, h[j - 1], c);
        BarredNext(cfg, h[j - 1], c);
      }
    } else {
      StartBarred(cfg);
    }
  }

  lemma StartBarred(cfg: Config)
    ensures Barred(cfg, Initial())
  {
  }

  // ----- the reasons -----

  // A parsed step is paid for and no longer open.
  lemma ParsedIsPaid(cfg: Config, d: Durable)
    requires Inv(cfg, d) && Live(d.row) && Latest(d.log, KParsed, d.row.step).Some?
    ensures !Overspent(cfg, d) && !CutOff(cfg, d)
  {
    ParsedPaid(cfg, d.log, d.row.step);
  }

  lemma PendingParsed(cfg: Config, d: Durable)
    requires Inv(cfg, d) && Live(d.row) && d.row.pending != []
    ensures d.row.step > 0 && Latest(d.log, KParsed, d.row.step).Some?
  {
    hide LogOk, StepsClosed, CostOk, ExecsOk;
  }

  lemma OutsideExplained(cfg: Config, d: Durable, m: string)
    requires Inv(cfg, d) && Live(d.row) && d.row.step > 0 && IsOutside(m) && !NoProgress(cfg, d.log)
    requires Latest(d.log, KCharge, d.row.step).None? || Latest(d.log, KParsed, d.row.step).Some?
    ensures Explained(cfg, d, Error(m))
  {
    hide Inv, NoProgress, Latest;
    ErrorsDiffer();
    if Latest(d.log, KParsed, d.row.step).Some? { ParsedIsPaid(cfg, d); }
    hide IsOutside;
  }

  lemma BudgetExplained(cfg: Config, d: Durable)
    requires Live(d.row) && d.row.step > 0 && Overspent(cfg, d) && !NoProgress(cfg, d.log)
    ensures Explained(cfg, d, Error(OVER_BUDGET))
  {
    hide NoProgress, Latest;
    ErrorsDiffer();
    hide IsOutside;
  }

  lemma PartialExplained(cfg: Config, d: Durable)
    requires Live(d.row) && d.row.step > 0 && CutOff(cfg, d) && !NoProgress(cfg, d.log)
    ensures Explained(cfg, d, Error(PARTIAL_TURN))
  {
    hide NoProgress, Latest;
    ErrorsDiffer();
    hide IsOutside;
  }

  lemma ContradictionExplained(cfg: Config, d: Durable)
    requires Live(d.row) && d.row.step > 0 && PlainAnswer(cfg, d) && !NoProgress(cfg, d.log)
    requires Logged(d.log, EventKeyOf(Contradicted(d.row.step)))
    ensures Explained(cfg, d, Error(CONTRADICTION))
  {
    hide NoProgress, Latest, Logged;
    ErrorsDiffer();
    hide IsOutside;
  }

  lemma NoProgressExplained(cfg: Config, d: Durable)
    requires Inv(cfg, d) && Live(d.row) && NoProgress(cfg, d.log) && d.row.pending != []
    ensures Explained(cfg, d, Error(NO_PROGRESS))
  {
    PendingParsed(cfg, d);
    ParsedIsPaid(cfg, d);
    ErrorsDiffer();
    hide Inv, NoProgress, Latest, IsOutside, Overspent, CutOff;
  }
}
