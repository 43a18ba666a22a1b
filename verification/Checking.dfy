// Which batches are checked for progress, and what the checks promise: no limit
// of equal batches in a row is ever started, if all of them were checked.
module Checking {
  import opened Events
  import opened Protocol
  import opened Invariant
  import opened History

  // The progress checks of a log, and its starts.
  function Checks(log: seq<Event>): seq<Event> {
    if log == [] then []
    else
      var last := log[|log| - 1];
      Checks(log[..|log| - 1]) + if last.ProgressCheck? then [last] else []
  }

  function Announced(log: seq<Event>): seq<Event> {
    if log == [] then []
    else
      var last := log[|log| - 1];
      Announced(log[..|log| - 1]) + if last.Started? then [last] else []
  }

  predicate SameMarks(log: seq<Event>, log': seq<Event>) { Checks(log') == Checks(log) && Announced(log') == Announced(log) }

  predicate HasCheck(log: seq<Event>, t: nat) { exists k :: 0 <= k < |Checks(log)| && Checks(log)[k].step == t }

  predicate HasStart(log: seq<Event>, t: nat) { exists i :: 0 <= i < |log| && log[i].Started? && log[i].step == t }

  lemma MarksAppend(log: seq<Event>, e: Event)
    ensures Checks(log + [e]) == Checks(log) + if e.ProgressCheck? then [e] else []
    ensures Announced(log + [e]) == Announced(log) + if e.Started? then [e] else []
  {
    assert (log + [e])[..|log|] == log;
  }

  // An event that is neither leaves both, one that is no check the checks.
  lemma MarksKept(log: seq<Event>, e: Event)
    ensures !e.ProgressCheck? && !e.Started? ==> SameMarks(log, Insert(log, e))
    ensures !e.ProgressCheck? ==> Checks(Insert(log, e)) == Checks(log)
  {
    hide Checks, Announced, Logged;
    MarksAppend(log, e);
  }

  lemma {:induction false} ChecksAre(log: seq<Event>, e: Event)
    ensures e in Checks(log) <==> e in log && e.ProgressCheck?
  {
    if log != [] { ChecksAre(log[..|log| - 1], e); }
  }

  lemma {:induction false} ChecksGrow(log: seq<Event>, log': seq<Event>)
    requires log <= log'
    ensures Checks(log) <= Checks(log')
  {
    if log != log' { ChecksGrow(log, log'[..|log'| - 1]); }
  }

  // With the same starts, there is none among the new events.
  lemma {:induction false} NoNewStart(log: seq<Event>, log': seq<Event>)
    requires log <= log'
    ensures |Announced(log)| <= |Announced(log')|
    ensures Announced(log) == Announced(log') ==> forall i :: |log| <= i < |log'| ==> !log'[i].Started?
  {
    if log != log' {
      var n := |log'| - 1;
      NoNewStart(log, log'[..n]);
      assert forall i :: |log| <= i < n ==> log'[..n][i] == log'[i];
      if Announced(log) == Announced(log') {
        assert |Announced(log'[..n])| >= |Announced(log)|;
      }
    }
  }

  // ----- what a process checks -----

  // The state's batch is parsed and has no check.
  predicate TakenUnchecked(d: Durable, t: nat) {
    t == d.row.step && Latest(d.log, KParsed, t).Some? && !HasCheck(d.log, t)
  }

  // From one state to a later one, each step with a new start has a check if
  // and only if it was not there already, parsed and unchecked.
  ghost predicate Watched(d: Durable, d': Durable) {
    d.log <= d'.log
    && (forall i :: |d.log| <= i < |d'.log| && d'.log[i].Started? ==>
          (HasCheck(d'.log, d'.log[i].step) <==> !TakenUnchecked(d, d'.log[i].step)))
    && forall t :: TakenUnchecked(d, t) ==> !HasCheck(d'.log, t)
  }

  // The same, and so it will be with the batch that is parsed now.
  ghost predicate Watching(d: Durable, d': Durable) {
    Watched(d, d')
    && (Latest(d'.log, KParsed, d'.row.step).Some? ==> HasCheck(d'.log, d'.row.step) || TakenUnchecked(d, d'.row.step))
  }

  // What one round does: a batch runs at its step and nothing is checked, or a
  // turn starts nothing and checks no more than the batch it has parsed.
  ghost predicate Tracked(d: Durable, d': Durable, going: bool) {
    || (Checks(d'.log) == Checks(d.log) && d'.row.step == d.row.step && Latest(d.log, KParsed, d.row.step).Some?)
    || (Announced(d'.log) == Announced(d.log) && NewCheck(d, d') && (going ==> HasCheck(d'.log, d'.row.step)))
  }

  ghost predicate NewCheck(d: Durable, d': Durable) {
    Checks(d'.log) == Checks(d.log)
    || exists c :: Checks(d'.log) == Checks(d.log) + [c] && Latest(d.log, KParsed, c.step).None?
  }

  lemma WatchBegins(d: Durable)
    ensures Watching(d, d)
  {
    hide HasCheck;
  }

  lemma HasCheckGrows(log: seq<Event>, log': seq<Event>, t: nat)
    requires log <= log' && HasCheck(log, t)
    ensures HasCheck(log', t)
  {
    ChecksGrow(log, log');
    var k :| 0 <= k < |Checks(log)| && Checks(log)[k].step == t;
    assert Checks(log')[k] == Checks(log)[k];
  }

  // A new start stands at the current step.
  lemma NewStep(cfg: Config, d: Durable, d': Durable, i: nat)
    requires Inv(cfg, d) && Inv(cfg, d') && Live(d.row) && !d'.row.status.NoRow? && d.log <= d'.log
    requires d'.row.step == d.row.step && Latest(d.log, KParsed, d.row.step).Some? && |d.log| <= i < |d'.log|
    ensures d'.log[i].step == d.row.step
  {
    hide LogOk, RowOk, CostOk, ExecsOk, Closed;
    StepsBounded(cfg, d'.log, i);
    var p := Latest(d.log, KParsed, d.row.step).value;
    var k :| 0 <= k < |d.log| && d.log[k] == p;
    assert d'.log[k] == p;
    StepsUp(cfg, d'.log, k, i);
  }

  lemma {:induction false} StepsUp(cfg: Config, log: seq<Event>, i: nat, j: nat)
    requires LogOk(cfg, log) && i <= j < |log|
    ensures log[i].step <= log[j].step
  {
    hide Fits, Closed, Logged;
    assert LogOk(cfg, log[..j + 1]) by { PrefixOk(cfg, log, j + 1); }
    StepsBounded(cfg, log[..j + 1], i);
  }

  lemma {:induction false} PrefixOk(cfg: Config, log: seq<Event>, n: nat)
    requires LogOk(cfg, log) && n <= |log|
    ensures LogOk(cfg, log[..n])
  {
    hide MayFollow;
    if n == |log| {
      assert log[..n] == log;
    } else {
      PrefixOk(cfg, log[..|log| - 1], n);
      assert log[..|log| - 1][..n] == log[..n];
    }
  }

  lemma Watches(cfg: Config, d0: Durable, d: Durable, d': Durable, going: bool)
    requires Watching(d0, d) && Tracked(d, d', going) && d.log <= d'.log
    requires Inv(cfg, d) && Inv(cfg, d') && Live(d.row) && !d'.row.status.NoRow?
    ensures Watched(d0, d') && (going ==> Watching(d0, d'))
  {
    if Checks(d'.log) == Checks(d.log) && d'.row.step == d.row.step && Latest(d.log, KParsed, d.row.step).Some? {
      WatchesBatch(cfg, d0, d, d');
    } else {
      WatchesTurn(cfg, d0, d, d', going);
    }
  }

  lemma WatchesBatch(cfg: Config, d0: Durable, d: Durable, d': Durable)
    requires Watching(d0, d) && d.log <= d'.log && Checks(d'.log) == Checks(d.log)
    requires d'.row.step == d.row.step && Latest(d.log, KParsed, d.row.step).Some?
    requires Inv(cfg, d) && Inv(cfg, d') && Live(d.row) && !d'.row.status.NoRow?
    ensures Watching(d0, d')
  {
    hide LogOk, StepsClosed, RowOk, CostOk, ExecsOk, Checks, TakenUnchecked, Latest;
    assert forall t :: HasCheck(d'.log, t) <==> HasCheck(d.log, t);
    hide HasCheck, Inv;
    forall i | |d0.log| <= i < |d'.log| && d'.log[i].Started?
      ensures HasCheck(d'.log, d'.log[i].step) <==> !TakenUnchecked(d0, d'.log[i].step)
    {
      if i < |d.log| { assert d'.log[i] == d.log[i]; } else { NewStep(cfg, d, d', i); }
    }
  }

  lemma WatchesTurn(cfg: Config, d0: Durable, d: Durable, d': Durable, going: bool)
    requires Watching(d0, d) && d.log <= d'.log && Inv(cfg, d)
    requires Announced(d'.log) == Announced(d.log) && NewCheck(d, d') && (going ==> HasCheck(d'.log, d'.row.step))
    ensures Watched(d0, d') && (going ==> Watching(d0, d'))
  {
    hide Inv, Announced, Latest;
    NoNewStart(d.log, d'.log);
    forall t | HasCheck(d.log, t) ensures HasCheck(d'.log, t) { HasCheckGrows(d.log, d'.log, t); }
    forall t | TakenUnchecked(d0, t) ensures !HasCheck(d'.log, t) { StillUnchecked(d0, d, d', t); }
    hide HasCheck, TakenUnchecked;
    forall i | |d0.log| <= i < |d'.log| && d'.log[i].Started?
      ensures HasCheck(d'.log, d'.log[i].step) <==> !TakenUnchecked(d0, d'.log[i].step)
    {
      assert d'.log[i] == d.log[i];
    }
  }

  lemma StillUnchecked(d0: Durable, d: Durable, d': Durable, t: nat)
    requires Watching(d0, d) && NewCheck(d, d') && TakenUnchecked(d0, t)
    ensures !HasCheck(d'.log, t)
  {
    hide Checks;
    ParsedStays(d0.log, d.log, t);
    hide Latest;
    assert !HasCheck(d.log, t);
  }

  lemma {:induction false} ParsedStays(log: seq<Event>, log': seq<Event>, t: nat)
    requires log <= log' && Latest(log, KParsed, t).Some?
    ensures Latest(log', KParsed, t).Some?
  {
    if log != log' { ParsedStays(log, log'[..|log'| - 1], t); }
  }

  // Events that are neither start nor check change nothing of this.
  lemma WatchedOn(d0: Durable, d: Durable, d': Durable)
    requires Watched(d0, d) && d.log <= d'.log && SameMarks(d.log, d'.log)
    ensures Watched(d0, d')
  {
    hide Announced, Checks, TakenUnchecked;
    NoNewStart(d.log, d'.log);
    assert forall t :: HasCheck(d'.log, t) <==> HasCheck(d.log, t);
    hide HasCheck;
    forall i | |d0.log| <= i < |d'.log| && d'.log[i].Started?
      ensures HasCheck(d'.log, d'.log[i].step) <==> !TakenUnchecked(d0, d'.log[i].step)
    {
      assert d'.log[i] == d.log[i];
    }
  }

  // ----- what the checks promise -----

  // The batch of a step is started, and asks for the same work as this one.
  predicate StartedAs(log: seq<Event>, t: nat, calls: seq<Call>) {
    HasStart(log, t) && Latest(log, KParsed, t).Some? && SameWork(Latest(log, KParsed, t).value.calls, calls)
  }

  // Equal batches whose steps are all checked: the last check has counted them.
  lemma {:induction false} CountsUp(cfg: Config, log: seq<Event>, a: nat, n: nat, calls: seq<Call>) returns (i: nat)
    requires LogOk(cfg, log) && n > 0
    requires forall t :: a <= t < a + n ==> StartedAs(log, t, calls) && HasCheck(log, t)
    ensures i < |log| && log[i].ProgressCheck? && log[i].step == a + n - 1 && log[i].repeats >= n && log[i].digest == DigestOf(calls)
  {
    hide LogOk, Checks, Latest, DigestOf;
    var t := a + n - 1;
    assert StartedAs(log, t, calls) && HasCheck(log, t);
    i := CheckOf(cfg, log, t, calls);
    if n > 1 {
      var j := CountsUp(cfg, log, a, n - 1, calls);
      if i < j { StepsUp(cfg, log, i, j); assert false; }
      NoneBetween(cfg, log, j, i);
      LastIs(log, j, i);
      GrammarAt(cfg, log, i);
      CheckCounts(cfg, log[..i], log[i]);
    } else {
      GrammarAt(cfg, log, i);
      CheckCounts(cfg, log[..i], log[i]);
    }
  }

  lemma CheckOf(cfg: Config, log: seq<Event>, t: nat, calls: seq<Call>) returns (i: nat)
    requires LogOk(cfg, log) && HasCheck(log, t) && StartedAs(log, t, calls)
    ensures i < |log| && log[i].ProgressCheck? && log[i].step == t && log[i].digest == DigestOf(calls)
  {
    hide LogOk, Checks;
    var k :| 0 <= k < |Checks(log)| && Checks(log)[k].step == t;
    ChecksAre(log, Checks(log)[k]);
    i :| 0 <= i < |log| && log[i] == Checks(log)[k];
    GrammarAt(cfg, log, i);
    LatestInPrefix(cfg, log, i, KParsed, t);
    WorkDigest(Latest(log, KParsed, t).value.calls, calls);
  }

  // Between a check and the next one, or a start of its step, there is none.
  lemma NoneBetween(cfg: Config, log: seq<Event>, i: nat, s: nat)
    requires LogOk(cfg, log) && i < s < |log| && log[i].ProgressCheck?
    requires (log[s].ProgressCheck? && log[s].step == log[i].step + 1) || log[s].step == log[i].step
    ensures forall j :: i < j < s ==> !log[j].ProgressCheck?
  {
    hide LogOk;
    GrammarAt(cfg, log, s);
    forall j | i < j < s ensures !log[j].ProgressCheck? {
      StepsUp(cfg, log, i, j);
      StepsUp(cfg, log, j, s);
      GrammarAt(cfg, log, j);
      assert log[..j][i] == log[i] && log[..s][j] == log[j];
    }
  }

  lemma {:induction false} LastIs(log: seq<Event>, i: nat, s: nat)
    requires i < s <= |log| && log[i].ProgressCheck? && forall j :: i < j < s ==> !log[j].ProgressCheck?
    ensures LatestProgress(log[..s]) == Some(log[i])
    decreases s
  {
    assert log[..s][..s - 1] == log[..s - 1];
    if i < s - 1 { LastIs(log, i, s - 1); }
  }

  // In no log are as many equal batches in a row started as the limit says, if
  // each of their steps was checked.
  lemma NoLongRepetition(cfg: Config, log: seq<Event>, a: nat, calls: seq<Call>)
    requires LogOk(cfg, log)
    ensures exists t :: a <= t < a + cfg.progressLimit && !(StartedAs(log, t, calls) && HasCheck(log, t))
  {
    hide LogOk, Latest, DigestOf, HasCheck;
    if forall t :: a <= t < a + cfg.progressLimit ==> StartedAs(log, t, calls) && HasCheck(log, t) {
      var i := CountsUp(cfg, log, a, cfg.progressLimit, calls);
      var t := a + cfg.progressLimit - 1;
      assert StartedAs(log, t, calls);
      var s :| 0 <= s < |log| && log[s].Started? && log[s].step == t;
      StartBarred(cfg, log, i, s);
    }
  }

  lemma StartBarred(cfg: Config, log: seq<Event>, i: nat, s: nat)
    requires LogOk(cfg, log) && i < |log| && s < |log| && log[i].step == log[s].step
    requires log[i].ProgressCheck? && log[s].Started?
    ensures i < s && log[i].repeats < cfg.progressLimit
  {
    hide LogOk, Latest, DigestOf;
    GrammarAt(cfg, log, i);
    GrammarAt(cfg, log, s);
    assert forall j :: 0 <= j < i ==> log[..i][j] == log[j];
    if i < s {
      NoneBetween(cfg, log, i, s);
      LastIs(log, i, s);
    }
  }

  // A process that creates its run starts fewer equal batches in a row than
  // the limit says, whatever step they begin at.
  lemma CrashFreeBounded(cfg: Config, d: Durable, a: nat, calls: seq<Call>)
    requires Inv(cfg, d) && !d.row.status.NoRow? && Watched(Initial(), d)
    ensures exists t :: a <= t < a + cfg.progressLimit && !StartedAs(d.log, t, calls)
  {
    hide LogOk, StepsClosed, RowOk, CostOk, ExecsOk, Latest, DigestOf, HasCheck;
    NoLongRepetition(cfg, d.log, a, calls);
    var t :| a <= t < a + cfg.progressLimit && !(StartedAs(d.log, t, calls) && HasCheck(d.log, t));
    StartedIsChecked(d, t);
  }

  lemma StartedIsChecked(d: Durable, t: nat)
    requires Watched(Initial(), d)
    ensures HasStart(d.log, t) ==> HasCheck(d.log, t)
  {
    hide HasCheck;
    if HasStart(d.log, t) {
      var s :| 0 <= s < |d.log| && d.log[s].Started? && d.log[s].step == t;
      assert !TakenUnchecked(Initial(), t);
    }
  }
}
