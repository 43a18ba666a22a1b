// When a start follows a result of its own step: exactly in the first recovery
// of a batch in which an answered call stands before one that is not.
module Order {
  import opened Events
  import opened Protocol
  import opened Invariant
  import opened History
  import opened ToolBatch

  // From this position on, a start follows a result of the same step.
  ghost predicate StartAfterResult(log: seq<Event>, from: nat, step: nat) {
    exists p, q :: 0 <= p < q < |log| && from <= q && log[p].Result? && log[q].Started? && log[p].step == log[q].step == step
  }

  // Some call with its result at the step stands before one without.
  ghost predicate AnsweredFirst(calls: seq<Call>, completed: set<Key>) {
    exists i, j :: 0 <= i < j < |calls| && KeyOf(calls[i]) in completed && KeyOf(calls[j]) !in completed
  }

  // All starts of the step are those of the calls at their own positions: the
  // batch has not been recovered yet.
  ghost predicate OwnStarts(log: seq<Event>, step: nat, calls: seq<Call>) {
    forall i :: 0 <= i < |log| && log[i].Started? && log[i].step == step ==>
      log[i].index < |calls| && KeyOf(log[i].call) == KeyOf(calls[log[i].index])
  }

  // What the starts of a batch add: starts of the step, and nothing if and only
  // if all of them are there.
  lemma {:induction false} StartsAdded(log: seq<Event>, step: nat, calls: seq<Call>)
    ensures var log' := WithStarts(log, step, calls);
      && log <= log' && AllStarted(log', step, calls)
      && forall i :: |log| <= i < |log'| ==> log'[i].Started? && log'[i].step == step
  {
    hide AllStarted, Logged;
    if calls == [] {
      NoStarts(log, step, calls);
      assert calls[..0] == calls;
    } else {
      var n := |calls| - 1;
      StartsAdded(log, step, calls[..n]);
      StartsGrow(WithStarts(log, step, calls[..n]), step, calls, n);
      InsertKeeps(WithStarts(log, step, calls[..n]), Started(step, n, calls[n]));
      assert calls[..n + 1] == calls;
    }
  }

  lemma SomeAdded(log: seq<Event>, step: nat, calls: seq<Call>)
    ensures WithStarts(log, step, calls) != log <==> !AllStarted(log, step, calls)
  {
    hide AllStarted, WithStarts;
    StartsAdded(log, step, calls);
    if AllStarted(log, step, calls) { StartsIdle(log, step, calls); }
  }

  // The next round of recovered calls breaks the order if and only if one of
  // them has no start at its new position and some call of the step is answered.
  lemma RoundBreaksOrder(log: seq<Event>, step: nat, calls: seq<Call>)
    ensures StartAfterResult(WithStarts(log, step, calls), |log|, step) <==>
      !AllStarted(log, step, calls) && CompletedKeys(log, step) != {}
  {
    var log' := WithStarts(log, step, calls);
    StartsAdded(log, step, calls);
    SomeAdded(log, step, calls);
    hide AllStarted, WithStarts;
    if StartAfterResult(log', |log|, step) {
      var p, q :| 0 <= p < q < |log'| && |log| <= q && log'[p].Result? && log'[q].Started? && log'[p].step == log'[q].step == step;
      assert p < |log| && log[p] == log'[p];
      assert log[p].outcome.key in CompletedKeys(log, step);
    }
    if log' != log && CompletedKeys(log, step) != {} {
      var k :| k in CompletedKeys(log, step);
      var p :| 0 <= p < |log| && log[p].Result? && log[p].step == step && log[p].outcome.key == k;
      assert log'[p] == log[p] && log'[|log|].Started?;
    }
  }

  lemma OwnStart(log: seq<Event>, step: nat, calls: seq<Call>, j: nat, key: Key)
    requires OwnStarts(log, step, calls) && AllStarted(log, step, calls) && j < |calls|
    ensures Logged(log, StartSlot(step, j, key)) <==> key == KeyOf(calls[j])
  {
    if Logged(log, StartSlot(step, j, key)) {
      var i :| 0 <= i < |log| && EventKeyOf(log[i]) == StartSlot(step, j, key);
      assert log[i].Started?;
    }
  }

  lemma {:induction false} MissingFewer(calls: seq<Call>, keys: set<Key>)
    ensures |Missing(calls, keys)| <= |calls|
  {
    if calls != [] { MissingFewer(calls[1..], keys); }
  }

  // Key by key, the first calls are these.
  predicate InPlace(left: seq<Call>, calls: seq<Call>) {
    |left| <= |calls| && forall j :: 0 <= j < |left| ==> KeyOf(left[j]) == KeyOf(calls[j])
  }

  lemma InPlaceCons(c: Call, left: seq<Call>, calls: seq<Call>)
    ensures InPlace([c] + left, [c] + calls) <==> InPlace(left, calls)
  {
    hide KeyOf;
    assert forall j :: 0 <= j < |left| ==> ([c] + left)[j + 1] == left[j];
    assert forall j :: 0 <= j < |calls| ==> ([c] + calls)[j + 1] == calls[j];
    if InPlace([c] + left, [c] + calls) {
      forall j | 0 <= j < |left| ensures KeyOf(left[j]) == KeyOf(calls[j]) {
        assert KeyOf(([c] + left)[j + 1]) == KeyOf(([c] + calls)[j + 1]);
      }
    }
  }

  // The calls that lack a result keep their positions if and only if no
  // answered call stands before one of them.
  lemma {:induction false} KeepsPlaces(calls: seq<Call>, keys: set<Key>)
    ensures InPlace(Missing(calls, keys), calls) <==> !AnsweredFirst(calls, keys)
  {
    hide KeyOf, AnsweredFirst, InPlace;
    if calls == [] {
      NothingMissing(keys);
    } else if KeyOf(calls[0]) in keys {
      FirstAnswered(calls, keys);
      OutOfPlace(calls, keys);
    } else {
      KeepsPlaces(calls[1..], keys);
      LaterAnswered(calls, keys);
      InPlaceCons(calls[0], Missing(calls[1..], keys), calls[1..]);
      assert [calls[0]] + calls[1..] == calls;
    }
  }

  lemma NothingMissing(keys: set<Key>)
    ensures InPlace(Missing([], keys), []) && !AnsweredFirst([], keys)
  {
  }

  lemma OutOfPlace(calls: seq<Call>, keys: set<Key>)
    requires calls != [] && (Missing(calls, keys) != [] ==> KeyOf(Missing(calls, keys)[0]) != KeyOf(calls[0]))
    ensures InPlace(Missing(calls, keys), calls) <==> Missing(calls, keys) == []
  {
    hide Missing, KeyOf;
  }

  lemma FirstAnswered(calls: seq<Call>, keys: set<Key>)
    requires calls != [] && KeyOf(calls[0]) in keys
    ensures AnsweredFirst(calls, keys) <==> Missing(calls, keys) != []
    ensures Missing(calls, keys) != [] ==> KeyOf(Missing(calls, keys)[0]) != KeyOf(calls[0])
  {
    MissingEmpty(calls, keys);
    MissingMembers(calls, keys);
    if Missing(calls, keys) != [] {
      assert Missing(calls, keys)[0] in Missing(calls, keys);
      var j :| 0 <= j < |calls| && KeyOf(calls[j]) !in keys;
      assert 0 < j;
    }
  }

  lemma LaterAnswered(calls: seq<Call>, keys: set<Key>)
    requires calls != [] && KeyOf(calls[0]) !in keys
    ensures AnsweredFirst(calls, keys) <==> AnsweredFirst(calls[1..], keys)
  {
    var rest := calls[1..];
    if AnsweredFirst(calls, keys) {
      var i, j :| 0 <= i < j < |calls| && KeyOf(calls[i]) in keys && KeyOf(calls[j]) !in keys;
      assert rest[i - 1] == calls[i] && rest[j - 1] == calls[j];
    }
    if AnsweredFirst(rest, keys) {
      var i, j :| 0 <= i < j < |rest| && KeyOf(rest[i]) in keys && KeyOf(rest[j]) !in keys;
      assert calls[i + 1] == rest[i] && calls[j + 1] == rest[j];
    }
  }

  lemma BatchWasStarted(cfg: Config, d: Durable)
    requires Inv(cfg, d) && CanRecover(cfg, d) && Latest(d.log, KParsed, d.row.step).Some?
    ensures AllStarted(d.log, d.row.step, Latest(d.log, KParsed, d.row.step).value.calls)
  {
    hide LogOk, StepsClosed, CostOk, ExecsOk, NoProgress;
    ParsedNotEmpty(cfg, d.log, d.row.step);
  }

  // The calls that lack a result are all started where recovery puts them if
  // and only if they stand there in the batch already.
  lemma LackingStarted(log: seq<Event>, step: nat, calls: seq<Call>, keys: set<Key>)
    requires AllStarted(log, step, calls) && OwnStarts(log, step, calls)
    ensures AllStarted(log, step, Missing(calls, keys)) <==> InPlace(Missing(calls, keys), calls)
  {
    var lacking := Missing(calls, keys);
    MissingFewer(calls, keys);
    hide Logged, Missing, OwnStarts;
    forall j | 0 <= j < |lacking|
      ensures Logged(log, StartSlot(step, j, KeyOf(lacking[j]))) <==> KeyOf(lacking[j]) == KeyOf(calls[j])
    {
      OwnStart(log, step, calls, j, KeyOf(lacking[j]));
    }
  }

  // A step whose batch was never pending but as a whole has its own starts
  // only: so it is up to the first recovery.
  lemma {:induction false} OwnUntilRecovered(cfg: Config, h: seq<Durable>, j: nat, t: nat)
    requires Path(cfg, h) && j < |h| && Latest(h[j].log, KParsed, t).Some?
    requires forall k :: 0 <= k < j && h[k].row.step == t && h[k].row.pending != [] ==>
      h[k].row.pending == Latest(h[j].log, KParsed, t).value.calls
    ensures OwnStarts(h[j].log, t, Latest(h[j].log, KParsed, t).value.calls)
    decreases j
  {
    hide Next, Inv, Latest;
    PathInvariant(cfg, h, j);
    if j > 0 {
      var d, d' := h[j - 1], h[j];
      var calls := Latest(d'.log, KParsed, t).value.calls;
      PathInvariant(cfg, h, j - 1);
      assert Next(cfg, h[j - 1], h[j - 1 + 1]);
      StartOfPending(cfg, d, d');
      PathLater(cfg, h, j - 1, j);
      ParsedBefore(cfg, d, d', t);
      if Latest(d.log, KParsed, t).Some? {
        OwnUntilRecovered(cfg, h, j - 1, t);
      }
    } else {
      EmptyParsed(t);
    }
  }

  lemma EmptyParsed(t: nat)
    ensures Latest(Initial().log, KParsed, t).None?
  {
  }

  lemma ParsedBefore(cfg: Config, d: Durable, d': Durable, t: nat)
    requires Inv(cfg, d) && Inv(cfg, d') && d.log <= d'.log && Latest(d'.log, KParsed, t).Some?
    ensures Latest(d.log, KParsed, t).Some? ==> Latest(d.log, KParsed, t) == Latest(d'.log, KParsed, t)
    ensures Latest(d.log, KParsed, t).None? ==>
      forall i :: 0 <= i < |d.log| && d.log[i].step == t ==> !d.log[i].Started?
  {
    hide StepsClosed, RowOk, CostOk, ExecsOk, LogOk;
    assert d'.log[..|d.log|] == d.log;
    EmptyParsed(t);
    if Latest(d.log, KParsed, t).Some? { LatestInPrefix(cfg, d'.log, |d.log|, KParsed, t); }
    else if d.log != [] { NoneStarted(cfg, d.log, t); }
  }

  predicate IsPending(d: Durable, e: Event)
    requires e.Started?
  {
    e.step == d.row.step && e.index < |d.row.pending| && e.call == d.row.pending[e.index]
  }

  // A start is one of a pending call, at the current step.
  lemma StartOfPending(cfg: Config, d: Durable, d': Durable)
    requires Next(cfg, d, d')
    ensures d'.log == d.log || exists e :: d'.log == d.log + [e] && (e.Started? ==> IsPending(d, e))
  {
    if d' != d {
      var c :| Enabled(cfg, d, c) && d' == Apply(cfg, d, c);
      hide Accepted, CanRecord, CanSend, CanEndBatch, CanRecover, CanBegin, Latest, Logged;
      match c
      case Log(e) => assert d'.log == d.log || d'.log == d.log + [e];
      case Parse => assert d'.log == d.log || d'.log == d.log + [Parsed(d.row.step, d'.row.pending)];
      case Create => assert d'.log == d.log + [RunStarted(0)];
      case Finish(reason) => assert d'.log == d.log || d'.log == d.log + [Finished(d.row.step, reason)];
      case _ =>
    }
  }

  // In every state between batches of every history: the first recovery of the
  // step breaks the order if and only if a call of its batch with a result at
  // the step stands before one without, that is, before a repeated email.
  lemma FirstRecoveryBreaksOrder(cfg: Config, h: seq<Durable>, j: nat)
    requires Path(cfg, h) && j < |h| && CanRecover(cfg, h[j])
    requires Latest(h[j].log, KParsed, h[j].row.step).Some?
    requires forall k :: 0 <= k < j && h[k].row.step == h[j].row.step && h[k].row.pending != [] ==>
      h[k].row.pending == Latest(h[j].log, KParsed, h[j].row.step).value.calls
    ensures var d := h[j];
      StartAfterResult(WithStarts(d.log, d.row.step, RecoverCalls(d.log, d.row.step)), |d.log|, d.row.step)
      <==> AnsweredFirst(Latest(d.log, KParsed, d.row.step).value.calls, CompletedKeys(d.log, d.row.step))
  {
    var d, t := h[j], h[j].row.step;
    var calls, keys := Latest(d.log, KParsed, t).value.calls, CompletedKeys(d.log, t);
    var lacking := RecoverCalls(d.log, t);
    OwnUntilRecovered(cfg, h, j, t);
    PathInvariant(cfg, h, j);
    BatchWasStarted(cfg, d);
    RoundBreaksOrder(d.log, t, lacking);
    hide Path, Inv, CanRecover, AllStarted, WithStarts, StartAfterResult, CompletedKeys, Missing, OwnStarts;
    LackingStarted(d.log, t, calls, keys);
    KeepsPlaces(calls, keys);
  }
}
