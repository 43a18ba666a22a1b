// The durable vocabulary of a run: tool calls and their idempotency keys, the
// append-only event log with its unique keys, and the questions the runtime
// asks of the log.
module Events {

  datatype Option<+T> = None | Some(value: T)

  // How a call ends: it returns, the process is killed in it, or it raises.
  datatype Outcome = Ok | Killed | Raised(message: string) {
    predicate IsFailure() { !Ok? }
    function PropagateFailure(): Outcome
      requires IsFailure()
    {
      this
    }
  }

  // The errors that end a run, by the names of their exceptions.
  const NO_PROGRESS := "NoProgressError"
  const OVER_BUDGET := "BudgetExceededError"
  const PARTIAL_TURN := "PartialToolTurnError"
  const CONTRADICTION := "ModelContradictionError"
  const NETWORK_FAILURE := "NetworkFailureError"
  const CIRCUIT_OPEN := "CircuitBreakerOpenError"
  const CONTEXT_LIMIT := "ContextLimitExceededError"

  // A JSON value as far as the runtime looks at it: absent or null, a string,
  // or anything else.
  datatype Value = Null | Text(text: string) | Other(json: string)

  // A call's argument object: the fields some code reads by name, and all the
  // others together.
  datatype Args = Args(to: Value, subject: Value, body: Value, path: Value, content: Value, others: string)

  datatype Tool = ReadFile | WriteFile | RunPython | HttpGet | SendEmail | Unknown(name: string)

  datatype Call = Call(id: string, tool: Tool, args: Args)

  // The digest of canonical JSON is taken to be injective, so a key is the
  // material it digests: for an email only its logical content, for any other
  // call the whole call. The run id is fixed and left out.
  datatype Key = EmailKey(to: Value, subject: Value, body: Value) | CallKey(call: Call)

  function KeyOf(call: Call): Key {
    if call.tool == SendEmail then EmailKey(call.args.to, call.args.subject, call.args.body) else CallKey(call)
  }

  type Digest = seq<(Tool, Args)>

  function DigestOf(calls: seq<Call>): Digest {
    seq(|calls|, i requires 0 <= i < |calls| => (calls[i].tool, calls[i].args))
  }

  // Two batches ask for the same tools with the same arguments, in order; the
  // ids of the calls do not matter.
  predicate SameWork(a: seq<Call>, b: seq<Call>) {
    |a| == |b| && forall i :: 0 <= i < |a| ==> a[i].tool == b[i].tool && a[i].args == b[i].args
  }

  lemma SameDigest(a: seq<Call>, b: seq<Call>)
    ensures DigestOf(a) == DigestOf(b) <==>
      |a| == |b| && forall i :: 0 <= i < |a| ==> a[i].tool == b[i].tool && a[i].args == b[i].args
  {
    if DigestOf(a) == DigestOf(b) {
      assert |DigestOf(a)| == |a| && |DigestOf(b)| == |b|;
      forall i | 0 <= i < |a| ensures a[i].tool == b[i].tool && a[i].args == b[i].args {
        assert DigestOf(a)[i] == DigestOf(b)[i];
      }
    }
  }

  // Two calls have one key exactly if they are the same call, or emails to the
  // same address with the same subject and body.
  lemma SameKey(a: Call, b: Call)
    ensures KeyOf(a) == KeyOf(b) <==>
      a == b || (a.tool == SendEmail && b.tool == SendEmail && a.args.to == b.args.to && a.args.subject == b.args.subject
      && a.args.body == b.args.body)
  {
  }

  // A model response is carried together with its (deterministic) parse.
  datatype Response = Response(
    text: string, calls: seq<Call>, errors: seq<string>, partial: bool, expected: Option<nat>, tokens: nat)
  {
    // An interrupted turn that does not show all the calls it announced.
    predicate Incomplete() {
      partial && (expected.None? || |calls| < expected.value)
    }
  }

  datatype ToolResult = ToolResult(id: string, tool: Tool, ok: bool, body: string, error: string, key: Key)

  datatype Reason = Completed | StepLimitReached | Error(message: string)

  datatype Event =
    | RunStarted(step: nat)
    | StepStart(step: nat, total: nat)
    | StepLimit(step: nat)
    | ProgressCheck(step: nat, digest: Digest, repeats: nat)
    | Request(step: nat, tokens: nat)
    | Responded(step: nat, response: Response)
    | Said(step: nat, text: string)
    | ParseFailed(step: nat, index: nat, error: string)
    | Charged(step: nat, cost: nat, total: nat)
    | PartialTurn(step: nat)
    | Contradicted(step: nat)
    | Parsed(step: nat, calls: seq<Call>)
    | Started(step: nat, index: nat, call: Call)
    | Result(step: nat, index: nat, outcome: ToolResult)
    | Finished(step: nat, reason: Reason)

  datatype Kind = KRequest | KResponse | KCharge | KParsed | KPartial | KFinish | KOther

  function KindOf(e: Event): Kind {
    match e
    case Request(_, _) => KRequest
    case Responded(_, _) => KResponse
    case Charged(_, _, _) => KCharge
    case Parsed(_, _) => KParsed
    case PartialTurn(_) => KPartial
    case Finished(_, _) => KFinish
    case _ => KOther
  }

  // The UNIQUE column of the events table. Content-digest keys are the event
  // itself; an email result is keyed by the email alone, without its step.
  datatype EventKey =
    | NoKey
    | Slot(kind: Kind, step: nat)
    | Content(event: Event)
    | StartSlot(step: nat, index: nat, key: Key)
    | ResultSlot(step: nat, index: nat, key: Key)
    | EmailResult(key: Key)
    | FinishSlot

  function ResultKey(step: nat, index: nat, tool: Tool, key: Key): EventKey {
    if tool == SendEmail then EmailResult(key) else ResultSlot(step, index, key)
  }

  function EventKeyOf(e: Event): EventKey {
    match e
    case RunStarted(_) => NoKey
    case Started(step, index, call) => StartSlot(step, index, KeyOf(call))
    case Result(step, index, r) => ResultKey(step, index, r.tool, r.key)
    case Finished(_, _) => FinishSlot
    case _ => if KindOf(e) == KOther then Content(e) else Slot(KindOf(e), e.step)
  }

  predicate Logged(log: seq<Event>, k: EventKey) {
    exists i :: 0 <= i < |log| && EventKeyOf(log[i]) == k
  }

  // INSERT OR IGNORE on the unique key.
  function Insert(log: seq<Event>, e: Event): seq<Event> {
    if EventKeyOf(e) != NoKey && Logged(log, EventKeyOf(e)) then log else log + [e]
  }

  // The latest event of one kind at one step.
  function Latest(log: seq<Event>, kind: Kind, step: nat): (r: Option<Event>)
    ensures r.Some? ==> KindOf(r.value) == kind && r.value.step == step && r.value in log
  {
    if log == [] then None
    else
      var last := log[|log| - 1];
      if KindOf(last) == kind && last.step == step then Some(last) else Latest(log[..|log| - 1], kind, step)
  }

  function LatestProgress(log: seq<Event>): (r: Option<Event>)
    ensures r.Some? ==> r.value.ProgressCheck? && r.value in log
  {
    if log == [] then None
    else if log[|log| - 1].ProgressCheck? then Some(log[|log| - 1])
    else LatestProgress(log[..|log| - 1])
  }

  function LatestProgressBefore(log: seq<Event>, step: nat): (r: Option<Event>)
    ensures r.Some? ==> r.value.ProgressCheck? && r.value.step < step && r.value in log
  {
    if log == [] then None
    else if log[|log| - 1].ProgressCheck? && log[|log| - 1].step < step then Some(log[|log| - 1])
    else LatestProgressBefore(log[..|log| - 1], step)
  }

  // The total of the last charge in the log.
  function CostSoFar(log: seq<Event>): nat {
    if log == [] then 0
    else if log[|log| - 1].Charged? then log[|log| - 1].total
    else CostSoFar(log[..|log| - 1])
  }

  // Some tool output has entered the conversation.
  predicate Tainted(log: seq<Event>) {
    exists i :: 0 <= i < |log| && log[i].Result?
  }

  function CompletedKeys(log: seq<Event>, step: nat): set<Key> {
    set i | 0 <= i < |log| && log[i].Result? && log[i].step == step :: log[i].outcome.key
  }

  // The calls, in order, whose key is not among the given ones.
  function Missing(calls: seq<Call>, keys: set<Key>): seq<Call> {
    if calls == [] then []
    else (if KeyOf(calls[0]) in keys then [] else [calls[0]]) + Missing(calls[1..], keys)
  }

  // The calls parsed at a step that have no result event at that step.
  function RecoverCalls(log: seq<Event>, step: nat): seq<Call> {
    match Latest(log, KParsed, step)
    case None => []
    case Some(e) => Missing(e.calls, CompletedKeys(log, step))
  }

  // The recorded response of a step that still has to be processed.
  function ResponseToProcess(log: seq<Event>, step: nat): (r: Option<Response>)
    ensures r.Some? ==> step > 0 && Latest(log, KResponse, step).Some? && r.value == Latest(log, KResponse, step).value.response
  {
    if step == 0 || Latest(log, KResponse, step).None? then None
    else if Latest(log, KParsed, step).Some? || Latest(log, KFinish, step).Some? then None
    else Some(Latest(log, KResponse, step).value.response)
  }

  lemma {:induction false} MissingEmpty(calls: seq<Call>, keys: set<Key>)
    ensures Missing(calls, keys) == [] <==> forall i :: 0 <= i < |calls| ==> KeyOf(calls[i]) in keys
  {
    if calls != [] {
      MissingEmpty(calls[1..], keys);
      if Missing(calls, keys) == [] {
        forall i | 0 <= i < |calls| ensures KeyOf(calls[i]) in keys {
          if i > 0 { assert calls[i] == calls[1..][i - 1]; }
        }
      }
    }
  }

  lemma {:induction false} MissingMembers(calls: seq<Call>, keys: set<Key>)
    ensures forall c :: c in Missing(calls, keys) <==> c in calls && KeyOf(c) !in keys
  {
    if calls != [] { MissingMembers(calls[1..], keys); }
  }

  // The missing calls stand in the order, and as often, as in the batch.
  lemma {:induction false} MissingAppend(calls: seq<Call>, c: Call, keys: set<Key>)
    ensures Missing(calls + [c], keys) == Missing(calls, keys) + if KeyOf(c) in keys then [] else [c]
  {
    if calls == [] {
      assert [] + [c] == [c] && [c][1..] == [];
    } else {
      assert (calls + [c])[1..] == calls[1..] + [c];
      MissingAppend(calls[1..], c, keys);
    }
  }

  // What appending one event does to the questions asked of the log.
  lemma LatestAppend(log: seq<Event>, e: Event, kind: Kind, step: nat)
    ensures Latest(log + [e], kind, step) == if KindOf(e) == kind && e.step == step then Some(e) else Latest(log, kind, step)
  {
    assert (log + [e])[..|log|] == log;
  }

  lemma {:induction false} LatestComplete(log: seq<Event>, kind: Kind, step: nat)
    requires exists e :: e in log && KindOf(e) == kind && e.step == step
    ensures Latest(log, kind, step).Some?
  {
    var e :| e in log && KindOf(e) == kind && e.step == step;
    if log[|log| - 1] != e {
      assert e in log[..|log| - 1];
      LatestComplete(log[..|log| - 1], kind, step);
    }
  }
}
