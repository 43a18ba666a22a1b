// Rebuilding the conversation memory of a run from its event log, and what a
// live memory has in common with a rebuilt one.
module Resume {
  import opened Events
  import opened Window
  import opened Memory
  import opened Tokenizer
  import Shape

  const RESULT_BEGIN := "UNTRUSTED_TOOL_RESULT_BEGIN"
  const RESULT_END := "UNTRUSTED_TOOL_RESULT_END"

  // What a tool message renders: the whole result in the process that ran the
  // tool, its body alone on resume.
  datatype Payload = Whole(outcome: ToolResult) | BodyOf(body: string)

  // The user's request, and the stable JSON of a tool's name and payload.
  datatype Script = Script(request: string, json: (Tool, Payload) -> string)

  // Tool output is wrapped as data between two sentinels.
  function Rendered(s: Script, tool: Tool, payload: Payload): string {
    RESULT_BEGIN + "\n" + s.json(tool, payload) + "\n" + RESULT_END
  }

  function LiveText(s: Script, r: ToolResult): string { Rendered(s, r.tool, Whole(r)) }

  function ReplayText(s: Script, r: ToolResult): string { Rendered(s, r.tool, BodyOf(r.body)) }

  // The texts themselves.
  lemma TextsAre(s: Script, r: ToolResult)
    ensures LiveText(s, r) == "UNTRUSTED_TOOL_RESULT_BEGIN\n" + s.json(r.tool, Whole(r)) + "\nUNTRUSTED_TOOL_RESULT_END"
    ensures ReplayText(s, r) == "UNTRUSTED_TOOL_RESULT_BEGIN\n" + s.json(r.tool, BodyOf(r.body)) + "\nUNTRUSTED_TOOL_RESULT_END"
  {
    TextIs(s.json(r.tool, Whole(r)));
    TextIs(s.json(r.tool, BodyOf(r.body)));
  }

  lemma TextIs(json: string)
    ensures RESULT_BEGIN + "\n" + json + "\n" + RESULT_END
      == "UNTRUSTED_TOOL_RESULT_BEGIN\n" + json + "\nUNTRUSTED_TOOL_RESULT_END"
  {
    assert RESULT_BEGIN + "\n" == "UNTRUSTED_TOOL_RESULT_BEGIN\n" && "\n" + RESULT_END == "\nUNTRUSTED_TOOL_RESULT_END";
  }

  function OpOf(s: Script, e: Event): Option<Op> {
    match e
    case RunStarted(_) => Some(SayUser(s.request))
    case Said(_, text) => Some(SayAssistant(text))
    case Result(_, _, r) => Some(ToolOutput(ReplayText(s, r)))
    case _ => None
  }

  function OpsOf(s: Script, log: seq<Event>): seq<Op> {
    if log == [] then []
    else
      var before, op := OpsOf(s, log[..|log| - 1]), OpOf(s, log[|log| - 1]);
      if op.Some? then before + [op.value] else before
  }

  function MessageOf(op: Op): Option<Message> {
    match op
    case SayUser(text) => Some(Message(User, text))
    case SayAssistant(text) => Some(Message(Assistant, text))
    case ToolOutput(text) => Some(Message(Role.Tool, text))
    case Context => None
  }

  // The message an event replays fits the budget alone.
  predicate FitsAlone(s: Script, e: Event, budget: nat) {
    OpOf(s, e).Some? ==> MessageTokens(MessageOf(OpOf(s, e).value).value) <= budget
  }

  predicate AllFit(s: Script, log: seq<Event>, budget: nat) {
    forall i :: 0 <= i < |log| ==> FitsAlone(s, log[i], budget)
  }

  // Everything but the window.
  function Notes(m: Mem): Mem { m.(messages := []) }

  function Noted(m: Mem, op: Op): Mem {
    match op
    case SayUser(text) => m.(userTurns := m.userTurns + 1, facts := Preserve(m.facts, User, m.userTurns + 1, text))
    case SayAssistant(text) =>
      m.(assistantTurns := m.assistantTurns + 1, facts := Preserve(m.facts, Assistant, m.assistantTurns + 1, text))
    case ToolOutput(_) => m.(tainted := true)
    case Context => m
  }

  // What the log says a memory knows.
  function Recall(s: Script, log: seq<Event>): Mem {
    if log == [] then EMPTY
    else
      var before, op := Recall(s, log[..|log| - 1]), OpOf(s, log[|log| - 1]);
      if op.Some? then Noted(before, op.value) else before
  }

  // A memory, live or rebuilt, knows what the log says: the same facts, turn
  // counters and taint.
  predicate Remembers(s: Script, m: Mem, log: seq<Event>) { Notes(m) == Recall(s, log) }

  // The notes of an operation do not depend on the window.
  lemma NotesAfter(m: Mem, op: Op, budget: nat)
    ensures Notes(After(m, op, budget)) == Noted(Notes(m), op)
  {
    hide Build, Pushed, Preserve, WithPreamble, Selected;
  }

  lemma RecallAppend(s: Script, log: seq<Event>, e: Event)
    ensures Recall(s, log + [e]) == if OpOf(s, e).Some? then Noted(Recall(s, log), OpOf(s, e).value) else Recall(s, log)
  {
    assert (log + [e])[..|log|] == log;
  }

  // The taint flag says that some tool result is in the log.
  lemma {:induction false} RecallTainted(s: Script, log: seq<Event>)
    ensures Recall(s, log).tainted <==> Tainted(log)
  {
    hide Preserve;
    if log != [] {
      var before, e := log[..|log| - 1], log[|log| - 1];
      RecallTainted(s, before);
      if Tainted(before) {
        var i :| 0 <= i < |before| && before[i].Result?;
        assert log[i].Result?;
      }
    }
  }

  lemma {:induction false} RunRemembers(s: Script, log: seq<Event>, budget: nat)
    ensures Notes(Run(EMPTY, OpsOf(s, log), budget)) == Recall(s, log)
  {
    hide After, Noted;
    if log != [] {
      var before, op := log[..|log| - 1], OpOf(s, log[|log| - 1]);
      RunRemembers(s, before, budget);
      if op.Some? {
        var ops := OpsOf(s, before);
        assert (ops + [op.value])[..|ops|] == ops;
        NotesAfter(Run(EMPTY, ops, budget), op.value, budget);
      }
    }
  }

  // ----- what a process shows its model -----

  // The operation by which a newly logged event reaches the conversation.
  function VoiceOf(s: Script, e: Event): Option<Op> {
    match e
    case RunStarted(_) => Some(SayUser(s.request))
    case Said(_, text) => Some(SayAssistant(text))
    case Result(_, _, r) => Some(ToolOutput(LiveText(s, r)))
    case _ => None
  }

  function Voices(s: Script, events: seq<Event>): seq<Op> {
    if events == [] then []
    else
      var before, op := Voices(s, events[..|events| - 1]), VoiceOf(s, events[|events| - 1]);
      if op.Some? then before + [op.value] else before
  }

  // From one moment to a later one the log has grown, and the memory has taken
  // up exactly what is new in it, in order.
  ghost predicate Spoke(s: Script, m: Mem, m': Mem, log: seq<Event>, log': seq<Event>, budget: nat) {
    log <= log' && m' == Run(m, Voices(s, log'[|log|..]), budget)
  }

  lemma SpokeNothing(s: Script, m: Mem, log: seq<Event>, budget: nat)
    ensures Spoke(s, m, m, log, log, budget)
  {
    assert log[|log|..] == [];
  }

  lemma SpokeOne(s: Script, m: Mem, m': Mem, log: seq<Event>, log': seq<Event>, e: Event, budget: nat)
    requires Spoke(s, m, m', log, log', budget)
    ensures Spoke(s, m, if VoiceOf(s, e).Some? then After(m', VoiceOf(s, e).value, budget) else m', log, log' + [e], budget)
  {
    hide After;
    var events := log'[|log|..];
    assert (log' + [e])[|log|..] == events + [e] && (events + [e])[..|events|] == events;
    var ops := Voices(s, events);
    if VoiceOf(s, e).Some? { assert (ops + [VoiceOf(s, e).value])[..|ops|] == ops; }
  }

  lemma SpokeSilent(s: Script, m: Mem, m': Mem, log: seq<Event>, log': seq<Event>, e: Event, budget: nat)
    requires Spoke(s, m, m', log, log', budget) && VoiceOf(s, e).None?
    ensures Spoke(s, m, m', log, Insert(log', e), budget)
  {
    hide Spoke, VoiceOf, Logged;
    SpokeOne(s, m, m', log, log', e, budget);
  }

  lemma {:induction false} RunConcat(m: Mem, a: seq<Op>, b: seq<Op>, budget: nat)
    ensures Run(m, a + b, budget) == Run(Run(m, a, budget), b, budget)
    decreases |b|
  {
    hide After;
    if b == [] {
      assert a + b == a;
    } else {
      assert (a + b)[..|a + b| - 1] == a + b[..|b| - 1];
      RunConcat(m, a, b[..|b| - 1], budget);
    }
  }

  lemma {:induction false} VoicesConcat(s: Script, a: seq<Event>, b: seq<Event>)
    ensures Voices(s, a + b) == Voices(s, a) + Voices(s, b)
    decreases |b|
  {
    hide VoiceOf;
    if b == [] {
      assert a + b == a;
    } else {
      assert (a + b)[..|a + b| - 1] == a + b[..|b| - 1];
      VoicesConcat(s, a, b[..|b| - 1]);
    }
  }

  lemma SpokeOn(s: Script, m: Mem, m1: Mem, m2: Mem, log: seq<Event>, log1: seq<Event>, log2: seq<Event>, budget: nat)
    requires Spoke(s, m, m1, log, log1, budget) && Spoke(s, m1, m2, log1, log2, budget)
    ensures Spoke(s, m, m2, log, log2, budget)
  {
    hide Run, Voices;
    assert log2[|log|..] == log1[|log|..] + log2[|log1|..];
    VoicesConcat(s, log1[|log|..], log2[|log1|..]);
    RunConcat(m, Voices(s, log1[|log|..]), Voices(s, log2[|log1|..]), budget);
  }

  // Nothing new in the log reaches the conversation.
  ghost predicate Wordless(s: Script, log: seq<Event>, log': seq<Event>) {
    log <= log' && Voices(s, log'[|log|..]) == []
  }

  lemma WordlessNone(s: Script, log: seq<Event>)
    ensures Wordless(s, log, log)
  {
    assert log[|log|..] == [];
  }

  lemma WordlessOne(s: Script, log: seq<Event>, log': seq<Event>, e: Event)
    requires Wordless(s, log, log') && VoiceOf(s, e).None?
    ensures Wordless(s, log, Insert(log', e)) && Wordless(s, log, log' + [e])
  {
    hide VoiceOf, Logged, Voices, EventKeyOf;
    assert (log' + [e])[|log|..] == log'[|log|..] + [e];
    VoicesConcat(s, log'[|log|..], [e]);
    OneVoice(s, e);
  }

  lemma OneVoice(s: Script, e: Event)
    requires VoiceOf(s, e).None?
    ensures Voices(s, [e]) == []
  {
    hide VoiceOf;
    assert [e][..0] == [];
  }

  lemma WordlessOn(s: Script, log: seq<Event>, log1: seq<Event>, log2: seq<Event>)
    requires Wordless(s, log, log1) && Wordless(s, log1, log2)
    ensures Wordless(s, log, log2)
  {
    hide Voices;
    assert log2[|log|..] == log1[|log|..] + log2[|log1|..];
    VoicesConcat(s, log1[|log|..], log2[|log1|..]);
  }

  lemma SpokeWordless(s: Script, m: Mem, m': Mem, log: seq<Event>, log1: seq<Event>, log2: seq<Event>, budget: nat)
    requires Spoke(s, m, m', log, log1, budget) && Wordless(s, log1, log2)
    ensures Spoke(s, m, m', log, log2, budget)
  {
    hide Voices;
    NothingRuns(m', budget);
    SpokeOn(s, m, m', m', log, log1, log2, budget);
  }

  lemma NothingRuns(m: Mem, budget: nat)
    ensures Run(m, [], budget) == m
  {
  }

  // A memory that takes up an event the moment it is logged stays in line.
  lemma RememberNext(s: Script, m: Mem, log: seq<Event>, e: Event, op: Op, budget: nat)
    requires Remembers(s, m, log) && OpOf(s, e).Some? && Noted(Notes(m), op) == Noted(Notes(m), OpOf(s, e).value)
    ensures Remembers(s, After(m, op, budget), log + [e])
  {
    RecallAppend(s, log, e);
    NotesAfter(m, op, budget);
    hide After, Noted, Recall;
  }

  lemma OneMore(s: Script, log: seq<Event>, n: nat, budget: nat)
    requires n < |log|
    ensures var before, op := Run(EMPTY, OpsOf(s, log[..n]), budget), OpOf(s, log[n]);
      Run(EMPTY, OpsOf(s, log[..n + 1]), budget) == if op.Some? then After(before, op.value, budget) else before
  {
    hide After;
    assert log[..n + 1][..n] == log[..n];
    var ops, op := OpsOf(s, log[..n]), OpOf(s, log[n]);
    if op.Some? { assert (ops + [op.value])[..|ops|] == ops; }
  }

  lemma ReturnsIfFits(m: Mem, l: Shape.Layout, op: Op, budget: nat) returns (l': Shape.Layout)
    requires !op.Context? && m.messages == Shape.Flatten(l) && Shape.Sound(l) && Shape.Plain(l, budget)
    ensures Returns(m, op, budget) <==> MessageTokens(MessageOf(op).value) <= budget
    ensures Returns(m, op, budget) ==>
      After(m, op, budget).messages == Shape.Flatten(l') && Shape.Sound(l') && Shape.Plain(l', budget)
  {
    hide MessageTokens, CompactTo, Fits, Preserve, Shape.Flatten, Shape.Sound, Shape.Plain;
    l' := l;
    if MessageTokens(MessageOf(op).value) <= budget {
      l' := Shape.PlainPush(l, MessageOf(op).value, budget);
    }
  }

  // A log all of whose messages fit alone leads to a window without preamble
  // and ledger.
  lemma {:induction false} PlainRun(s: Script, log: seq<Event>, budget: nat) returns (l: Shape.Layout)
    requires AllFit(s, log, budget)
    ensures Run(EMPTY, OpsOf(s, log), budget).messages == Shape.Flatten(l) && Shape.Sound(l) && Shape.Plain(l, budget)
  {
    hide After, Returns, FitsAlone, Shape.Flatten, Shape.Sound, Shape.Plain;
    if log == [] {
      l := Shape.Layout(false, None, None, []);
      Shape.EmptyLayout();
      EmptyPlain(budget);
    } else {
      var n := |log| - 1;
      assert log[..n + 1] == log;
      var prev := PlainRun(s, log[..n], budget);
      OneMore(s, log, n, budget);
      FitsMeans(s, log[n], budget);
      l := prev;
      if OpOf(s, log[n]).Some? {
        l := ReturnsIfFits(Run(EMPTY, OpsOf(s, log[..n]), budget), prev, OpOf(s, log[n]).value, budget);
      }
    }
  }

  lemma EmptyPlain(budget: nat)
    ensures Shape.Plain(Shape.Layout(false, None, None, []), budget)
  {
    Shape.EmptyRoot();
  }

  lemma FitsMeans(s: Script, e: Event, budget: nat)
    requires FitsAlone(s, e, budget)
    ensures OpOf(s, e).Some? ==>
      !OpOf(s, e).value.Context? && MessageTokens(MessageOf(OpOf(s, e).value).value) <= budget
  {
    hide MessageTokens;
  }

  // After messages that fit alone, an event is replayed without a raise if and
  // only if its own message fits alone.
  lemma NextReplays(s: Script, log: seq<Event>, n: nat, budget: nat)
    requires n < |log| && AllFit(s, log[..n], budget) && OpOf(s, log[n]).Some?
    ensures Returns(Run(EMPTY, OpsOf(s, log[..n]), budget), OpOf(s, log[n]).value, budget) <==> FitsAlone(s, log[n], budget)
  {
    hide After, Returns, MessageTokens, Shape.Flatten, Shape.Sound, Shape.Plain;
    var l := PlainRun(s, log[..n], budget);
    var l' := ReturnsIfFits(Run(EMPTY, OpsOf(s, log[..n]), budget), l, OpOf(s, log[n]).value, budget);
  }

  lemma FitMore(s: Script, log: seq<Event>, n: nat, budget: nat)
    requires n < |log| && AllFit(s, log[..n], budget)
    ensures AllFit(s, log[..n + 1], budget) <==> FitsAlone(s, log[n], budget)
    ensures AllFit(s, log, budget) ==> FitsAlone(s, log[n], budget)
  {
    hide FitsAlone;
    assert log[..n + 1][n] == log[n];
  }

  method ReplayEvent(s: Script, e: Event, memory: MemoryManager) returns (o: Outcome)
    modifies memory, memory.window
    ensures !o.Killed?
    ensures o.Ok? && OpOf(s, e).Some? ==>
      memory.Value() == After(old(memory.Value()), OpOf(s, e).value, memory.window.budget)
    ensures o.Ok? <==> (OpOf(s, e).Some? ==> Returns(old(memory.Value()), OpOf(s, e).value, memory.window.budget))
    ensures o.Ok? && OpOf(s, e).None? ==> memory.Value() == old(memory.Value())
    ensures e.RunStarted? ==> memory.Value() == After(old(memory.Value()), SayUser(s.request), memory.window.budget)
    ensures e.Said? ==> memory.Value() == After(old(memory.Value()), SayAssistant(e.text), memory.window.budget)
    ensures e.Result? ==>
      memory.Value() == After(old(memory.Value()), ToolOutput(ReplayText(s, e.outcome)), memory.window.budget)
    ensures !e.RunStarted? && !e.Said? && !e.Result? ==> o.Ok? && memory.Value() == old(memory.Value())
  {
    hide After, Returns;
    o := Ok;
    match e
    case RunStarted(_) => o := memory.AddUserMessage(s.request);
    case Said(_, text) => o := memory.AddAssistantMessage(text);
    case Result(_, _, r) => o := memory.AddToolResult(ReplayText(s, r));
    case _ =>
  }

  // Rebuilds a memory by replaying the log; it raises if and only if some
  // logged message does not fit the budget alone.
  method FromEvents(s: Script, events: seq<Event>, budget: Budget) returns (o: Outcome, memory: MemoryManager)
    ensures fresh(memory) && fresh(memory.window) && memory.window.budget == budget && !o.Killed?
    ensures o.Ok? <==> AllFit(s, events, budget)
    ensures o.Ok? ==> memory.Value() == Run(EMPTY, OpsOf(s, events), budget) && Remembers(s, memory.Value(), events)
  {
    hide After, Remembers, Returns, OpOf, FitsAlone;
    memory := new MemoryManager(budget);
    o := Ok;
    for i := 0 to |events|
      invariant fresh(memory) && fresh(memory.window) && memory.window.budget == budget && o == Ok
      invariant memory.Value() == Run(EMPTY, OpsOf(s, events[..i]), budget) && AllFit(s, events[..i], budget)
    {
      OneMore(s, events, i, budget);
      FitMore(s, events, i, budget);
      if OpOf(s, events[i]).Some? { NextReplays(s, events, i, budget); } else { SilentFits(s, events[i], budget); }
      :- ReplayEvent(s, events[i], memory);
    }
    assert events[..|events|] == events;
    RunRemembersAll(s, events, budget);
  }

  lemma SilentFits(s: Script, e: Event, budget: nat)
    requires OpOf(s, e).None?
    ensures FitsAlone(s, e, budget)
  {
  }

  lemma RunRemembersAll(s: Script, log: seq<Event>, budget: nat)
    ensures Remembers(s, Run(EMPTY, OpsOf(s, log), budget), log)
  {
    RunRemembers(s, log, budget);
  }
}
