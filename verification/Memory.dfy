// The conversation memory of a run: turn counters, the durable facts, the
// taint flag and the message window, as a class proved against functions on
// its abstract value.
module Memory {
  import opened Events
  import opened Tokenizer
  import opened Text
  import opened Window

  datatype Fact = Fact(role: Role, turn: nat, content: string, priority: nat)

  const FACT_CHARS := 240
  const FACT_LIMIT := 80
  const MARKERS := [" remember ", " fact ", " turn ", " called ", " named ", " is ", " equals ", "="]

  function Lower(s: string): string {
    seq(|s|, i requires 0 <= i < |s| => if 'A' <= s[i] <= 'Z' then (s[i] as int + 32) as char else s[i])
  }

  predicate Contains(s: string, part: string) {
    exists i :: 0 <= i <= |s| && part <= s[i..]
  }

  predicate HasMarker(content: string) {
    exists k :: 0 <= k < |MARKERS| && Contains(" " + Lower(Normalise(content)) + " ", MARKERS[k])
  }

  // The fact a turn leaves behind, if any: the first five user turns always,
  // later turns when they look like facts.
  function FactOf(role: Role, turn: nat, content: string): Option<Fact> {
    var clipped := Clip(content, FACT_CHARS);
    var early := role == User && turn <= 5;
    if clipped == "" || (!early && !HasMarker(clipped)) then None
    else Some(Fact(role, turn, clipped, if early then 100 else if role == User then 90 else 40))
  }

  predicate SameFact(f: Fact, g: Fact) { f.role == g.role && f.turn == g.turn && f.content == g.content }

  function Preserve(facts: seq<Fact>, role: Role, turn: nat, content: string): seq<Fact> {
    var fact := FactOf(role, turn, content);
    if fact.None? || (exists i :: 0 <= i < |facts| && SameFact(facts[i], fact.value)) then facts
    else facts + [fact.value]
  }

  // ----- the ledger -----

  function Line(f: Fact): string { "- " + Label(f.role) + " turn " + Decimal(f.turn) + ": " + f.content }

  function Lines(facts: seq<Fact>): seq<string> {
    if facts == [] then [] else Lines(facts[..|facts| - 1]) + [Line(facts[|facts| - 1])]
  }

  function Ledger(facts: seq<Fact>): Message {
    Message(System, FACTS_PREFIX + "\n" + JoinBy(Lines(facts), "\n"))
  }

  function LedgerBudget(budget: nat): nat {
    var third := if budget / 3 > 24 then budget / 3 else 24;
    if third < 2400 then third else 2400
  }

  // Every fact in turn that still fits with those selected before it.
  function Select(facts: seq<Fact>, limit: nat): seq<Fact> {
    if facts == [] then []
    else
      var chosen := Select(facts[..|facts| - 1], limit);
      var candidate := chosen + [facts[|facts| - 1]];
      if MessageTokens(Ledger(candidate)) <= limit then candidate else chosen
  }

  // The index of the first fact of the lowest priority.
  function Lowest(facts: seq<Fact>): (r: nat)
    requires facts != []
    ensures r < |facts|
    ensures forall i :: 0 <= i < |facts| ==> facts[r].priority <= facts[i].priority
    ensures forall i :: 0 <= i < r ==> facts[r].priority < facts[i].priority
  {
    if |facts| == 1 then 0
    else
      var r := Lowest(facts[..|facts| - 1]);
      assert forall i :: 0 <= i < |facts| - 1 ==> facts[..|facts| - 1][i] == facts[i];
      if facts[|facts| - 1].priority < facts[r].priority then |facts| - 1 else r
  }

  function Trim(facts: seq<Fact>): seq<Fact> {
    if facts == [] then [] else facts[..Lowest(facts)] + facts[Lowest(facts) + 1..]
  }

  // ----- the context -----

  function WithPreamble(ms: seq<Message>): seq<Message> {
    if exists i :: 0 <= i < |ms| && IsPreamble(ms[i]) then ms else [Message(System, SAFETY_PREAMBLE)] + ms
  }

  function WithoutLedgers(ms: seq<Message>): seq<Message> {
    if ms == [] then []
    else WithoutLedgers(ms[..|ms| - 1]) + if IsLedger(ms[|ms| - 1]) then [] else [ms[|ms| - 1]]
  }

  function Sync(ms: seq<Message>, facts: seq<Fact>): seq<Message> {
    var rest := WithoutLedgers(ms);
    if facts == [] then rest
    else
      var at := if rest != [] && IsPreamble(rest[0]) then 1 else 0;
      rest[..at] + [Ledger(facts)] + rest[at..]
  }

  // What the trimming loop leaves in the window, and whether it returns.
  function Build(ms: seq<Message>, facts: seq<Fact>, budget: nat): (seq<Message>, bool)
    decreases |facts|
  {
    var synced := Sync(ms, facts);
    if Fits(synced, budget) then (CompactTo(synced, budget), true)
    else if facts == [] then (CompactTo(synced, budget), false)
    else Build(CompactTo(synced, budget), Trim(facts), budget)
  }

  // The abstract value of a memory.
  datatype Mem = Mem(messages: seq<Message>, facts: seq<Fact>, userTurns: nat, assistantTurns: nat, tainted: bool)

  datatype Op = SayUser(text: string) | SayAssistant(text: string) | ToolOutput(text: string) | Context

  function Pushed(ms: seq<Message>, role: Role, text: string, budget: nat): seq<Message> {
    if MessageTokens(Message(role, text)) > budget then ms else CompactTo(ms + [Message(role, text)], budget)
  }

  predicate Accepts(ms: seq<Message>, role: Role, text: string, budget: nat) {
    MessageTokens(Message(role, text)) <= budget && Fits(ms + [Message(role, text)], budget)
  }

  function First(facts: seq<Fact>, n: nat): seq<Fact> { if |facts| < n then facts else facts[..n] }

  function Selected(m: Mem, budget: nat): seq<Fact> { Select(First(m.facts, FACT_LIMIT), LedgerBudget(budget)) }

  function After(m: Mem, op: Op, budget: nat): Mem {
    match op
    case SayUser(text) =>
      m.(userTurns := m.userTurns + 1, facts := Preserve(m.facts, User, m.userTurns + 1, text),
         messages := Pushed(m.messages, User, text, budget))
    case SayAssistant(text) =>
      m.(assistantTurns := m.assistantTurns + 1, facts := Preserve(m.facts, Assistant, m.assistantTurns + 1, text),
         messages := Pushed(m.messages, Assistant, text, budget))
    case ToolOutput(text) => m.(tainted := true, messages := Pushed(m.messages, Tool, text, budget))
    case Context => m.(messages := Build(WithPreamble(m.messages), Selected(m, budget), budget).0)
  }

  predicate Returns(m: Mem, op: Op, budget: nat) {
    match op
    case SayUser(text) => Accepts(m.messages, User, text, budget)
    case SayAssistant(text) => Accepts(m.messages, Assistant, text, budget)
    case ToolOutput(text) => Accepts(m.messages, Tool, text, budget)
    case Context => Build(WithPreamble(m.messages), Selected(m, budget), budget).1
  }

  const EMPTY := Mem([], [], 0, 0, false)

  // The memory after a history of operations, going on after a raise as the
  // object would.
  function Run(m: Mem, ops: seq<Op>, budget: nat): Mem {
    if ops == [] then m else After(Run(m, ops[..|ops| - 1], budget), ops[|ops| - 1], budget)
  }

  // ----- the memory object -----

  class MemoryManager {
    const window: MemoryWindow
    var durableFacts: seq<Fact>
    var userTurns: nat
    var assistantTurns: nat
    var hasToolResultData: bool

    function Value(): Mem
      reads this, window
    {
      Mem(window.messages, durableFacts, userTurns, assistantTurns, hasToolResultData)
    }

    constructor (budget: Budget)
      ensures fresh(window) && window.budget == budget
      ensures Value() == EMPTY
    {
      window := new MemoryWindow(budget);
      durableFacts := [];
      userTurns := 0;
      assistantTurns := 0;
      hasToolResultData := false;
    }

    method AddUserMessage(text: string) returns (o: Outcome)
      modifies this, window
      ensures Value() == After(old(Value()), SayUser(text), window.budget)
      ensures o.Raised? ==> o.message == CONTEXT_LIMIT
      ensures !o.Killed? && (o.Ok? <==> Returns(old(Value()), SayUser(text), window.budget))
    {
      hide Preserve, CompactTo, TotalTokens;
      userTurns := userTurns + 1;
      PreserveFact(User, userTurns, text);
      o := window.Add(User, text);
    }

    method AddAssistantMessage(text: string) returns (o: Outcome)
      modifies this, window
      ensures Value() == After(old(Value()), SayAssistant(text), window.budget)
      ensures o.Raised? ==> o.message == CONTEXT_LIMIT
      ensures !o.Killed? && (o.Ok? <==> Returns(old(Value()), SayAssistant(text), window.budget))
    {
      hide Preserve, CompactTo, TotalTokens;
      assistantTurns := assistantTurns + 1;
      PreserveFact(Assistant, assistantTurns, text);
      o := window.Add(Assistant, text);
    }

    // The flag is set before the window may refuse the message.
    method AddToolResult(rendered: string) returns (o: Outcome)
      modifies this, window
      ensures Value() == After(old(Value()), ToolOutput(rendered), window.budget)
      ensures o.Raised? ==> o.message == CONTEXT_LIMIT
      ensures !o.Killed? && (o.Ok? <==> Returns(old(Value()), ToolOutput(rendered), window.budget))
    {
      hasToolResultData := true;
      o := window.Add(Tool, rendered);
    }

    method PreserveFact(role: Role, turn: nat, content: string)
      modifies this`durableFacts
      ensures durableFacts == Preserve(old(durableFacts), role, turn, content)
    {
      var clipped := Clip(content, FACT_CHARS);
      if clipped == "" {
        return;
      }
      var early := role == User && turn <= 5;
      var marked := HasMarker(clipped);
      if !early && !marked {
        return;
      }
      var priority := if early then 100 else if role == User then 80 else 40;
      if marked && role == User && priority < 90 { priority := 90; }
      var fact := Fact(role, turn, clipped, priority);
      if exists i :: 0 <= i < |durableFacts| && SameFact(durableFacts[i], fact) {
        return;
      }
      durableFacts := durableFacts + [fact];
    }

    method GetCompactedContext() returns (o: Outcome, context: seq<Message>)
      modifies window
      ensures Value() == After(old(Value()), Context, window.budget)
      ensures o.Raised? ==> o.message == CONTEXT_LIMIT
      ensures !o.Killed? && (o.Ok? <==> Returns(old(Value()), Context, window.budget))
      ensures o.Ok? ==> context == window.messages && TotalTokens(context) <= window.budget
    {
      hide CompactTo, TotalTokens, Sync, Select, WithPreamble, IsPreamble, CountTokens;
      EnsureSafetyPreamble();
      var selected := BoundedFactEntries(First(durableFacts, FACT_LIMIT));
      ghost var build := Build(window.messages, selected, window.budget);
      context := [];
      while true
        invariant Build(window.messages, selected, window.budget) == build
        invariant unchanged(this)
        decreases |selected|
      {
        SyncDurableFactsMessage(selected);
        o := window.CompactIfNeeded();
        if o.Ok? {
          context := window.messages;
          var tokens := CountMessageTokens(context);
          if tokens <= window.budget {
            return;
          }
          assert false;
        }
        var trimmed := TrimFactEntries(selected);
        if trimmed == selected {
          return;
        }
        selected := trimmed;
      }
    }

    method EnsureSafetyPreamble()
      modifies window
      ensures window.messages == WithPreamble(old(window.messages))
    {
      if exists i :: 0 <= i < |window.messages| && IsPreamble(window.messages[i]) {
        return;
      }
      window.messages := [Message(System, SAFETY_PREAMBLE)] + window.messages;
    }

    method SyncDurableFactsMessage(facts: seq<Fact>)
      modifies window
      ensures window.messages == Sync(old(window.messages), facts)
    {
      var rest := [];
      for i := 0 to |window.messages|
        invariant rest == WithoutLedgers(window.messages[..i])
        invariant unchanged(window)
      {
        assert window.messages[..i + 1][..i] == window.messages[..i];
        if !IsLedger(window.messages[i]) { rest := rest + [window.messages[i]]; }
      }
      assert window.messages[..|window.messages|] == window.messages;
      window.messages := rest;
      if facts == [] {
        return;
      }
      var insertAt := if window.messages != [] && IsPreamble(window.messages[0]) then 1 else 0;
      window.messages := window.messages[..insertAt] + [Ledger(facts)] + window.messages[insertAt..];
    }

    method BoundedFactEntries(facts: seq<Fact>) returns (selected: seq<Fact>)
      ensures selected == Select(facts, LedgerBudget(window.budget))
    {
      hide Ledger, MessageTokens;
      var ledgerBudget := LedgerBudget(window.budget);
      selected := [];
      for i := 0 to |facts|
        invariant selected == Select(facts[..i], ledgerBudget)
      {
        assert facts[..i + 1][..i] == facts[..i];
        var candidate := selected + [facts[i]];
        if MessageTokens(Ledger(candidate)) <= ledgerBudget { selected := candidate; }
      }
      assert facts[..|facts|] == facts;
    }

    method TrimFactEntries(facts: seq<Fact>) returns (trimmed: seq<Fact>)
      ensures trimmed == Trim(facts)
    {
      if facts == [] {
        return facts;
      }
      var lowest := facts[0].priority;
      for i := 0 to |facts|
        invariant exists k :: 0 <= k < |facts| && facts[k].priority == lowest
        invariant forall k :: 0 <= k < i ==> lowest <= facts[k].priority
      {
        if facts[i].priority < lowest { lowest := facts[i].priority; }
      }
      for index := 0 to |facts|
        invariant forall k :: 0 <= k < index ==> lowest < facts[k].priority
      {
        if facts[index].priority == lowest {
          return facts[..index] + facts[index + 1..];
        }
      }
      assert false;
      trimmed := facts;
    }
  }
}
