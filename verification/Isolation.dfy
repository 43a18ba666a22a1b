// Tool output cannot influence the rest of the context: two conversations
// that differ only in what tool messages say, at equal token counts, raise at
// the same points and keep agreeing on everything else.
module Isolation {
  import opened Events
  import opened Tokenizer
  import opened Window
  import opened Memory

  // The same message, or tool messages of the same size.
  predicate Twin(x: Message, y: Message) {
    x.role == y.role && MessageTokens(x) == MessageTokens(y) && (x.role != Tool ==> x == y)
  }

  predicate Alike(a: seq<Message>, b: seq<Message>) {
    |a| == |b| && forall i :: 0 <= i < |a| ==> Twin(a[i], b[i])
  }

  lemma TwinRole(x: Message, y: Message)
    requires Twin(x, y)
    ensures IsPreamble(x) <==> IsPreamble(y)
    ensures IsLedger(x) <==> IsLedger(y)
    ensures IsProtected(x) <==> IsProtected(y)
    ensures IsSummary(x) <==> IsSummary(y)
    ensures Snippet(x) == Snippet(y)
  {
    hide MessageTokens;
  }

  lemma {:induction false} AlikeTotal(a: seq<Message>, b: seq<Message>)
    requires Alike(a, b)
    ensures TotalTokens(a) == TotalTokens(b)
  {
    hide MessageTokens;
    if a != [] { AlikeTotal(a[..|a| - 1], b[..|b| - 1]); }
  }

  lemma {:induction false} AlikeFirstUser(a: seq<Message>, b: seq<Message>)
    requires Alike(a, b)
    ensures FirstUser(a) == FirstUser(b)
  {
    hide MessageTokens;
    if a != [] { AlikeFirstUser(a[..|a| - 1], b[..|b| - 1]); }
  }

  lemma {:induction false} AlikeWithoutSummaries(a: seq<Message>, b: seq<Message>)
    requires Alike(a, b)
    ensures Alike(WithoutSummaries(a), WithoutSummaries(b))
  {
    hide Twin, IsSummary;
    if a != [] {
      TwinRole(a[|a| - 1], b[|b| - 1]);
      AlikeWithoutSummaries(a[..|a| - 1], b[..|b| - 1]);
    }
  }

  lemma {:induction false} AlikeWithoutLedgers(a: seq<Message>, b: seq<Message>)
    requires Alike(a, b)
    ensures Alike(WithoutLedgers(a), WithoutLedgers(b))
  {
    hide Twin, IsLedger;
    if a != [] {
      TwinRole(a[|a| - 1], b[|b| - 1]);
      AlikeWithoutLedgers(a[..|a| - 1], b[..|b| - 1]);
    }
  }

  lemma {:induction false} AlikeParts(a: seq<Message>, b: seq<Message>, n: nat)
    requires Alike(a, b) && n <= |a|
    ensures Alike(Kept(a, n), Kept(b, n)) && Alike(Removed(a, n), Removed(b, n))
  {
    hide Twin, IsProtected;
    if n > 0 {
      AlikeFirstUser(a, b);
      TwinRole(a[n - 1], b[n - 1]);
      AlikeParts(a, b, n - 1);
    }
  }

  lemma {:induction false} AlikeSnippets(a: seq<Message>, b: seq<Message>)
    requires Alike(a, b)
    ensures Snippets(a) == Snippets(b)
  {
    hide Twin;
    if a != [] {
      TwinRole(a[|a| - 1], b[|b| - 1]);
      AlikeSnippets(a[..|a| - 1], b[..|b| - 1]);
    }
  }

  // A summary of either conversation is the very same message.
  lemma AlikeSummary(a: seq<Message>, b: seq<Message>)
    requires Alike(a, b)
    ensures Summary(a) == Summary(b)
  {
    hide Twin, Snippets, JoinBy;
    var n := if |a| < SUMMARY_MESSAGES then |a| else SUMMARY_MESSAGES;
    AlikeSnippets(a[..n], b[..n]);
  }

  lemma {:induction false} AlikeProtectedRun(a: seq<Message>, b: seq<Message>)
    requires Alike(a, b)
    ensures ProtectedRun(a) == ProtectedRun(b)
  {
    hide Twin, IsProtected;
    if a != [] {
      TwinRole(a[0], b[0]);
      AlikeProtectedRun(a[1..], b[1..]);
    }
  }

  lemma AlikeInsert(a: seq<Message>, b: seq<Message>, n: nat, m: Message)
    requires Alike(a, b) && n <= |a|
    ensures Alike(a[..n] + [m] + a[n..], b[..n] + [m] + b[n..])
  {
    hide MessageTokens;
  }

  lemma AlikeCompacted(a: seq<Message>, b: seq<Message>, budget: nat)
    requires Alike(a, b)
    ensures Alike(Compacted(a, budget), Compacted(b, budget))
  {
    hide Twin, WithoutSummaries, Kept, Removed, Summary, ProtectedRun, TotalTokens;
    var s, t := WithoutSummaries(a), WithoutSummaries(b);
    AlikeWithoutSummaries(a, b);
    AlikeTotal(s, t);
    AlikeParts(s, t, |s|);
    AlikeSummary(Removed(s, |s|), Removed(t, |t|));
    AlikeProtectedRun(Kept(s, |s|), Kept(t, |t|));
    AlikeInsert(Kept(s, |s|), Kept(t, |t|), ProtectedRun(Kept(s, |s|)), Summary(Removed(s, |s|)));
  }

  lemma {:induction false} AlikeFirst(a: seq<Message>, b: seq<Message>, i: nat)
    requires Alike(a, b) && i <= |a|
    ensures FirstPlain(a, i) == FirstPlain(b, i) && FirstSummary(a, i) == FirstSummary(b, i)
    decreases |a| - i
  {
    hide Twin, IsProtected, IsSummary;
    if i < |a| {
      AlikeFirstUser(a, b);
      TwinRole(a[i], b[i]);
      AlikeFirst(a, b, i + 1);
    }
  }

  lemma {:induction false} AlikeDrop(a: seq<Message>, b: seq<Message>, budget: nat)
    requires Alike(a, b)
    ensures Alike(DropUntilFit(a, budget), DropUntilFit(b, budget))
    decreases |a|
  {
    hide Twin, FirstPlain, FirstSummary, TotalTokens;
    AlikeTotal(a, b);
    AlikeFirst(a, b, 0);
    if TotalTokens(a) > budget && DropIndex(a).Some? {
      AlikeDrop(Without(a, DropIndex(a).value), Without(b, DropIndex(b).value), budget);
    }
  }

  lemma AlikeCompact(a: seq<Message>, b: seq<Message>, budget: nat)
    requires Alike(a, b)
    ensures Alike(CompactTo(a, budget), CompactTo(b, budget))
    ensures Fits(a, budget) <==> Fits(b, budget)
  {
    hide Twin, TotalTokens, Compacted, DropUntilFit;
    AlikeTotal(a, b);
    AlikeCompacted(a, b, budget);
    AlikeDrop(Compacted(a, budget), Compacted(b, budget), budget);
    AlikeTotal(CompactTo(a, budget), CompactTo(b, budget));
  }

  lemma AlikeSync(a: seq<Message>, b: seq<Message>, facts: seq<Fact>)
    requires Alike(a, b)
    ensures Alike(Sync(a, facts), Sync(b, facts))
  {
    hide Twin, WithoutLedgers, Ledger, IsPreamble;
    var s, t := WithoutLedgers(a), WithoutLedgers(b);
    AlikeWithoutLedgers(a, b);
    if s != [] { TwinRole(s[0], t[0]); }
    if facts != [] { AlikeInsert(s, t, if s != [] && IsPreamble(s[0]) then 1 else 0, Ledger(facts)); }
  }

  lemma AlikeWithPreamble(a: seq<Message>, b: seq<Message>)
    requires Alike(a, b)
    ensures Alike(WithPreamble(a), WithPreamble(b))
  {
    hide Twin, IsPreamble;
    forall i | 0 <= i < |a| ensures IsPreamble(a[i]) <==> IsPreamble(b[i]) { TwinRole(a[i], b[i]); }
    var m := Message(System, SAFETY_PREAMBLE);
    AlikeInsert(a, b, 0, m);
    assert a[..0] + [m] + a[0..] == [m] + a && b[..0] + [m] + b[0..] == [m] + b;
  }

  lemma {:induction false} AlikeBuild(a: seq<Message>, b: seq<Message>, facts: seq<Fact>, budget: nat)
    requires Alike(a, b)
    ensures Alike(Build(a, facts, budget).0, Build(b, facts, budget).0)
    ensures Build(a, facts, budget).1 == Build(b, facts, budget).1
    decreases |facts|
  {
    hide Alike, Sync, CompactTo, Fits;
    AlikeSync(a, b, facts);
    AlikeCompact(Sync(a, facts), Sync(b, facts), budget);
    if facts != [] {
      AlikeBuild(CompactTo(Sync(a, facts), budget), CompactTo(Sync(b, facts), budget), Trim(facts), budget);
    }
  }

  // ----- whole histories -----

  predicate AlikeOps(o: Op, p: Op) {
    o == p || (o.ToolOutput? && p.ToolOutput? && CountTokens(o.text) == CountTokens(p.text))
  }

  predicate AlikeMem(m: Mem, n: Mem) {
    Alike(m.messages, n.messages) && m.facts == n.facts && m.userTurns == n.userTurns
    && m.assistantTurns == n.assistantTurns && m.tainted == n.tainted
  }

  lemma AlikePushed(a: seq<Message>, b: seq<Message>, x: Message, y: Message, budget: nat)
    requires Alike(a, b) && Twin(x, y)
    ensures Alike(Pushed(a, x.role, x.content, budget), Pushed(b, y.role, y.content, budget))
    ensures Accepts(a, x.role, x.content, budget) <==> Accepts(b, y.role, y.content, budget)
  {
    hide MessageTokens, CompactTo, Fits;
    assert Alike(a + [x], b + [y]);
    AlikeCompact(a + [x], b + [y], budget);
  }

  lemma AlikeAfter(m: Mem, n: Mem, o: Op, p: Op, budget: nat)
    requires AlikeMem(m, n) && AlikeOps(o, p)
    ensures AlikeMem(After(m, o, budget), After(n, p, budget))
    ensures Returns(m, o, budget) <==> Returns(n, p, budget)
  {
    hide Alike, Pushed, Accepts, Build, WithPreamble, Select, Preserve;
    match o
    case SayUser(text) => AlikePushed(m.messages, n.messages, Message(User, text), Message(User, text), budget);
    case SayAssistant(text) =>
      AlikePushed(m.messages, n.messages, Message(Assistant, text), Message(Assistant, text), budget);
    case ToolOutput(text) => AlikePushed(m.messages, n.messages, Message(Tool, text), Message(Tool, p.text), budget);
    case Context =>
      AlikeWithPreamble(m.messages, n.messages);
      AlikeBuild(WithPreamble(m.messages), WithPreamble(n.messages), Selected(m, budget), budget);
  }

  // Two histories that differ only in what tools said, at equal token counts,
  // return or raise alike at every point and agree on every role, every
  // message that is no tool's, summaries and ledger included, the facts, the
  // turn counters and the taint flag.
  lemma {:induction false} ToolOutputIsolated(ops: seq<Op>, ops': seq<Op>, budget: nat)
    requires |ops| == |ops'| && forall i :: 0 <= i < |ops| ==> AlikeOps(ops[i], ops'[i])
    ensures AlikeMem(Run(EMPTY, ops, budget), Run(EMPTY, ops', budget))
    ensures forall i :: 0 <= i < |ops| ==>
      (Returns(Run(EMPTY, ops[..i], budget), ops[i], budget) <==> Returns(Run(EMPTY, ops'[..i], budget), ops'[i], budget))
  {
    hide AlikeMem, AlikeOps, Returns, After;
    if ops == [] {
      EmptyAlike();
    } else {
      var n := |ops| - 1;
      ToolOutputIsolated(ops[..n], ops'[..n], budget);
      AlikeAfter(Run(EMPTY, ops[..n], budget), Run(EMPTY, ops'[..n], budget), ops[n], ops'[n], budget);
      forall i | 0 <= i < |ops|
        ensures Returns(Run(EMPTY, ops[..i], budget), ops[i], budget) <==> Returns(Run(EMPTY, ops'[..i], budget), ops'[i], budget)
      {
        if i < n { assert ops[..n][..i] == ops[..i] && ops'[..n][..i] == ops'[..i]; }
      }
    }
  }

  lemma EmptyAlike()
    ensures AlikeMem(EMPTY, EMPTY)
  {
  }
}
