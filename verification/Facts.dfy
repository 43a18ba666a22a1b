// Trimming the durable facts is a selection: k trims keep exactly the facts
// that at least k others stay below, in their order, and a ledger never
// outgrows its budget by being trimmed.
module Facts {
  import opened Tokenizer
  import opened Text
  import opened Window
  import opened Memory

  function TrimTimes(facts: seq<Fact>, k: nat): (r: seq<Fact>)
    decreases k
  {
    if k == 0 || facts == [] then facts else TrimTimes(Trim(facts), k - 1)
  }

  // ----- ranks -----

  function AtMost(facts: seq<Fact>, p: nat): nat {
    if facts == [] then 0 else (if facts[0].priority <= p then 1 else 0) + AtMost(facts[1..], p)
  }

  function Less(facts: seq<Fact>, p: nat): nat {
    if facts == [] then 0 else (if facts[0].priority < p then 1 else 0) + Less(facts[1..], p)
  }

  // How many facts are smaller by priority, then by position.
  function Rank(facts: seq<Fact>, i: nat): nat
    requires i < |facts|
  {
    AtMost(facts[..i], facts[i].priority) + Less(facts[i + 1..], facts[i].priority)
  }

  // The facts from i on that are larger than at least k others.
  function Largest(facts: seq<Fact>, k: nat, i: nat): seq<Fact>
    requires i <= |facts|
    decreases |facts| - i
  {
    if i == |facts| then []
    else (if Rank(facts, i) >= k then [facts[i]] else []) + Largest(facts, k, i + 1)
  }

  lemma {:induction false} AtMostConcat(a: seq<Fact>, b: seq<Fact>, p: nat)
    ensures AtMost(a + b, p) == AtMost(a, p) + AtMost(b, p) && Less(a + b, p) == Less(a, p) + Less(b, p)
  {
    if a == [] {
      assert a + b == b;
    } else {
      assert (a + b)[1..] == a[1..] + b;
      AtMostConcat(a[1..], b, p);
    }
  }

  lemma {:induction false} CountsGrow(a: seq<Fact>, p: nat, q: nat)
    requires p <= q
    ensures AtMost(a, p) <= AtMost(a, q) && Less(a, p) <= Less(a, q) && Less(a, p) <= AtMost(a, p)
    ensures p < q ==> AtMost(a, p) <= Less(a, q)
  {
    if a != [] { CountsGrow(a[1..], p, q); }
  }

  lemma {:induction false} NoneSmaller(a: seq<Fact>, p: nat)
    ensures (forall i :: 0 <= i < |a| ==> a[i].priority >= p) ==> Less(a, p) == 0
    ensures (forall i :: 0 <= i < |a| ==> a[i].priority > p) ==> AtMost(a, p) == 0
  {
    if a != [] { NoneSmaller(a[1..], p); }
  }

  lemma SplitAt(facts: seq<Fact>, i: nat, j: nat) returns (a: seq<Fact>, b: seq<Fact>, c: seq<Fact>)
    requires i < j < |facts|
    ensures facts[..i] == a && facts[i + 1..] == (b + [facts[j]]) + c
    ensures facts[..j] == (a + [facts[i]]) + b && facts[j + 1..] == c
  {
    a, b, c := facts[..i], facts[i + 1..j], facts[j + 1..];
  }

  lemma RankSplit(facts: seq<Fact>, i: nat, j: nat) returns (a: seq<Fact>, b: seq<Fact>, c: seq<Fact>)
    requires i < j < |facts|
    ensures var p, q := facts[i].priority, facts[j].priority;
      && Rank(facts, i) == AtMost(a, p) + Less(b, p) + (if q < p then 1 else 0) + Less(c, p)
      && Rank(facts, j) == AtMost(a, q) + (if p <= q then 1 else 0) + AtMost(b, q) + Less(c, q)
  {
    var p, q := facts[i].priority, facts[j].priority;
    a, b, c := SplitAt(facts, i, j);
    AtMostConcat(b + [facts[j]], c, p);
    AtMostConcat(b, [facts[j]], p);
    AtMostConcat(a + [facts[i]], b, q);
    AtMostConcat(a, [facts[i]], q);
    OneCount(facts[i], q);
    OneCount(facts[j], p);
    hide AtMost, Less;
  }

  lemma OneCount(f: Fact, p: nat)
    ensures AtMost([f], p) == (if f.priority <= p then 1 else 0) && Less([f], p) == if f.priority < p then 1 else 0
  {
  }

  // Ranks order the facts by priority and then by position.
  lemma RankOrders(facts: seq<Fact>, i: nat, j: nat)
    requires i < j < |facts|
    ensures Rank(facts, i) < Rank(facts, j) <==> facts[i].priority <= facts[j].priority
    ensures Rank(facts, i) != Rank(facts, j)
  {
    hide AtMost, Less, Rank;
    var p, q := facts[i].priority, facts[j].priority;
    var a, b, c := RankSplit(facts, i, j);
    var low, high := if p <= q then p else q, if p <= q then q else p;
    CountsGrow(a, low, high);
    CountsGrow(b, low, high);
    CountsGrow(c, low, high);
  }

  // ----- one trim -----

  // Largest, for a list known as what was passed and what is to come.
  function Ranked(passed: seq<Fact>, rest: seq<Fact>, k: nat): seq<Fact>
    decreases |rest|
  {
    if rest == [] then []
    else
      var p := rest[0].priority;
      (if AtMost(passed, p) + Less(rest[1..], p) >= k then [rest[0]] else []) + Ranked(passed + [rest[0]], rest[1..], k)
  }

  lemma {:induction false} RankedIsLargest(facts: seq<Fact>, k: nat, i: nat)
    requires i <= |facts|
    ensures Ranked(facts[..i], facts[i..], k) == Largest(facts, k, i)
    decreases |facts| - i
  {
    if i < |facts| {
      assert facts[i..][1..] == facts[i + 1..] && facts[..i] + [facts[i]] == facts[..i + 1];
      RankedIsLargest(facts, k, i + 1);
    }
  }

  lemma {:induction false} RankedBehind(a: seq<Fact>, m: Fact, b: seq<Fact>, rest: seq<Fact>, k: nat)
    requires k > 0 && forall i :: 0 <= i < |rest| ==> rest[i].priority >= m.priority
    ensures Ranked((a + [m]) + b, rest, k) == Ranked(a + b, rest, k - 1)
    decreases |rest|
  {
    if rest != [] {
      var x := rest[0];
      AtMostConcat(a + [m], b, x.priority);
      AtMostConcat(a, [m], x.priority);
      AtMostConcat(a, b, x.priority);
      assert ((a + [m]) + b) + [x] == (a + [m]) + (b + [x]) && (a + b) + [x] == a + (b + [x]);
      RankedBehind(a, m, b + [x], rest[1..], k);
    }
  }

  lemma {:induction false} RankedAhead(a: seq<Fact>, b: seq<Fact>, m: Fact, c: seq<Fact>, k: nat)
    requires k > 0 && forall i :: 0 <= i < |c| ==> c[i].priority >= m.priority
    requires forall i :: 0 <= i < |a| ==> a[i].priority > m.priority
    requires forall i :: 0 <= i < |b| ==> b[i].priority > m.priority
    ensures Ranked(a, (b + [m]) + c, k) == Ranked(a, b + c, k - 1)
    decreases |b|
  {
    if b == [] {
      assert (b + [m]) + c == [m] + c && b + c == c && ([m] + c)[1..] == c;
      assert (a + [m]) + [] == a + [m] && a + [] == a;
      NoneSmaller(a, m.priority);
      NoneSmaller(c, m.priority);
      RankedBehind(a, m, [], c, k);
    } else {
      var x := b[0];
      assert ((b + [m]) + c)[1..] == (b[1..] + [m]) + c && (b + c)[1..] == b[1..] + c;
      AtMostConcat(b[1..] + [m], c, x.priority);
      AtMostConcat(b[1..], [m], x.priority);
      AtMostConcat(b[1..], c, x.priority);
      RankedAhead(a + [x], b[1..], m, c, k);
    }
  }

  lemma TrimRanked(facts: seq<Fact>, k: nat)
    requires facts != [] && k > 0
    ensures Largest(facts, k, 0) == Largest(Trim(facts), k - 1, 0)
  {
    hide Largest, Ranked;
    var low := Lowest(facts);
    var b, m, c := facts[..low], facts[low], facts[low + 1..];
    assert facts == (b + [m]) + c;
    RankedAhead([], b, m, c, k);
    RankedWhole(facts, k);
    RankedWhole(b + c, k - 1);
  }

  lemma RankedWhole(facts: seq<Fact>, k: nat)
    ensures Ranked([], facts, k) == Largest(facts, k, 0)
  {
    RankedIsLargest(facts, k, 0);
    assert facts[..0] == [] && facts[0..] == facts;
  }

  lemma {:induction false} AllRanked(facts: seq<Fact>, i: nat)
    requires i <= |facts|
    ensures Largest(facts, 0, i) == facts[i..]
    decreases |facts| - i
  {
    if i < |facts| { AllRanked(facts, i + 1); }
  }

  lemma NoneRanked(k: nat)
    ensures Largest([], k, 0) == []
  {
  }

  lemma TrimShorter(facts: seq<Fact>)
    requires facts != []
    ensures |Trim(facts)| == |facts| - 1
  {
  }

  // k trims leave the facts with at least k smaller ones, in order, and so all
  // but the k smallest.
  lemma {:induction false} TrimsKeepLargest(facts: seq<Fact>, k: nat)
    ensures TrimTimes(facts, k) == Largest(facts, k, 0)
    ensures |TrimTimes(facts, k)| == if k <= |facts| then |facts| - k else 0
    decreases k
  {
    hide Trim, Largest;
    if k == 0 {
      AllRanked(facts, 0);
      assert facts[0..] == facts;
    } else if facts == [] {
      NoneRanked(k);
    } else {
      TrimRanked(facts, k);
      TrimShorter(facts);
      TrimsKeepLargest(Trim(facts), k - 1);
    }
  }

  // ----- the ledger's size -----

  function LineTokens(facts: seq<Fact>): nat {
    if facts == [] then 0 else LineTokens(facts[..|facts| - 1]) + CountTokens(Line(facts[|facts| - 1]))
  }

  lemma {:induction false} LineTokensConcat(a: seq<Fact>, b: seq<Fact>)
    ensures LineTokens(a + b) == LineTokens(a) + LineTokens(b)
    decreases |b|
  {
    if b == [] {
      assert a + b == a;
    } else {
      assert (a + b)[..|a + b| - 1] == a + b[..|b| - 1];
      LineTokensConcat(a, b[..|b| - 1]);
    }
  }

  // A line break never joins two words.
  lemma BreakCounts(a: string, b: string)
    ensures CountTokens(a + "\n" + b) == CountTokens(a) + CountTokens(b)
  {
    CountConcat(a + "\n", b);
    CountConcat(a, "\n");
    assert (a + "\n")[|a|] == '\n' && CountTokens("\n"[1..]) == 0;
  }

  lemma {:induction false} JoinedLines(facts: seq<Fact>)
    ensures CountTokens(JoinBy(Lines(facts), "\n")) == LineTokens(facts)
    ensures |Lines(facts)| == |facts|
  {
    hide CountTokens, Line;
    if facts == [] {
      NoTokens();
    } else {
      var before, last := facts[..|facts| - 1], facts[|facts| - 1];
      JoinedLines(before);
      if before == [] { NoTokens(); }
      BreakCounts(JoinBy(Lines(before), "\n"), Line(last));
      assert Lines(facts)[..|facts| - 1] == Lines(before);
    }
  }

  lemma NoTokens()
    ensures CountTokens("") == 0
  {
  }

  lemma LedgerTokens(facts: seq<Fact>)
    ensures MessageTokens(Ledger(facts)) == CountTokens(Label(System)) + CountTokens(FACTS_PREFIX) + LineTokens(facts)
  {
    hide CountTokens, JoinBy, Lines;
    JoinedLines(facts);
    BreakCounts(FACTS_PREFIX, JoinBy(Lines(facts), "\n"));
  }

  lemma TrimShrinksLedger(facts: seq<Fact>)
    requires facts != []
    ensures MessageTokens(Ledger(Trim(facts))) <= MessageTokens(Ledger(facts))
  {
    hide MessageTokens, Ledger, LineTokens;
    var low := Lowest(facts);
    var b, m, c := facts[..low], facts[low], facts[low + 1..];
    assert facts == (b + [m]) + c;
    LedgerTokens(facts);
    LedgerTokens(Trim(facts));
    LineTokensConcat(b + [m], c);
    LineTokensConcat(b, [m]);
    LineTokensConcat(b, c);
  }

  lemma {:induction false} SelectedFits(facts: seq<Fact>, limit: nat)
    ensures Select(facts, limit) != [] ==> MessageTokens(Ledger(Select(facts, limit))) <= limit
  {
    hide MessageTokens, Ledger;
    if facts != [] { SelectedFits(facts[..|facts| - 1], limit); }
  }

  // However often the selected facts are trimmed, their ledger stays within
  // the limit they were selected for.
  lemma {:induction false} TrimmedFits(facts: seq<Fact>, limit: nat, k: nat)
    requires facts != [] ==> MessageTokens(Ledger(facts)) <= limit
    ensures TrimTimes(facts, k) != [] ==> MessageTokens(Ledger(TrimTimes(facts, k))) <= limit
    decreases k
  {
    hide MessageTokens, Ledger, Trim;
    if k > 0 && facts != [] {
      TrimShrinksLedger(facts);
      TrimmedFits(Trim(facts), limit, k - 1);
    }
  }

  lemma LinesAppend(facts: seq<Fact>, f: Fact)
    ensures Lines(facts + [f]) == Lines(facts) + [Line(f)] && (Lines(facts) == [] <==> facts == [])
  {
    hide Line;
    assert (facts + [f])[..|facts|] == facts;
    LinesLength(facts);
  }

  lemma LedgerIs(facts: seq<Fact>)
    ensures Ledger(facts) == Message(System, "Preserved durable facts:" + "\n" + JoinBy(Lines(facts), "\n"))
  {
    hide JoinBy, Lines;
  }

  // A ledger has a line for each of its facts, in order.
  lemma LedgerShows(facts: seq<Fact>, f: Fact)
    ensures Ledger(facts + [f]).role == System
    ensures Ledger(facts + [f]).content ==
      (if facts == [] then "Preserved durable facts:" else Ledger(facts).content)
      + "\n" + ("- " + Label(f.role) + " turn " + Decimal(f.turn) + ": " + f.content)
  {
    hide JoinBy, Decimal, Label, Lines, Ledger;
    LedgerIs(facts);
    LedgerIs(facts + [f]);
    LinesAppend(facts, f);
    JoinByAppend(Lines(facts), Line(f), "\n");
    Regroup("Preserved durable facts:" + "\n", JoinBy(Lines(facts), "\n"), "\n", Line(f));
  }

  lemma {:induction false} LinesLength(facts: seq<Fact>)
    ensures |Lines(facts)| == |facts|
  {
    hide Line;
    if facts != [] { LinesLength(facts[..|facts| - 1]); }
  }

  // ----- which facts are selected -----

  // What is left of a list when some of it goes.
  ghost predicate InOrder(a: seq<Fact>, b: seq<Fact>) {
    a == [] || (b != [] && ((a[|a| - 1] == b[|b| - 1] && InOrder(a[..|a| - 1], b[..|b| - 1])) || InOrder(a, b[..|b| - 1])))
  }

  lemma LedgerMore(a: seq<Fact>, x: Fact, f: Fact)
    ensures MessageTokens(Ledger(a)) <= MessageTokens(Ledger(a + [x]))
    ensures MessageTokens(Ledger(a + [f])) <= MessageTokens(Ledger((a + [x]) + [f]))
  {
    hide MessageTokens, Ledger, LineTokens;
    LedgerTokens(a);
    LedgerTokens(a + [x]);
    LedgerTokens(a + [f]);
    LedgerTokens((a + [x]) + [f]);
    LineTokensConcat(a, [x]);
    LineTokensConcat(a, [f]);
    LineTokensConcat(a + [x], [f]);
  }

  lemma InOrderStep(a: seq<Fact>, b: seq<Fact>, x: Fact)
    requires InOrder(a, b)
    ensures InOrder(a, b + [x]) && InOrder(a + [x], b + [x])
  {
    assert (a + [x])[..|a|] == a && (b + [x])[..|b|] == b;
  }

  lemma {:induction false} SelectInOrder(facts: seq<Fact>, limit: nat)
    ensures InOrder(Select(facts, limit), facts)
    ensures forall f :: f in Select(facts, limit) ==> f in facts
  {
    hide MessageTokens, Ledger, InOrder;
    if facts == [] {
      NoneInOrder();
    } else {
      var before, x := facts[..|facts| - 1], facts[|facts| - 1];
      assert facts == before + [x];
      SelectInOrder(before, limit);
      InOrderStep(Select(before, limit), before, x);
    }
  }

  lemma NoneInOrder()
    ensures InOrder([], [])
  {
  }

  lemma {:induction false} SelectAll(facts: seq<Fact>, limit: nat)
    requires MessageTokens(Ledger(facts)) <= limit
    ensures Select(facts, limit) == facts
  {
    hide MessageTokens, Ledger;
    if facts != [] {
      var before, x := facts[..|facts| - 1], facts[|facts| - 1];
      assert facts == before + [x];
      LedgerMore(before, x, x);
      SelectAll(before, limit);
    }
  }

  lemma {:induction false} SelectMost(facts: seq<Fact>, limit: nat, f: Fact)
    requires f in facts && f !in Select(facts, limit)
    ensures MessageTokens(Ledger(Select(facts, limit) + [f])) > limit
  {
    hide MessageTokens, Ledger;
    var before, x := facts[..|facts| - 1], facts[|facts| - 1];
    assert facts == before + [x];
    var kept := Select(before, limit);
    if f in before && f !in kept {
      SelectMost(before, limit, f);
      LedgerMore(kept, x, f);
    }
  }

  // Those selected stand in their order and fit together; one that is left out
  // does not fit beside them; and if all fit, all are selected.
  lemma SelectGreedy(facts: seq<Fact>, limit: nat)
    ensures var chosen := Select(facts, limit);
      && InOrder(chosen, facts) && (forall f :: f in chosen ==> f in facts)
      && (chosen != [] ==> MessageTokens(Ledger(chosen)) <= limit)
      && (forall f :: f in facts && f !in chosen ==> MessageTokens(Ledger(chosen + [f])) > limit)
      && (MessageTokens(Ledger(facts)) <= limit ==> chosen == facts)
  {
    hide MessageTokens, Ledger, InOrder, Select;
    SelectInOrder(facts, limit);
    SelectedFits(facts, limit);
    forall f | f in facts && f !in Select(facts, limit) ensures MessageTokens(Ledger(Select(facts, limit) + [f])) > limit {
      SelectMost(facts, limit, f);
    }
    if MessageTokens(Ledger(facts)) <= limit { SelectAll(facts, limit); }
  }

  // The same for a memory: of its first eighty facts, within a third of the
  // budget, but no less than 24 tokens and no more than 2400.
  lemma SelectedLaw(m: Mem, budget: nat)
    ensures var chosen, facts := Selected(m, budget), if |m.facts| < 80 then m.facts else m.facts[..80];
      var limit := if budget / 3 <= 24 then 24 else if budget / 3 >= 2400 then 2400 else budget / 3;
      && InOrder(chosen, facts) && (forall f :: f in chosen ==> f in facts)
      && (chosen != [] ==> MessageTokens(Ledger(chosen)) <= limit)
      && (forall f :: f in facts && f !in chosen ==> MessageTokens(Ledger(chosen + [f])) > limit)
      && (MessageTokens(Ledger(facts)) <= limit ==> chosen == facts)
  {
    hide MessageTokens, Ledger, Select, InOrder;
    SelectGreedy(First(m.facts, FACT_LIMIT), LedgerBudget(budget));
  }

  // ----- which facts there are -----

  predicate Early(f: Fact) { f.role == User && f.turn <= 5 }

  // How often a history has a turn of a role.
  function TurnsOf(ops: seq<Op>, role: Role): nat {
    if ops == [] then 0
    else
      var op := ops[|ops| - 1];
      TurnsOf(ops[..|ops| - 1], role) + if (op.SayUser? && role == User) || (op.SayAssistant? && role == Assistant) then 1 else 0
  }

  // Every fact is one of a turn so far, and has the priority of its kind.
  ghost predicate Filed(m: Mem) {
    forall f :: f in m.facts ==>
      && ((f.role == User && f.turn <= m.userTurns) || (f.role == Assistant && f.turn <= m.assistantTurns))
      && f.priority == if Early(f) then 100 else if f.role == User then 90 else 40
  }

  lemma PreserveNew(m: Mem, role: Role, text: string)
    requires Filed(m) && (role == User || role == Assistant)
    ensures var turn := 1 + if role == User then m.userTurns else m.assistantTurns;
      var f := FactOf(role, turn, text);
      Preserve(m.facts, role, turn, text) == m.facts + if f.Some? then [f.value] else []
  {
    hide Clip, HasMarker;
    var turn := 1 + if role == User then m.userTurns else m.assistantTurns;
    assert m.facts + [] == m.facts;
    assert forall i :: 0 <= i < |m.facts| ==> m.facts[i] in m.facts;
  }

  lemma AfterFiled(m: Mem, op: Op, budget: nat)
    requires Filed(m)
    ensures Filed(After(m, op, budget))
  {
    hide Clip, HasMarker, Preserve, Build, Selected, Pushed;
    match op
    case SayUser(text) => PreserveNew(m, User, text);
    case SayAssistant(text) => PreserveNew(m, Assistant, text);
    case ToolOutput(_) =>
    case Context =>
  }

  lemma {:induction false} RunFiled(ops: seq<Op>, budget: nat)
    ensures var m := Run(EMPTY, ops, budget);
      Filed(m) && m.userTurns == TurnsOf(ops, User) && m.assistantTurns == TurnsOf(ops, Assistant)
  {
    hide Filed, Preserve, Build, Selected, Pushed;
    if ops == [] {
      EmptyFiled();
    } else {
      var before := ops[..|ops| - 1];
      RunFiled(before, budget);
      AfterFiled(Run(EMPTY, before, budget), ops[|ops| - 1], budget);
    }
  }

  lemma EmptyFiled()
    ensures Filed(EMPTY)
  {
  }

  // Which turns leave a fact, in every history: a user turn with any text, if it
  // is one of the first five or reads like a fact, and an assistant turn that
  // reads like one.  It is the beginning of the text; a turn never leaves a
  // fact that is there already, and nothing else leaves any.
  lemma TurnsLeaveFacts(ops: seq<Op>, op: Op, budget: nat)
    ensures var before, after := Run(EMPTY, ops, budget).facts, Run(EMPTY, ops + [op], budget).facts;
      match op
      case SayUser(text) =>
        var turn := TurnsOf(ops, User) + 1;
        if Solid(text) != "" && (turn <= 5 || HasMarker(Clip(text, 240)))
        then |after| == |before| + 1 && after[..|before|] == before && SameFact(after[|before|], Fact(User, turn, Clip(text, 240), 0))
        else after == before
      case SayAssistant(text) =>
        var turn := TurnsOf(ops, Assistant) + 1;
        if Solid(text) != "" && HasMarker(Clip(text, 240))
        then |after| == |before| + 1 && after[..|before|] == before && SameFact(after[|before|], Fact(Assistant, turn, Clip(text, 240), 0))
        else after == before
      case ToolOutput(_) => after == before
      case Context => after == before
  {
    hide Clip, HasMarker, Preserve, Build, Selected, Pushed, Solid, Filed;
    RunFiled(ops, budget);
    var m := Run(EMPTY, ops, budget);
    RunAppend(ops, op, budget);
    match op
    case SayUser(text) => PreserveNew(m, User, text); ClipEmpty(text, 240);
    case SayAssistant(text) => PreserveNew(m, Assistant, text); ClipEmpty(text, 240);
    case ToolOutput(_) =>
    case Context =>
  }

  lemma RunAppend(ops: seq<Op>, op: Op, budget: nat)
    ensures Run(EMPTY, ops + [op], budget) == After(Run(EMPTY, ops, budget), op, budget)
  {
    hide After;
    assert (ops + [op])[..|ops|] == ops;
  }

  // Whatever was said: an early user fact outranks every other, and any user
  // fact every one of the assistant's.
  lemma FactsOutrank(ops: seq<Op>, budget: nat, f: Fact, g: Fact)
    requires f in Run(EMPTY, ops, budget).facts && g in Run(EMPTY, ops, budget).facts
    ensures f.role == User || f.role == Assistant
    ensures f.priority > g.priority <==> (Early(f) && !Early(g)) || (f.role == User && g.role == Assistant)
  {
    hide Run;
    RunFiled(ops, budget);
  }

  // ----- which of them are trimmed -----

  lemma {:induction false} LargestHas(facts: seq<Fact>, k: nat, i: nat, f: Fact)
    requires i <= |facts|
    ensures f in Largest(facts, k, i) <==> exists j :: i <= j < |facts| && Rank(facts, j) >= k && facts[j] == f
    decreases |facts| - i
  {
    hide Rank;
    if i < |facts| { LargestHas(facts, k, i + 1, f); }
  }

  // A fact that trimming drops takes every one of lower priority with it.
  lemma TrimsTake(facts: seq<Fact>, k: nat, f: Fact, g: Fact)
    requires f in facts && f !in TrimTimes(facts, k) && g.priority < f.priority
    ensures g !in TrimTimes(facts, k)
  {
    hide Rank, Largest, TrimTimes;
    TrimsKeepLargest(facts, k);
    LargestHas(facts, k, 0, f);
    LargestHas(facts, k, 0, g);
    if g in TrimTimes(facts, k) {
      var i :| 0 <= i < |facts| && facts[i] == f;
      var j :| 0 <= j < |facts| && Rank(facts, j) >= k && facts[j] == g;
      assert Rank(facts, i) < k;
      if i < j { RankOrders(facts, i, j); } else { RankOrders(facts, j, i); }
    }
  }

  // In every history: when the selected facts are trimmed, an early user fact
  // goes only after all that are none, and a user fact only after all of the
  // assistant's.
  lemma EarlyFactsLast(ops: seq<Op>, budget: nat, k: nat, f: Fact, g: Fact)
    requires var selected := Selected(Run(EMPTY, ops, budget), budget);
      f in selected && f !in TrimTimes(selected, k) && g in selected
    requires (Early(f) && !Early(g)) || (f.role == User && g.role == Assistant)
    ensures g !in TrimTimes(Selected(Run(EMPTY, ops, budget), budget), k)
  {
    hide Run, Selected, InOrder, MessageTokens, Ledger, TrimTimes, Early;
    SelectedLaw(Run(EMPTY, ops, budget), budget);
    FactsOutrank(ops, budget, f, g);
    TrimsTake(Selected(Run(EMPTY, ops, budget), budget), k, f, g);
  }
}
