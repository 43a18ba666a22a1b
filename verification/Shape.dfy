// The shape of a window over every history: an optional preamble, an optional
// ledger, at most one summary, then a subsequence of the conversation that
// always keeps its first user message.
module Shape {
  import opened Events
  import opened Tokenizer
  import opened Window
  import opened Memory
  import opened Facts

  datatype Layout = Layout(preamble: bool, ledger: Option<Message>, summary: Option<Message>, talk: seq<Message>)

  function Opt(m: Option<Message>): seq<Message> { if m.None? then [] else [m.value] }

  function Guard(l: Layout): seq<Message> {
    (if l.preamble then [Message(System, SAFETY_PREAMBLE)] else []) + Opt(l.ledger)
  }

  function Flatten(l: Layout): seq<Message> { Guard(l) + Opt(l.summary) + l.talk }

  ghost predicate Sound(l: Layout) {
    (l.ledger.Some? ==> IsLedger(l.ledger.value)) && (l.summary.Some? ==> IsSummary(l.summary.value))
    && forall i :: 0 <= i < |l.talk| ==> l.talk[i].role != System
  }

  // The three kinds of system message exclude each other: their texts differ
  // where one of the prefixes has its colon.
  lemma Kinds(m: Message)
    ensures !(IsPreamble(m) && IsLedger(m)) && !(IsPreamble(m) && IsSummary(m)) && !(IsLedger(m) && IsSummary(m))
  {
    assert SUMMARY_PREFIX[28] == ':' && FACTS_PREFIX[23] == ':';
    assert SAFETY_PREAMBLE[28] == 'a' && SAFETY_PREAMBLE[23] == 't' && SUMMARY_PREFIX[23] == 'n';
  }

  lemma LedgerIsLedger(facts: seq<Fact>)
    ensures IsLedger(Ledger(facts))
  {
  }

  lemma SummaryIsSummary(ms: seq<Message>)
    ensures IsSummary(Summary(ms))
  {
  }

  // ----- the first user message -----

  // Only the part a list must keep: its first user message.
  function Root(ms: seq<Message>): Option<Message> {
    if ms == [] then None
    else
      var r := Root(ms[..|ms| - 1]);
      if r.Some? then r else if ms[|ms| - 1].role == User then Some(ms[|ms| - 1]) else None
  }

  lemma RootAppend(a: seq<Message>, m: Message)
    ensures Root(a + [m]) == if Root(a).Some? then Root(a) else if m.role == User then Some(m) else None
  {
    assert (a + [m])[..|a|] == a;
  }

  lemma {:induction false} RootConcat(a: seq<Message>, b: seq<Message>)
    ensures Root(a + b) == if Root(a).Some? then Root(a) else Root(b)
    decreases |b|
  {
    if b == [] {
      assert a + b == a;
    } else {
      var b', m := b[..|b| - 1], b[|b| - 1];
      assert a + b == (a + b') + [m];
      RootConcat(a, b');
      RootAppend(a + b', m);
    }
  }

  // Where the first user message stands and what it is.
  lemma {:induction false} FirstUserRoot(ms: seq<Message>, i: nat)
    requires i < |ms|
    ensures Root(ms).None? <==> FirstUser(ms).None?
    ensures FirstUser(ms) == Some(i) ==> Root(ms) == Some(ms[i])
    ensures FirstUser(ms) == Some(i) <==> ms[i].role == User && Root(ms[..i]).None?
  {
    var p := ms[..|ms| - 1];
    if p != [] { FirstUserRoot(p, if i < |p| then i else 0); }
    if i < |p| {
      assert p[..i] == ms[..i];
    } else {
      assert ms[..i] == p;
    }
  }

  lemma NoFirstUser(ms: seq<Message>)
    requires forall j :: 0 <= j < |ms| ==> ms[j].role != User
    ensures FirstUser(ms) == None
  {
    FirstUserIs(ms, |ms|);
  }

  lemma {:induction false} FirstUserConcat(a: seq<Message>, b: seq<Message>)
    requires FirstUser(a).None?
    ensures FirstUser(a + b) == if FirstUser(b).None? then None else Some(|a| + FirstUser(b).value)
    decreases |b|
  {
    if b == [] {
      assert a + b == a;
    } else {
      assert (a + b)[..|a + b| - 1] == a + b[..|b| - 1];
      FirstUserConcat(a, b[..|b| - 1]);
    }
  }

  lemma RootSplice(a: seq<Message>, x: Message, b: seq<Message>)
    requires x.role != User || Root(a).Some?
    ensures Root(a + b) == Root((a + [x]) + b)
  {
    hide Root;
    RootAppend(a, x);
    RootConcat(a + [x], b);
    RootConcat(a, b);
  }

  lemma Splice(ms: seq<Message>, i: nat) returns (a: seq<Message>, b: seq<Message>)
    requires i < |ms|
    ensures a == ms[..i] && ms == (a + [ms[i]]) + b && Without(ms, i) == a + b
  {
    a, b := ms[..i], ms[i + 1..];
  }

  lemma RootWithout(ms: seq<Message>, i: nat)
    requires i < |ms| && FirstUser(ms) != Some(i)
    ensures Root(Without(ms, i)) == Root(ms)
  {
    FirstUserRoot(ms, i);
    hide Root, FirstUser, Without;
    var a, b := Splice(ms, i);
    RootSplice(a, ms[i], b);
  }

  // ----- the first user message and a recent part -----

  // What is left of a conversation when all but its last messages went: these,
  // behind the first user message if it is not among them.
  function Recent(talk: seq<Message>, n: nat): seq<Message>
    requires n <= |talk|
  {
    Opt(Root(talk[..n])) + talk[n..]
  }

  ghost predicate RootAndRecent(a: seq<Message>, b: seq<Message>) { exists n :: 0 <= n <= |b| && a == Recent(b, n) }

  lemma RecentIs(b: seq<Message>, n: nat)
    requires n <= |b|
    ensures RootAndRecent(Recent(b, n), b)
  {
    hide Recent;
  }

  lemma RecentRefl(a: seq<Message>)
    ensures Recent(a, 0) == a && RootAndRecent(a, a)
  {
    EmptyRoot();
    assert a[..0] == [] && a[0..] == a;
    assert Recent(a, 0) == [] + a;
    RecentIs(a, 0);
  }

  lemma RootOfOpt(ms: seq<Message>)
    ensures Root(Opt(Root(ms))) == Root(ms)
  {
    RootIsUser(ms);
    hide Root;
    if Root(ms).Some? {
      EmptyRoot();
      RootAppend([], Root(ms).value);
      assert [] + [Root(ms).value] == Opt(Root(ms));
    } else {
      EmptyRoot();
    }
  }

  lemma {:induction false} RootIsUser(ms: seq<Message>)
    ensures Root(ms).Some? ==> Root(ms).value.role == User
  {
    if ms != [] { RootIsUser(ms[..|ms| - 1]); }
  }

  lemma RecentRoot(b: seq<Message>, n: nat)
    requires n <= |b|
    ensures Root(Recent(b, n)) == Root(b)
  {
    hide Root;
    RootOfOpt(b[..n]);
    RootConcat(Opt(Root(b[..n])), b[n..]);
    RootConcat(b[..n], b[n..]);
    assert b[..n] + b[n..] == b;
  }

  // A recent part of a recent part is one of the whole.
  lemma RecentOfRecent(c: seq<Message>, n: nat, m: nat) returns (k: nat)
    requires n <= |c| && m <= |Recent(c, n)|
    ensures k <= |c| && Recent(Recent(c, n), m) == Recent(c, k)
    ensures n <= k <= n + m
  {
    hide Root;
    var b, root := Recent(c, n), Opt(Root(c[..n]));
    if m <= |root| {
      k := n;
      RootOfOpt(c[..n]);
      EmptyRoot();
      assert b[..m] == root[..m];
      if m == 0 {
        RecentRefl(b);
      } else {
        assert root[..m] == root && b[m..] == c[n..];
      }
    } else {
      var d := m - |root|;
      k := n + d;
      assert b[m..] == c[k..] && b[..m] == root + c[n..k] && c[..k] == c[..n] + c[n..k];
      RootOfOpt(c[..n]);
      RootConcat(root, c[n..k]);
      RootConcat(c[..n], c[n..k]);
    }
  }

  lemma RecentTrans(a: seq<Message>, b: seq<Message>, c: seq<Message>)
    requires RootAndRecent(a, b) && RootAndRecent(b, c)
    ensures RootAndRecent(a, c)
  {
    hide Recent;
    var n :| 0 <= n <= |c| && b == Recent(c, n);
    var m :| 0 <= m <= |b| && a == Recent(b, m);
    var k := RecentOfRecent(c, n, m);
    RecentIs(c, k);
  }

  lemma RecentAppend(a: seq<Message>, b: seq<Message>, m: Message)
    requires RootAndRecent(a, b)
    ensures RootAndRecent(a + [m], b + [m])
  {
    hide Root;
    var n :| 0 <= n <= |b| && a == Recent(b, n);
    assert (b + [m])[..n] == b[..n] && (b + [m])[n..] == b[n..] + [m];
    assert Recent(b + [m], n) == a + [m];
    RecentIs(b + [m], n);
  }

  // ----- the head of a layout -----

  lemma HeadFacts(l: Layout)
    requires Sound(l)
    ensures forall i :: 0 <= i < |Guard(l)| ==> IsProtected(Guard(l)[i]) && Guard(l)[i].role == System && !IsSummary(Guard(l)[i])
    ensures forall i :: 0 <= i < |l.talk| ==> !IsProtected(l.talk[i]) && !IsSummary(l.talk[i])
    ensures l.summary.Some? ==> !IsProtected(l.summary.value) && l.summary.value.role == System
  {
    if l.ledger.Some? { Kinds(l.ledger.value); }
    if l.summary.Some? { Kinds(l.summary.value); }
    Kinds(Message(System, SAFETY_PREAMBLE));
  }

  lemma HeadHasNoUser(l: Layout)
    requires Sound(l)
    ensures FirstUser(Guard(l) + Opt(l.summary)) == None
  {
    hide FirstUser, IsProtected, IsSummary;
    HeadFacts(l);
    NoFirstUser(Guard(l) + Opt(l.summary));
  }

  lemma FlattenFirstUser(l: Layout)
    requires Sound(l)
    ensures FirstUser(Flatten(l)) ==
      if FirstUser(l.talk).None? then None else Some(|Guard(l)| + |Opt(l.summary)| + FirstUser(l.talk).value)
  {
    hide FirstUser, IsProtected, IsSummary, Root, Guard, Opt;
    HeadHasNoUser(l);
    FirstUserConcat(Guard(l) + Opt(l.summary), l.talk);
  }

  // ----- removing summaries -----

  lemma {:induction false} WithoutSummariesConcat(a: seq<Message>, b: seq<Message>)
    ensures WithoutSummaries(a + b) == WithoutSummaries(a) + WithoutSummaries(b)
    decreases |b|
  {
    if b == [] {
      assert a + b == a;
    } else {
      assert (a + b)[..|a + b| - 1] == a + b[..|b| - 1];
      WithoutSummariesConcat(a, b[..|b| - 1]);
    }
  }

  lemma {:induction false} NoSummaries(a: seq<Message>)
    requires forall i :: 0 <= i < |a| ==> !IsSummary(a[i])
    ensures WithoutSummaries(a) == a
  {
    if a != [] { NoSummaries(a[..|a| - 1]); }
  }

  lemma FlattenWithoutSummaries(l: Layout)
    requires Sound(l)
    ensures WithoutSummaries(Flatten(l)) == Flatten(l.(summary := None))
  {
    hide IsSummary, IsProtected;
    HeadFacts(l);
    WithoutSummariesConcat(Guard(l) + Opt(l.summary), l.talk);
    WithoutSummariesConcat(Guard(l), Opt(l.summary));
    NoSummaries(Guard(l));
    NoSummaries(l.talk);
    if l.summary.Some? { OneSummary(l.summary.value); }
  }

  lemma OneSummary(m: Message)
    requires IsSummary(m)
    ensures WithoutSummaries([m]) == []
  {
    assert [m][..0] == [];
  }

  // ----- what compaction keeps -----

  // The kept messages of a window without summary are its head and some of its
  // conversation, the first user message among it.
  lemma {:induction false} KeptHead(source: seq<Message>, n: nat)
    requires n <= |source| && forall i :: 0 <= i < n ==> IsProtected(source[i])
    ensures Kept(source, n) == source[..n] && Removed(source, n) == []
  {
    if n > 0 {
      KeptHead(source, n - 1);
      assert source[..n] == source[..n - 1] + [source[n - 1]];
    }
  }

  // Where the recent tail of a window begins, behind its head.
  function Tail(size: nat, h: nat): nat
    requires h <= size
  {
    if size < h + RECENT_MESSAGES then h else size - RECENT_MESSAGES
  }

  // All but the first user message.
  function Others(ms: seq<Message>): seq<Message> {
    if ms == [] then []
    else
      var p, m := ms[..|ms| - 1], ms[|ms| - 1];
      Others(p) + if m.role == User && Root(p).None? then [] else [m]
  }

  lemma OthersAppend(a: seq<Message>, m: Message)
    ensures Others(a + [m]) == Others(a) + if m.role == User && Root(a).None? then [] else [m]
  {
    hide Root;
    assert (a + [m])[..|a|] == a;
  }

  // The root is the first user message, and the others are the rest.
  lemma {:induction false} RootIsFirst(ms: seq<Message>, i: nat)
    requires i <= |ms| && forall j :: 0 <= j < i ==> ms[j].role != User
    ensures i == |ms| ==> Root(ms) == None && Others(ms) == ms
    ensures i < |ms| && ms[i].role == User ==> Root(ms) == Some(ms[i]) && Others(ms) == ms[..i] + ms[i + 1..]
  {
    if ms != [] {
      var p, m := ms[..|ms| - 1], ms[|ms| - 1];
      assert ms == p + [m];
      RootIsFirst(p, if i < |p| then i else |p|);
      if i < |p| {
        assert p[..i] == ms[..i] && ms[i + 1..] == p[i + 1..] + [m];
      } else {
        assert ms[..|p|] == p;
      }
    }
  }

  lemma KeepsWhat(source: seq<Message>, h: nat, i: nat)
    requires h <= i < |source| && Root(source[..h]).None? && !IsProtected(source[i])
    ensures Keeps(source, i) <==> i >= Tail(|source|, h) || (source[i].role == User && Root(source[h..i]).None?)
  {
    hide FirstUser, IsProtected, Root;
    FirstUserRoot(source, i);
    RootConcat(source[..h], source[h..i]);
    assert source[..i] == source[..h] + source[h..i];
  }

  // What of the first n messages is kept and removed, behind a head of h.
  function KeptPart(source: seq<Message>, h: nat, n: nat): seq<Message>
    requires h <= n <= |source|
  {
    var c := Tail(|source|, h);
    source[..h] + if n <= c then Opt(Root(source[h..n])) else Opt(Root(source[h..c])) + source[c..n]
  }

  function RemovedPart(source: seq<Message>, h: nat, n: nat): seq<Message>
    requires h <= n <= |source|
  {
    var c := Tail(|source|, h);
    Others(source[h..if n <= c then n else c])
  }

  lemma {:induction false} KeptTalk(source: seq<Message>, h: nat, n: nat)
    requires h <= n <= |source| && Kept(source, h) == source[..h] && Removed(source, h) == [] && Root(source[..h]).None?
    requires forall i :: h <= i < |source| ==> !IsProtected(source[i])
    ensures Kept(source, n) == KeptPart(source, h, n) && Removed(source, n) == RemovedPart(source, h, n)
    decreases n
  {
    hide FirstUser, IsProtected, Root, Keeps, Others, Kept, Removed, KeptPart, RemovedPart;
    if n == h {
      KeptNone(source, h);
    } else {
      KeptTalk(source, h, n - 1);
      KeepsWhat(source, h, n - 1);
      KeptStep(source, h, n);
    }
  }

  lemma KeptNone(source: seq<Message>, h: nat)
    requires h <= |source|
    ensures KeptPart(source, h, h) == source[..h] && RemovedPart(source, h, h) == []
  {
    hide Root, Others;
    assert source[h..h] == [];
    EmptyRoot();
    NoOthers();
  }

  lemma KeptStep(source: seq<Message>, h: nat, n: nat)
    requires h < n <= |source|
    requires Keeps(source, n - 1) <==>
      n - 1 >= Tail(|source|, h) || (source[n - 1].role == User && Root(source[h..n - 1]).None?)
    requires Kept(source, n - 1) == KeptPart(source, h, n - 1) && Removed(source, n - 1) == RemovedPart(source, h, n - 1)
    ensures Kept(source, n) == KeptPart(source, h, n) && Removed(source, n) == RemovedPart(source, h, n)
  {
    hide Root, Keeps, Others, Kept, Removed;
    if n <= Tail(|source|, h) { KeptOlder(source, h, n); } else { KeptTail(source, h, n); }
  }

  lemma KeptOlder(source: seq<Message>, h: nat, n: nat)
    requires h <= |source| && h < n <= Tail(|source|, h)
    requires Keeps(source, n - 1) <==> source[n - 1].role == User && Root(source[h..n - 1]).None?
    requires Kept(source, n - 1) == source[..h] + Opt(Root(source[h..n - 1])) && Removed(source, n - 1) == Others(source[h..n - 1])
    ensures Kept(source, n) == source[..h] + Opt(Root(source[h..n])) && Removed(source, n) == Others(source[h..n])
  {
    hide FirstUser, IsProtected, Root, Keeps, Others;
    var before, m := source[h..n - 1], source[n - 1];
    assert source[h..n] == before + [m];
    RootAppend(before, m);
    OthersAppend(before, m);
  }

  lemma KeptTail(source: seq<Message>, h: nat, n: nat)
    requires h <= |source| && Tail(|source|, h) < n <= |source| && Keeps(source, n - 1)
    requires var c := Tail(|source|, h);
      Kept(source, n - 1) == source[..h] + if n - 1 <= c then Opt(Root(source[h..n - 1])) else Opt(Root(source[h..c])) + source[c..n - 1]
    ensures var c := Tail(|source|, h);
      Kept(source, n) == source[..h] + (Opt(Root(source[h..c])) + source[c..n]) && Removed(source, n) == Removed(source, n - 1)
  {
    hide FirstUser, IsProtected, Root, Keeps;
    var c, m := Tail(|source|, h), source[n - 1];
    if n - 1 == c {
      assert source[n - 1..n] == [m];
    } else {
      assert source[c..n] == source[c..n - 1] + [m];
    }
  }

  lemma NoOthers()
    ensures Others([]) == []
  {
  }

  lemma EmptyRoot()
    ensures Root([]) == None
  {
  }

  // ----- the effect of compaction on a layout -----

  // The same guard, and a recent part of the conversation behind its first user
  // message.
  ghost predicate Shrunk(l: Layout, l': Layout) {
    Sound(l') && l'.preamble == l.preamble && l'.ledger == l.ledger
    && RootAndRecent(l'.talk, l.talk) && Root(l'.talk) == Root(l.talk)
  }

  // Nothing is left that could be dropped.
  predicate Minimal(l: Layout) { l.summary.None? && l.talk == Opt(Root(l.talk)) }

  lemma ProtectedRunIs(a: seq<Message>, b: seq<Message>)
    requires forall i :: 0 <= i < |a| ==> IsProtected(a[i])
    requires forall i :: 0 <= i < |b| ==> !IsProtected(b[i])
    ensures ProtectedRun(a + b) == |a|
  {
    hide ProtectedRun, IsProtected;
    assert forall i :: 0 <= i < |a| ==> (a + b)[i] == a[i];
    assert b != [] ==> (a + b)[|a|] == b[0];
  }

  lemma FlattenRoot(l: Layout)
    requires Sound(l)
    ensures Root(Flatten(l)) == Root(l.talk) && Root(Guard(l)) == None
  {
    HeadHasNoUser(l);
    hide FirstUser, Root;
    RootConcat(Guard(l) + Opt(l.summary), l.talk);
    RootConcat(Guard(l), Opt(l.summary));
    NoRoot(Guard(l) + Opt(l.summary));
  }

  lemma NoRoot(ms: seq<Message>)
    requires FirstUser(ms).None?
    ensures Root(ms).None?
  {
    if ms != [] { FirstUserRoot(ms, 0); }
  }

  // The first step of a compaction: without a summary the window may fit; else
  // the recent tail stays, and what goes is summarised.
  lemma CompactedLayout(l: Layout, budget: nat) returns (l': Layout)
    requires Sound(l)
    ensures Flatten(l') == Compacted(Flatten(l), budget) && Shrunk(l, l')
    ensures if TotalTokens(Flatten(l.(summary := None))) <= budget then l' == l.(summary := None)
      else
        var n := Tail(|l.talk|, 0);
        var removed := Others(l.talk[..n]);
        && l'.talk == Recent(l.talk, n) && l'.summary == SummaryOf(removed)
  {
    hide FirstUser, IsProtected, IsSummary, TotalTokens, Root, ProtectedRun, Kept, Removed, WithoutSummaries, Summary, RootAndRecent,
         Others;
    var bare := l.(summary := None);
    var source, h := Flatten(bare), |Guard(l)|;
    FlattenWithoutSummaries(l);
    HeadFacts(bare);
    assert source == Guard(l) + l.talk;
    if TotalTokens(source) <= budget {
      RecentRefl(l.talk);
      return bare;
    }
    KeptHead(source, h);
    var n, c := Tail(|l.talk|, 0), Tail(|source|, h);
    assert c == h + n;
    assert source[..h] == Guard(l) && source[h..|source|] == l.talk && source[..|source|] == source;
    assert source[h..c] == l.talk[..n] && source[c..|source|] == l.talk[n..];
    FlattenRoot(bare);
    KeptTalk(source, h, |source|);
    var talk := Recent(l.talk, n);
    EndsEmpty(l.talk, n);
    RecentIs(l.talk, n);
    RecentRoot(l.talk, n);
    RecentSound(l, n);
    var kept, removed := Kept(source, |source|), Removed(source, |source|);
    assert kept == Guard(l) + talk && removed == Others(l.talk[..n]);
    if removed == [] {
      l' := bare.(talk := talk);
      assert kept == Flatten(l');
    } else {
      l' := l.(summary := Some(Summary(removed)), talk := talk);
      SummaryIsSummary(removed);
      HeadFacts(bare.(talk := talk));
      ProtectedRunIs(Guard(l), talk);
      assert kept[..h] == Guard(l) && kept[h..] == talk;
    }
  }

  lemma EndsEmpty(talk: seq<Message>, n: nat)
    requires n <= |talk|
    ensures n == |talk| ==> Recent(talk, n) == Opt(Root(talk))
  {
    if n == |talk| { assert talk[..n] == talk && talk[n..] == []; }
  }

  lemma {:induction false} RootIn(ms: seq<Message>)
    ensures Root(ms).Some? ==> Root(ms).value in ms
  {
    if ms != [] { RootIn(ms[..|ms| - 1]); }
  }

  lemma RecentSound(l: Layout, n: nat)
    requires Sound(l) && n <= |l.talk|
    ensures forall i :: 0 <= i < |Recent(l.talk, n)| ==> Recent(l.talk, n)[i].role != System
    ensures Sound(l.(summary := None, talk := Recent(l.talk, n)))
  {
    hide Root, IsLedger, IsSummary;
    RootIn(l.talk[..n]);
    RootIsUser(l.talk[..n]);
  }

  lemma {:induction false} FirstPlainMeans(ms: seq<Message>, i: nat)
    requires i <= |ms|
    ensures var r := FirstPlain(ms, i);
      && (r.Some? ==> Droppable(ms, r.value) && !IsSummary(ms[r.value]))
      && forall j :: i <= j < (if r.Some? then r.value else |ms|) ==> !Droppable(ms, j) || IsSummary(ms[j])
    decreases |ms| - i
  {
    hide Droppable, IsSummary;
    if i < |ms| { FirstPlainMeans(ms, i + 1); }
  }

  lemma {:induction false} FirstSummaryMeans(ms: seq<Message>, i: nat)
    requires i <= |ms|
    ensures var r := FirstSummary(ms, i);
      if r.Some? then Droppable(ms, r.value) && IsSummary(ms[r.value])
      else forall j :: i <= j < |ms| ==> !Droppable(ms, j) || !IsSummary(ms[j])
    decreases |ms| - i
  {
    hide Droppable, IsSummary;
    if i < |ms| { FirstSummaryMeans(ms, i + 1); }
  }

  // A dropped message is the summary or the oldest of the conversation that is
  // not the first user's.
  predicate IsOldest(talk: seq<Message>, i: nat) {
    i < |talk| && if FirstUser(talk) == Some(0) then i == 1 else i == 0
  }

  lemma DropPlace(l: Layout)
    requires Sound(l) && DropIndex(Flatten(l)).Some?
    ensures var i, h := DropIndex(Flatten(l)).value, |Guard(l)| + |Opt(l.summary)|;
      (i >= h && IsOldest(l.talk, i - h)) || (i == |Guard(l)| && l.summary.Some? && l.talk == Opt(Root(l.talk)))
  {
    var ms := Flatten(l);
    FirstPlainMeans(ms, 0);
    FirstSummaryMeans(ms, 0);
    hide FirstUser, IsProtected, IsSummary, FirstPlain, FirstSummary, Flatten, Guard, Opt, IsOldest, Droppable, Root;
    if FirstPlain(ms, 0).Some? {
      PlainPlace(l, DropIndex(ms).value);
    } else {
      SummaryPlace(l, DropIndex(ms).value);
      OnlyRoot(l);
    }
  }

  lemma FlattenAt(l: Layout)
    ensures |Flatten(l)| == |Guard(l)| + |Opt(l.summary)| + |l.talk|
    ensures |Opt(l.summary)| == if l.summary.Some? then 1 else 0
    ensures forall k :: 0 <= k < |Guard(l)| ==> Flatten(l)[k] == Guard(l)[k]
    ensures l.summary.Some? ==> Flatten(l)[|Guard(l)|] == l.summary.value
    ensures forall k :: 0 <= k < |l.talk| ==> Flatten(l)[|Guard(l)| + |Opt(l.summary)| + k] == l.talk[k]
  {
    hide Guard;
  }

  // Behind messages that are all the first user's, and not the first user's.
  lemma IsOldestAt(talk: seq<Message>, k: nat)
    requires k < |talk| && FirstUser(talk) != Some(k)
    requires forall j :: 0 <= j < k ==> FirstUser(talk) == Some(j)
    ensures IsOldest(talk, k)
  {
    hide FirstUser;
    assert k > 0 ==> FirstUser(talk) == Some(0);
    assert k > 1 ==> FirstUser(talk) == Some(1);
  }

  lemma PlainPlace(l: Layout, i: nat)
    requires Sound(l) && i < |Flatten(l)| && Droppable(Flatten(l), i) && !IsSummary(Flatten(l)[i])
    requires forall j :: 0 <= j < i ==> !Droppable(Flatten(l), j) || IsSummary(Flatten(l)[j])
    ensures var start := |Guard(l)| + |Opt(l.summary)|; i >= start && IsOldest(l.talk, i - start)
  {
    hide FirstUser, IsProtected, IsSummary, Flatten, Guard, Opt, IsOldest;
    var start := |Guard(l)| + |Opt(l.summary)|;
    HeadFacts(l);
    FlattenFirstUser(l);
    FlattenAt(l);
    assert i >= start;
    forall k | 0 <= k < i - start ensures FirstUser(l.talk) == Some(k) {
      assert Flatten(l)[start + k] == l.talk[k];
      assert !Droppable(Flatten(l), start + k);
    }
    assert Flatten(l)[i] == l.talk[i - start];
    IsOldestAt(l.talk, i - start);
  }

  lemma SummaryPlace(l: Layout, i: nat)
    requires Sound(l) && i < |Flatten(l)| && Droppable(Flatten(l), i) && IsSummary(Flatten(l)[i])
    ensures i == |Guard(l)| && l.summary.Some?
  {
    hide FirstUser, IsProtected, IsSummary;
    HeadFacts(l);
    var ms, h := Flatten(l), |Guard(l)|;
    assert forall k :: 0 <= k < h ==> ms[k] == Guard(l)[k];
  }

  lemma WithoutTalk(a: seq<Message>, b: seq<Message>, i: nat)
    requires i < |b|
    ensures Without(a + b, |a| + i) == a + Without(b, i)
  {
  }

  lemma DropTalk(l: Layout, i: nat) returns (l': Layout)
    requires Sound(l) && IsOldest(l.talk, i)
    ensures Flatten(l') == Without(Flatten(l), |Guard(l)| + |Opt(l.summary)| + i) && Shrunk(l, l') && DropsOne(l, l')
  {
    hide FirstUser, IsProtected, IsSummary, RootAndRecent, Root, IsLedger, Opt, Guard, DropsOne;
    l' := l.(talk := Without(l.talk, i));
    OldestDrops(l, i);
    SameGuard(l, l');
    WithoutTalk(Guard(l) + Opt(l.summary), l.talk, i);
    RootWithout(l.talk, i);
    OldestGone(l.talk, i);
    RecentIs(l.talk, i + 1);
  }

  lemma FirstUserFirst(talk: seq<Message>)
    requires talk != []
    ensures FirstUser(talk) == Some(0) <==> talk[0].role == User
  {
    FirstUserRoot(talk, 0);
    hide FirstUser, Root;
    EmptyRoot();
    assert talk[..0] == [];
  }

  lemma RootOfOne(m: Message)
    ensures Root([m]) == if m.role == User then Some(m) else None
  {
    EmptyRoot();
    RootAppend([], m);
    hide Root;
    assert [] + [m] == [m];
  }

  // Without the oldest message, the rest is recent.
  lemma OldestGone(talk: seq<Message>, i: nat)
    requires IsOldest(talk, i)
    ensures Without(talk, i) == Recent(talk, i + 1)
  {
    hide FirstUser, Root;
    FirstUserFirst(talk);
    RootOfOne(talk[0]);
    assert talk[..1] == [talk[0]];
    if i == 1 {
      RootAppend([talk[0]], talk[1]);
      assert talk[..2] == [talk[0]] + [talk[1]];
    }
  }

  lemma SameGuard(l: Layout, l': Layout)
    requires l.preamble == l'.preamble && l.ledger == l'.ledger
    ensures Guard(l) == Guard(l')
  {
  }

  lemma DropSummary(l: Layout) returns (l': Layout)
    requires Sound(l) && l.summary.Some? && l.talk == Opt(Root(l.talk))
    ensures Flatten(l') == Without(Flatten(l), |Guard(l)|) && Shrunk(l, l') && DropsOne(l, l')
  {
    hide FirstUser, IsProtected, IsSummary, RootAndRecent, Root, IsLedger, Guard, Without;
    l' := l.(summary := None);
    SameGuard(l, l');
    WithoutMiddle(Guard(l), l.summary.value, l.talk);
    RecentRefl(l.talk);
  }

  // A conversation without its oldest message but the first user's.
  function WithoutOldest(talk: seq<Message>): seq<Message>
    requires talk != []
  {
    if talk[0].role == User && |talk| > 1 then [talk[0]] + talk[2..] else talk[1..]
  }

  // One drop: the oldest message of the conversation but its first user
  // message, and the summary only when there is none.
  ghost predicate DropsOne(l: Layout, l': Layout) {
    if l.talk == Opt(Root(l.talk)) then l.summary.Some? && l' == l.(summary := None)
    else l.talk != [] && l' == l.(talk := WithoutOldest(l.talk))
  }

  lemma OldestDrops(l: Layout, i: nat)
    requires IsOldest(l.talk, i)
    ensures DropsOne(l, l.(talk := Without(l.talk, i)))
  {
    RootIsUser(l.talk);
    FirstUserFirst(l.talk);
    hide Root, FirstUser;
  }

  lemma DropAt(l: Layout, i: nat) returns (l': Layout)
    requires Sound(l) && i < |Flatten(l)|
    requires var h := |Guard(l)| + |Opt(l.summary)|;
      (i >= h && IsOldest(l.talk, i - h)) || (i == |Guard(l)| && l.summary.Some? && l.talk == Opt(Root(l.talk)))
    ensures Flatten(l') == Without(Flatten(l), i) && Shrunk(l, l') && DropsOne(l, l')
  {
    hide *;
    if i == |Guard(l)| && l.summary.Some? && l.talk == Opt(Root(l.talk)) {
      l' := DropSummary(l);
    } else {
      l' := DropTalk(l, i - (|Guard(l)| + |Opt(l.summary)|));
    }
  }

  // Dropping one message shrinks the layout.
  lemma DropOne(l: Layout) returns (l': Layout)
    requires Sound(l) && DropIndex(Flatten(l)).Some?
    ensures Flatten(l') == Without(Flatten(l), DropIndex(Flatten(l)).value) && Shrunk(l, l') && DropsOne(l, l')
  {
    hide *;
    DropPlace(l);
    l' := DropAt(l, DropIndex(Flatten(l)).value);
  }

  lemma WithoutMiddle(a: seq<Message>, m: Message, b: seq<Message>)
    ensures Without(a + [m] + b, |a|) == a + [] + b
  {
  }

  // Nothing of the conversation can be dropped: it is its first user message.
  lemma OnlyRoot(l: Layout)
    requires Sound(l)
    requires forall j :: 0 <= j < |Flatten(l)| ==> !Droppable(Flatten(l), j) || IsSummary(Flatten(l)[j])
    ensures l.talk == Opt(Root(l.talk))
  {
    hide FirstUser, IsProtected, IsSummary, Flatten, Guard, Root;
    var start := |Guard(l)| + |Opt(l.summary)|;
    HeadFacts(l);
    FlattenFirstUser(l);
    FlattenAt(l);
    forall j | 0 <= j < |l.talk| ensures FirstUser(l.talk) == Some(j) {
      assert Flatten(l)[start + j] == l.talk[j];
      assert !Droppable(Flatten(l), start + j);
    }
    assert |l.talk| > 0 ==> FirstUser(l.talk) == Some(0);
    assert |l.talk| > 1 ==> FirstUser(l.talk) == Some(1);
    if l.talk == [] {
      EmptyRoot();
    } else {
      FirstUserRoot(l.talk, 0);
      assert l.talk == [l.talk[0]];
    }
  }

  lemma NothingToDrop(l: Layout)
    requires Sound(l) && DropIndex(Flatten(l)).None?
    ensures Minimal(l)
  {
    var ms := Flatten(l);
    FirstPlainMeans(ms, 0);
    FirstSummaryMeans(ms, 0);
    hide FirstUser, IsProtected, IsSummary, FirstPlain, FirstSummary, Flatten, Guard, Root, Opt;
    OnlyRoot(l);
    HeadFacts(l);
    FlattenFirstUser(l);
    FlattenAt(l);
  }

  // Messages are dropped one by one, and only while the window does not fit.
  lemma {:induction false} DropLayout(l: Layout, budget: nat) returns (l': Layout, last: Layout)
    requires Sound(l)
    ensures Flatten(l') == DropUntilFit(Flatten(l), budget) && Shrunk(l, l')
    ensures TotalTokens(Flatten(l')) <= budget || Minimal(l')
    ensures l' == l || (Shrunk(l, last) && TotalTokens(Flatten(last)) > budget && DropsOne(last, l'))
    ensures TotalTokens(Flatten(l)) <= budget ==> l' == l
    decreases |Flatten(l)|
  {
    hide Flatten, TotalTokens, DropIndex, RootAndRecent, Root, Minimal, DropsOne;
    last := l;
    if TotalTokens(Flatten(l)) <= budget {
      RecentRefl(l.talk);
      return l, l;
    }
    if DropIndex(Flatten(l)).None? {
      NothingToDrop(l);
      RecentRefl(l.talk);
      return l, l;
    }
    RecentRefl(l.talk);
    var next := DropOne(l);
    l', last := DropLayout(next, budget);
    RecentTrans(l'.talk, next.talk, l.talk);
    if l' == next { last := l; } else { RecentTrans(last.talk, next.talk, l.talk); }
  }

  lemma CompactLayout(l: Layout, budget: nat) returns (l': Layout)
    requires Sound(l)
    ensures Flatten(l') == CompactTo(Flatten(l), budget) && Shrunk(l, l')
    ensures TotalTokens(Flatten(l')) <= budget || Minimal(l') || (|Flatten(l)| <= 1 && l' == l)
  {
    hide TotalTokens, Flatten, RootAndRecent, Root, Minimal, Recent, Others, Summary;
    if TotalTokens(Flatten(l)) <= budget || |Flatten(l)| <= 1 {
      RecentRefl(l.talk);
      return l;
    }
    var mid := CompactedLayout(l, budget);
    var last;
    l', last := DropLayout(mid, budget);
    RecentTrans(l'.talk, mid.talk, l.talk);
  }

  // What compaction takes away, and nothing more.  A window that fits stays as
  // it is.  One that fits without its summary loses only that.  Any other keeps
  // the first user message and the last twelve messages of its conversation,
  // with a summary of the rest; and if that is still too large, messages are
  // dropped one by one, the oldest first and the summary last, and only while
  // the window does not fit.
  lemma CompactionLaw(l: Layout, budget: nat) returns (l': Layout, recent: Layout, last: Layout)
    requires Sound(l)
    ensures Flatten(l') == CompactTo(Flatten(l), budget)
    ensures TotalTokens(Flatten(l)) <= budget || |Flatten(l)| <= 1 ==> l' == l
    ensures TotalTokens(Flatten(l)) > budget && |Flatten(l)| > 1 ==>
      var bare := l.(summary := None);
      if TotalTokens(Flatten(bare)) <= budget then l' == bare
      else
        var n := if |l.talk| < 12 then 0 else |l.talk| - 12;
        && recent.talk == Opt(Root(l.talk[..n])) + l.talk[n..]
        && recent == bare.(talk := recent.talk, summary := SummaryOf(Others(l.talk[..n])))
        && (TotalTokens(Flatten(recent)) <= budget ==> l' == recent)
        && (TotalTokens(Flatten(l')) <= budget || Minimal(l'))
        && (l' == recent || (Shrunk(recent, last) && TotalTokens(Flatten(last)) > budget && DropsOne(last, l')))
  {
    hide TotalTokens, Flatten, RootAndRecent, Root, Minimal, Others, Summary, DropsOne, Opt;
    l', recent, last := l, l, l;
    if TotalTokens(Flatten(l)) > budget && |Flatten(l)| > 1 {
      recent := CompactedLayout(l, budget);
      l', last := DropLayout(recent, budget);
    }
  }

  function SummaryOf(removed: seq<Message>): Option<Message> { if removed == [] then None else Some(Summary(removed)) }

  // ----- preamble and ledger -----

  lemma WithPreambleLayout(l: Layout)
    requires Sound(l)
    ensures WithPreamble(Flatten(l)) == Flatten(l.(preamble := true)) && Sound(l.(preamble := true))
  {
    hide IsLedger, IsSummary;
    if l.ledger.Some? { Kinds(l.ledger.value); }
    if l.summary.Some? { Kinds(l.summary.value); }
    var ms := Flatten(l);
    if l.preamble {
      assert IsPreamble(ms[0]);
    } else {
      assert forall i :: 0 <= i < |ms| ==> !IsPreamble(ms[i]);
      assert Flatten(l.(preamble := true)) == [Message(System, SAFETY_PREAMBLE)] + ms;
    }
  }

  lemma {:induction false} WithoutLedgersConcat(a: seq<Message>, b: seq<Message>)
    ensures WithoutLedgers(a + b) == WithoutLedgers(a) + WithoutLedgers(b)
    decreases |b|
  {
    if b == [] {
      assert a + b == a;
    } else {
      assert (a + b)[..|a + b| - 1] == a + b[..|b| - 1];
      WithoutLedgersConcat(a, b[..|b| - 1]);
    }
  }

  lemma {:induction false} NoLedgers(a: seq<Message>)
    requires forall i :: 0 <= i < |a| ==> !IsLedger(a[i])
    ensures WithoutLedgers(a) == a
  {
    hide IsLedger;
    if a != [] { NoLedgers(a[..|a| - 1]); }
  }

  lemma OneLedger(m: Message)
    requires IsLedger(m)
    ensures WithoutLedgers([m]) == []
  {
    hide IsLedger;
    assert [m][..0] == [];
  }

  function Pre(l: Layout): seq<Message> { if l.preamble then [Message(System, SAFETY_PREAMBLE)] else [] }

  function Rest(l: Layout): seq<Message> { Opt(l.summary) + l.talk }

  lemma FlattenParts(l: Layout)
    ensures Flatten(l) == (Pre(l) + Opt(l.ledger)) + Rest(l)
  {
    hide Opt;
    assert Flatten(l) == ((Pre(l) + Opt(l.ledger)) + Opt(l.summary)) + l.talk;
  }

  lemma NotLedgers(l: Layout)
    requires Sound(l)
    ensures forall i :: 0 <= i < |Pre(l)| ==> !IsLedger(Pre(l)[i])
    ensures forall i :: 0 <= i < |Rest(l)| ==> !IsLedger(Rest(l)[i]) && !IsPreamble(Rest(l)[i])
  {
    Kinds(Message(System, SAFETY_PREAMBLE));
    if l.summary.Some? { Kinds(l.summary.value); }
  }

  lemma OptLedger(m: Option<Message>)
    requires m.Some? ==> IsLedger(m.value)
    ensures WithoutLedgers(Opt(m)) == []
  {
    if m.Some? { OneLedger(m.value); }
  }

  lemma WithoutLedger(a: seq<Message>, m: Option<Message>, b: seq<Message>)
    requires forall i :: 0 <= i < |a| ==> !IsLedger(a[i])
    requires forall i :: 0 <= i < |b| ==> !IsLedger(b[i])
    requires m.Some? ==> IsLedger(m.value)
    ensures WithoutLedgers((a + Opt(m)) + b) == a + b
  {
    NoLedgers(a);
    NoLedgers(b);
    OptLedger(m);
    WithoutLedgersConcat(a + Opt(m), b);
    WithoutLedgersConcat(a, Opt(m));
    hide *;
    assert a + [] == a;
  }

  lemma FlattenWithoutLedgers(l: Layout)
    requires Sound(l)
    ensures WithoutLedgers(Flatten(l)) == Pre(l) + Rest(l)
  {
    NotLedgers(l);
    FlattenParts(l);
    hide IsLedger, WithoutLedgers, Pre, Rest, Opt, Flatten;
    WithoutLedger(Pre(l), l.ledger, Rest(l));
  }

  function LedgerFor(facts: seq<Fact>): Option<Message> { if facts == [] then None else Some(Ledger(facts)) }

  lemma InsertAt(a: seq<Message>, m: Message, b: seq<Message>)
    ensures (a + b)[..|a|] + [m] + (a + b)[|a|..] == (a + [m]) + b
  {
    assert (a + b)[..|a|] == a && (a + b)[|a|..] == b;
  }

  lemma InsertPlace(l: Layout)
    requires Sound(l)
    ensures var rest := Pre(l) + Rest(l);
      |Pre(l)| == if rest != [] && IsPreamble(rest[0]) then 1 else 0
  {
    NotLedgers(l);
    hide Rest, IsLedger;
    if l.preamble { assert (Pre(l) + Rest(l))[0] == Message(System, SAFETY_PREAMBLE); }
  }

  lemma SyncLayout(l: Layout, facts: seq<Fact>)
    requires Sound(l)
    ensures Sync(Flatten(l), facts) == Flatten(l.(ledger := LedgerFor(facts))) && Sound(l.(ledger := LedgerFor(facts)))
  {
    var l' := l.(ledger := LedgerFor(facts));
    FlattenWithoutLedgers(l);
    FlattenParts(l');
    LedgerIsLedger(facts);
    InsertPlace(l);
    SameEnds(l, l');
    hide IsLedger, IsSummary, WithoutLedgers, Ledger, Pre, Rest, IsPreamble, Flatten;
    if facts == [] {
      assert Pre(l) + [] == Pre(l);
    } else {
      InsertAt(Pre(l), Ledger(facts), Rest(l));
    }
  }

  lemma SameEnds(l: Layout, l': Layout)
    requires l.preamble == l'.preamble && l.summary == l'.summary && l.talk == l'.talk
    ensures Pre(l) == Pre(l') && Rest(l) == Rest(l')
  {
  }

  // ----- when a context can be built -----

  function RootTokens(r: Option<Message>): nat { if r.None? then 0 else MessageTokens(r.value) }

  // What no compaction can remove: the preamble and the first user message.
  function Floor(talk: seq<Message>): nat {
    MessageTokens(Message(System, SAFETY_PREAMBLE)) + RootTokens(Root(talk))
  }

  lemma {:induction false} TalkCoversRoot(talk: seq<Message>)
    ensures TotalTokens(talk) >= RootTokens(Root(talk))
  {
    hide MessageTokens;
    if talk != [] { TalkCoversRoot(talk[..|talk| - 1]); }
  }

  lemma OneTotal(m: Message)
    ensures TotalTokens([m]) == MessageTokens(m)
  {
    hide MessageTokens;
    assert [m][..0] == [];
  }

  lemma OptTotal(m: Option<Message>)
    ensures TotalTokens(Opt(m)) == RootTokens(m)
  {
    if m.Some? { OneTotal(m.value); }
  }

  lemma FlattenTotal(l: Layout)
    requires l.preamble
    ensures TotalTokens(Flatten(l)) ==
      MessageTokens(Message(System, SAFETY_PREAMBLE)) + RootTokens(l.ledger) + RootTokens(l.summary) + TotalTokens(l.talk)
  {
    hide MessageTokens, TotalTokens;
    var p := Message(System, SAFETY_PREAMBLE);
    assert Flatten(l) == ([p] + Opt(l.ledger)) + Opt(l.summary) + l.talk;
    TotalConcat(([p] + Opt(l.ledger)) + Opt(l.summary), l.talk);
    TotalConcat([p] + Opt(l.ledger), Opt(l.summary));
    TotalConcat([p], Opt(l.ledger));
    OneTotal(p);
    OptTotal(l.ledger);
    OptTotal(l.summary);
  }

  // A window with a preamble can be compacted to fit exactly when its preamble,
  // its ledger and its first user message do.
  lemma FitsIff(l: Layout, l': Layout, budget: nat)
    requires l.preamble && Shrunk(l, l') && Flatten(l') == CompactTo(Flatten(l), budget)
    requires TotalTokens(Flatten(l')) <= budget || Minimal(l') || (|Flatten(l)| <= 1 && l' == l)
    ensures Window.Fits(Flatten(l), budget) <==> Need(l.ledger, l.talk) <= budget
  {
    hide MessageTokens, TotalTokens, Root, RootAndRecent, CompactTo, Flatten;
    NeedOf(l');
    if !Minimal(l') && |Flatten(l)| <= 1 {
      AloneMinimal(l);
    }
  }

  // What no compaction can remove: the preamble, a ledger and the first user
  // message.
  function Need(ledger: Option<Message>, talk: seq<Message>): nat { Floor(talk) + RootTokens(ledger) }

  lemma AloneMinimal(l: Layout)
    requires l.preamble && |Flatten(l)| <= 1
    ensures Minimal(l)
  {
    EmptyRoot();
    hide Root;
  }

  lemma NeedOf(l: Layout)
    requires l.preamble
    ensures TotalTokens(Flatten(l)) >= Need(l.ledger, l.talk)
    ensures Minimal(l) ==> TotalTokens(Flatten(l)) == Need(l.ledger, l.talk)
  {
    hide MessageTokens, TotalTokens, Root, Flatten;
    FlattenTotal(l);
    TalkCoversRoot(l.talk);
    OptTotal(Root(l.talk));
  }

  // The trimming loop stops at the first number of trims for which the preamble,
  // the ledger and the first user message fit.
  lemma {:induction false} BuildLayout(l: Layout, facts: seq<Fact>, budget: nat) returns (l': Layout, k: nat)
    requires Sound(l) && l.preamble
    ensures Flatten(l') == Build(Flatten(l), facts, budget).0 && Sound(l') && l'.preamble
    ensures k <= |facts| && l'.ledger == LedgerFor(TrimTimes(facts, k))
    ensures RootAndRecent(l'.talk, l.talk) && Root(l'.talk) == Root(l.talk)
    ensures Build(Flatten(l), facts, budget).1 <==> Need(LedgerFor(TrimTimes(facts, k)), l.talk) <= budget
    ensures Build(Flatten(l), facts, budget).1 ==> TotalTokens(Flatten(l')) <= budget
    ensures !Build(Flatten(l), facts, budget).1 ==> k == |facts|
    ensures forall j :: 0 <= j < k ==> Need(LedgerFor(TrimTimes(facts, j)), l.talk) > budget
    decreases |facts|
  {
    hide Flatten, TotalTokens, RootAndRecent, Root, Sync, CompactTo, Sound, LedgerFor, Trim, Need, Minimal, Build, Floor;
    var synced := l.(ledger := LedgerFor(facts));
    SyncLayout(l, facts);
    l' := CompactLayout(synced, budget);
    FitsIff(synced, l', budget);
    BuildStep(Flatten(l), facts, budget);
    k := 0;
    if !Fits(Sync(Flatten(l), facts), budget) && facts != [] {
      var mid := l';
      TrimShorter(facts);
      l', k := BuildLayout(mid, Trim(facts), budget);
      k := k + 1;
      RecentTrans(l'.talk, mid.talk, l.talk);
      NeedSame(mid.talk, l.talk);
      forall j | 0 <= j < k ensures Need(LedgerFor(TrimTimes(facts, j)), l.talk) > budget {
        if j > 0 { assert TrimTimes(facts, j) == TrimTimes(Trim(facts), j - 1); }
      }
    }
  }

  lemma BuildStep(ms: seq<Message>, facts: seq<Fact>, budget: nat)
    ensures var synced := Sync(ms, facts);
      Build(ms, facts, budget) ==
        if Fits(synced, budget) then (CompactTo(synced, budget), true)
        else if facts == [] then (CompactTo(synced, budget), false)
        else Build(CompactTo(synced, budget), Trim(facts), budget)
  {
    hide Sync, CompactTo, Trim, Fits;
  }

  lemma NeedSame(a: seq<Message>, b: seq<Message>)
    requires Root(a) == Root(b)
    ensures forall ledger :: Need(ledger, a) == Need(ledger, b)
  {
    hide Root;
  }

  lemma NoFacts(facts: seq<Fact>)
    ensures TrimTimes(facts, |facts|) == []
  {
    TrimsKeepLargest(facts, |facts|);
  }

  // Building a context succeeds if and only if the preamble and the first user
  // message fit the budget together, and then yields both within the budget;
  // in any case the window keeps its shape, and its ledger shows the largest
  // of the selected facts: as many as fit beside these two messages.
  lemma ContextSucceeds(m: Mem, l: Layout, budget: nat) returns (l': Layout, k: nat)
    requires m.messages == Flatten(l) && Sound(l)
    ensures Returns(m, Context, budget) <==> Floor(l.talk) <= budget
    ensures After(m, Context, budget).messages == Flatten(l') && Sound(l') && l'.preamble
    ensures l'.ledger == LedgerFor(Largest(Selected(m, budget), k, 0))
    ensures forall j :: 0 <= j < k ==> Floor(l.talk) + RootTokens(LedgerFor(Largest(Selected(m, budget), j, 0))) > budget
    ensures RootAndRecent(l'.talk, l.talk) && Root(l'.talk) == Root(l.talk)
    ensures Returns(m, Context, budget) ==> TotalTokens(Flatten(l')) <= budget
  {
    ContextIsBuild(m, budget);
    WithPreambleLayout(l);
    hide *;
    l', k := BuildGuarded(l, Selected(m, budget), budget);
    TrimsKeepLargest(Selected(m, budget), k);
    forall j | 0 <= j < k ensures Floor(l.talk) + RootTokens(LedgerFor(Largest(Selected(m, budget), j, 0))) > budget {
      TrimsKeepLargest(Selected(m, budget), j);
    }
  }

  lemma ContextIsBuild(m: Mem, budget: nat)
    ensures var build := Build(WithPreamble(m.messages), Selected(m, budget), budget);
      After(m, Context, budget).messages == build.0 && (Returns(m, Context, budget) <==> build.1)
  {
    hide Build, WithPreamble, Selected;
  }

  lemma BuildGuarded(l: Layout, facts: seq<Fact>, budget: nat) returns (l': Layout, k: nat)
    requires Sound(l.(preamble := true))
    ensures var build := Build(Flatten(l.(preamble := true)), facts, budget);
      Flatten(l') == build.0 && (build.1 <==> Floor(l.talk) <= budget) && (build.1 ==> TotalTokens(Flatten(l')) <= budget)
    ensures Sound(l') && l'.preamble && RootAndRecent(l'.talk, l.talk) && Root(l'.talk) == Root(l.talk)
    ensures l'.ledger == LedgerFor(TrimTimes(facts, k))
    ensures forall j :: 0 <= j < k ==> Floor(l.talk) + RootTokens(LedgerFor(TrimTimes(facts, j))) > budget
  {
    hide *;
    var guarded := l.(preamble := true);
    l', k := BuildLayout(guarded, facts, budget);
    forall j | 0 <= j < k ensures Floor(l.talk) + RootTokens(LedgerFor(TrimTimes(facts, j))) > budget {
      NeedIs(LedgerFor(TrimTimes(facts, j)), l.talk);
    }
    NeedIs(LedgerFor(TrimTimes(facts, k)), l.talk);
    if k == |facts| {
      NoFacts(facts);
      NoLedger();
    }
  }

  lemma NeedIs(ledger: Option<Message>, talk: seq<Message>)
    ensures Need(ledger, talk) == Floor(talk) + RootTokens(ledger)
  {
  }

  lemma NoLedger()
    ensures RootTokens(LedgerFor([])) == 0
  {
  }

  // ----- every history -----

  // The message an operation brings into the conversation; one that could not
  // fit alone is refused.
  function Spoken(op: Op, budget: nat): seq<Message> {
    var m := match op
      case SayUser(text) => [Message(User, text)]
      case SayAssistant(text) => [Message(Assistant, text)]
      case ToolOutput(text) => [Message(Tool, text)]
      case Context => [];
    if m != [] && MessageTokens(m[0]) > budget then [] else m
  }

  function Conversation(ops: seq<Op>, budget: nat): seq<Message> {
    if ops == [] then [] else Conversation(ops[..|ops| - 1], budget) + Spoken(ops[|ops| - 1], budget)
  }

  lemma PushLayout(l: Layout, m: Message, budget: nat) returns (l': Layout)
    requires Sound(l) && m.role != System && MessageTokens(m) <= budget
    ensures Flatten(l') == CompactTo(Flatten(l) + [m], budget) && Sound(l') && l'.ledger == l.ledger
    ensures RootAndRecent(l'.talk, l.talk + [m]) && Root(l'.talk) == Root(l.talk + [m])
  {
    hide MessageTokens, RootAndRecent, Root, CompactTo;
    var grown := l.(talk := l.talk + [m]);
    assert Flatten(grown) == Flatten(l) + [m];
    l' := CompactLayout(grown, budget);
  }

  // A window that no context was built in accepts any message that fits alone:
  // everything but its first user message can go.
  predicate Plain(l: Layout, budget: nat) {
    !l.preamble && l.ledger.None? && RootTokens(Root(l.talk)) <= budget
  }

  lemma PlainPush(l: Layout, m: Message, budget: nat) returns (l': Layout)
    requires Sound(l) && Plain(l, budget) && m.role != System && MessageTokens(m) <= budget
    ensures Window.Fits(Flatten(l) + [m], budget)
    ensures Flatten(l') == CompactTo(Flatten(l) + [m], budget) && Sound(l') && Plain(l', budget)
  {
    hide MessageTokens, RootAndRecent, Root, CompactTo, TotalTokens, Minimal;
    var grown := l.(talk := l.talk + [m]);
    assert Flatten(grown) == Flatten(l) + [m];
    RootAppend(l.talk, m);
    l' := CompactLayout(grown, budget);
    if Minimal(l') { PlainMinimal(l'); }
    if |Flatten(grown)| <= 1 { PlainAlone(l, m); }
  }

  lemma PlainMinimal(l: Layout)
    requires Minimal(l) && !l.preamble && l.ledger.None?
    ensures TotalTokens(Flatten(l)) == RootTokens(Root(l.talk))
  {
    hide MessageTokens, TotalTokens, Root;
    OptTotal(Root(l.talk));
    assert Flatten(l) == Opt(Root(l.talk));
  }

  lemma PlainAlone(l: Layout, m: Message)
    requires |Flatten(l) + [m]| <= 1
    ensures TotalTokens(Flatten(l) + [m]) == MessageTokens(m)
  {
    hide TotalTokens, MessageTokens;
    assert Flatten(l) + [m] == [m];
    OneTotal(m);
  }

  // The ledger stays within its share of the budget.
  predicate LedgerFits(l: Layout, budget: nat) {
    l.ledger.Some? ==> MessageTokens(l.ledger.value) <= LedgerBudget(budget)
  }

  lemma ContextLedger(m: Mem, l: Layout, k: nat, budget: nat)
    requires l.ledger == LedgerFor(Largest(Selected(m, budget), k, 0))
    ensures LedgerFits(l, budget)
  {
    hide MessageTokens, Ledger, Select, Largest, LedgerBudget;
    TrimsKeepLargest(Selected(m, budget), k);
    SelectedFits(First(m.facts, FACT_LIMIT), LedgerBudget(budget));
    TrimmedFits(Selected(m, budget), LedgerBudget(budget), k);
  }

  lemma {:induction false} RunShape(ops: seq<Op>, budget: nat) returns (l: Layout)
    ensures Run(EMPTY, ops, budget).messages == Flatten(l) && Sound(l) && LedgerFits(l, budget)
    ensures RootAndRecent(l.talk, Conversation(ops, budget)) && Root(l.talk) == Root(Conversation(ops, budget))
  {
    hide RootAndRecent, Root, Sound, Flatten, MessageTokens, Build, CompactTo;
    if ops == [] {
      l := Layout(false, None, None, []);
      EmptyLayout();
    } else {
      var before, op := ops[..|ops| - 1], ops[|ops| - 1];
      var prev := RunShape(before, budget);
      l := StepShape(Run(EMPTY, before, budget), prev, Conversation(before, budget), op, budget);
    }
  }

  // One operation keeps the shape, against any conversation it is a shape of.
  lemma StepShape(m: Mem, l: Layout, talk: seq<Message>, op: Op, budget: nat) returns (l': Layout)
    requires m.messages == Flatten(l) && Sound(l) && LedgerFits(l, budget)
    requires RootAndRecent(l.talk, talk) && Root(l.talk) == Root(talk)
    ensures After(m, op, budget).messages == Flatten(l') && Sound(l') && LedgerFits(l', budget)
    ensures RootAndRecent(l'.talk, talk + Spoken(op, budget)) && Root(l'.talk) == Root(talk + Spoken(op, budget))
  {
    SpokenAfter(m, op, budget);
    var spoken := Spoken(op, budget);
    hide *;
    if spoken != [] {
      l' := PushLayout(l, spoken[0], budget);
      assert spoken == [spoken[0]];
      RecentAppend(l.talk, talk, spoken[0]);
      RecentTrans(l'.talk, l.talk + [spoken[0]], talk + spoken);
      RootAppend(l.talk, spoken[0]);
      RootAppend(talk, spoken[0]);
      SameLedger(l, l', budget);
    } else {
      assert talk + spoken == talk;
      if op.Context? {
        var k;
        l', k := ContextSucceeds(m, l, budget);
        ContextLedger(m, l', k, budget);
        RecentTrans(l'.talk, l.talk, talk);
      } else {
        l' := l;
      }
    }
  }

  lemma SpokenAfter(m: Mem, op: Op, budget: nat)
    ensures var spoken := Spoken(op, budget);
      if spoken == [] then op.Context? || After(m, op, budget).messages == m.messages
      else
        && |spoken| == 1 && spoken[0].role != System && MessageTokens(spoken[0]) <= budget
        && After(m, op, budget).messages == CompactTo(m.messages + [spoken[0]], budget)
  {
    hide MessageTokens, CompactTo, Build, Preserve, Selected;
  }

  lemma SameLedger(l: Layout, l': Layout, budget: nat)
    requires l.ledger == l'.ledger && LedgerFits(l, budget)
    ensures LedgerFits(l', budget)
  {
  }

  lemma EmptyLayout()
    ensures Flatten(Layout(false, None, None, [])) == [] && Sound(Layout(false, None, None, []))
    ensures RootAndRecent([], [])
  {
    RecentRefl([]);
  }

  // The main result, stated on the histories themselves: whatever was said and
  // whenever a context was built, the window has its shape, with all of the
  // conversation from some message on behind its first user message, and its
  // ledger within bounds; a next context can be built exactly when the preamble
  // and the conversation's first user message fit; and an operation that
  // returns leaves the window within the budget.
  lemma HistoryShape(ops: seq<Op>, op: Op, budget: nat) returns (l: Layout, n: nat)
    ensures Run(EMPTY, ops, budget).messages == Flatten(l) && Sound(l)
    ensures l.ledger.Some? ==>
      MessageTokens(l.ledger.value) <= 2400 && (MessageTokens(l.ledger.value) <= 24 || 3 * MessageTokens(l.ledger.value) <= budget)
    ensures var talk := Conversation(ops, budget);
      n <= |talk| && l.talk == Opt(Root(talk[..n])) + talk[n..] && Root(l.talk) == Root(talk)
    ensures Returns(Run(EMPTY, ops, budget), Context, budget) <==> Floor(Conversation(ops, budget)) <= budget
    ensures Returns(Run(EMPTY, ops, budget), op, budget) ==> TotalTokens(After(Run(EMPTY, ops, budget), op, budget).messages) <= budget
  {
    hide Root, Sound, Flatten, MessageTokens, Build, CompactTo, TotalTokens, Largest, Selected, LedgerFor, Conversation, Run, Opt;
    l := RunShape(ops, budget);
    n :| 0 <= n <= |Conversation(ops, budget)| && l.talk == Recent(Conversation(ops, budget), n);
    var l', k := ContextSucceeds(Run(EMPTY, ops, budget), l, budget);
  }
}
