// One model turn: build the context, ask, record the response before anything
// else is done with it, then record what it says.
module Validator {
  import opened Events
  import opened Protocol
  import opened Invariant
  import opened Checking
  import opened Database
  import opened Guard
  import opened Tokenizer
  import opened Window
  import opened Memory
  import opened Resume

  // The step's response is recorded and not yet parsed; once it is paid for,
  // what it says is recorded as well.
  ghost predicate Hearing(d: Durable, t: nat, r: Response) {
    Responding(d) && d.row.step == t && Latest(d.log, KResponse, t).value.response == r
    && (Latest(d.log, KCharge, t).Some? ==> Voiced(d.log, t, r))
  }

  lemma VoicedKept(log: seq<Event>, log': seq<Event>, t: nat, r: Response)
    requires Voiced(log, t, r) && forall k :: Logged(log, k) ==> Logged(log', k)
    ensures Voiced(log', t, r)
  {
    hide Logged;
  }

  // An event of another kind does not change the answer for a kind.
  lemma OtherKind(log: seq<Event>, e: Event, kind: Kind, step: nat)
    requires KindOf(e) != kind && EventKeyOf(e) != NoKey
    ensures Latest(Insert(log, e), kind, step) == Latest(log, kind, step)
  {
    InsertKeeps(log, e);
    if Insert(log, e) != log { LatestAppend(log, e, kind, step); }
  }

  lemma HearingKept(d: Durable, t: nat, r: Response, e: Event)
    requires Hearing(d, t, r) && KindOf(e) == KOther && EventKeyOf(e) != NoKey
    ensures Hearing(Logging(d, e), t, r)
    ensures Latest(Insert(d.log, e), KCharge, t) == Latest(d.log, KCharge, t)
    ensures Latest(Insert(d.log, e), KRequest, t) == Latest(d.log, KRequest, t)
  {
    hide Latest, Insert, Voiced, Logged;
    OtherKind(d.log, e, KRequest, t);
    OtherKind(d.log, e, KResponse, t);
    OtherKind(d.log, e, KParsed, t);
    OtherKind(d.log, e, KCharge, t);
    InsertKeeps(d.log, e);
    if Voiced(d.log, t, r) { VoicedKept(d.log, Insert(d.log, e), t, r); }
  }

  // A step is charged only after what it says is recorded.
  lemma {:induction false} ChargedVoiced(cfg: Config, log: seq<Event>, t: nat)
    requires LogOk(cfg, log) && Latest(log, KCharge, t).Some?
    ensures Latest(log, KResponse, t).Some? && Voiced(log, t, Latest(log, KResponse, t).value.response)
  {
    var p, e := log[..|log| - 1], log[|log| - 1];
    assert log == p + [e];
    LatestAppend(p, e, KCharge, t);
    if Latest(p, KCharge, t).Some? { ChargedVoiced(cfg, p, t); }
    if p != [] { VoicedGrows(p, e, t); }
  }

  // What is voiced is in the log, word for word.
  lemma VoicedIn(log: seq<Event>, t: nat, r: Response)
    requires Voiced(log, t, r)
    ensures r.text != "" ==> Said(t, r.text) in log
    ensures forall i :: 0 <= i < |r.errors| ==> ParseFailed(t, i, r.errors[i]) in log
  {
    hide Logged;
    if r.text != "" { ContentIn(log, Said(t, r.text)); }
    forall i | 0 <= i < |r.errors| ensures ParseFailed(t, i, r.errors[i]) in log { ContentIn(log, ParseFailed(t, i, r.errors[i])); }
  }

  lemma ContentIn(log: seq<Event>, e: Event)
    requires Logged(log, Content(e))
    ensures e in log
  {
  }

  // A charge, in any log, stands with the response, its text and all its parse
  // errors.
  lemma ChargedSaid(cfg: Config, log: seq<Event>, t: nat)
    requires LogOk(cfg, log) && Latest(log, KCharge, t).Some?
    ensures Latest(log, KResponse, t).Some?
    ensures var r := Latest(log, KResponse, t).value.response;
      (r.text != "" ==> Said(t, r.text) in log) && forall i :: 0 <= i < |r.errors| ==> ParseFailed(t, i, r.errors[i]) in log
  {
    hide LogOk, Voiced, Latest;
    ChargedVoiced(cfg, log, t);
    VoicedIn(log, t, Latest(log, KResponse, t).value.response);
  }

  lemma VoicedGrows(p: seq<Event>, e: Event, t: nat)
    requires !Logged(p, EventKeyOf(e)) && Latest(p, KResponse, t).Some? && Voiced(p, t, Latest(p, KResponse, t).value.response)
    ensures Latest(p + [e], KResponse, t) == Latest(p, KResponse, t)
    ensures Voiced(p + [e], t, Latest(p, KResponse, t).value.response)
  {
    hide Voiced;
    LatestStable(p, e, KResponse, t);
    forall k | Logged(p, k) ensures Logged(p + [e], k) { LoggedAppend(p, e, k); }
    VoicedKept(p, p + [e], t, Latest(p, KResponse, t).value.response);
  }

  lemma RespondingHears(cfg: Config, d: Durable)
    requires Inv(cfg, d) && Responding(d)
    ensures Hearing(d, d.row.step, Latest(d.log, KResponse, d.row.step).value.response)
  {
    if Latest(d.log, KCharge, d.row.step).Some? { ChargedVoiced(cfg, d.log, d.row.step); }
  }

  // Before a response there is neither charge nor parse.
  lemma SilentStep(cfg: Config, log: seq<Event>, t: nat)
    requires LogOk(cfg, log) && Latest(log, KResponse, t).None?
    ensures Latest(log, KCharge, t).None? && Latest(log, KParsed, t).None?
  {
    if Latest(log, KCharge, t).Some? { ChargedVoiced(cfg, log, t); }
    if Latest(log, KParsed, t).Some? { ParsedPaid(cfg, log, t); }
  }

  lemma AskedNext(cfg: Config, d: Durable, r: Response)
    requires Inv(cfg, d) && AwaitingModel(d)
    ensures Hearing(Logging(d, Responded(d.row.step, r)), d.row.step, r)
    ensures Latest(Logging(d, Responded(d.row.step, r)).log, KCharge, d.row.step).None?
    ensures Latest(Logging(d, Responded(d.row.step, r)).log, KRequest, d.row.step) == Latest(d.log, KRequest, d.row.step)
  {
    var t, e := d.row.step, Responded(d.row.step, r);
    SilentStep(cfg, d.log, t);
    SlotTaken(d.log, KResponse, t);
    LatestAppend(d.log, e, KResponse, t);
    LatestAppend(d.log, e, KParsed, t);
    LatestAppend(d.log, e, KCharge, t);
    OtherKind(d.log, e, KRequest, t);
  }

  lemma RequestedNext(d: Durable, tokens: nat)
    requires AwaitingModel(d)
    ensures AwaitingModel(Logging(d, Request(d.row.step, tokens)))
    ensures Latest(Logging(d, Request(d.row.step, tokens)).log, KRequest, d.row.step) ==
      if Latest(d.log, KRequest, d.row.step).Some? then Latest(d.log, KRequest, d.row.step)
      else Some(Request(d.row.step, tokens))
  {
    var e := Request(d.row.step, tokens);
    OtherKind(d.log, e, KResponse, d.row.step);
    SlotTaken(d.log, KRequest, d.row.step);
    LatestAppend(d.log, e, KRequest, d.row.step);
  }

  lemma RequestAllowed(cfg: Config, d: Durable, tokens: nat)
    requires AwaitingModel(d)
    ensures MayLog(cfg, d, Request(d.row.step, tokens))
  {
  }

  lemma ResponseAllowed(cfg: Config, d: Durable, r: Response)
    requires AwaitingModel(d) && Latest(d.log, KRequest, d.row.step).Some?
    ensures MayLog(cfg, d, Responded(d.row.step, r))
  {
  }

  // At most n transactions were made besides those for a response that is now
  // recorded: itself, its text and its parse errors.
  twostate predicate Spent(db: AgentDatabase, n: nat, t: nat, r: Response)
    reads db
  {
    |db.history| <= |old(db.history)| + n
    || (Hearing(db.State(), t, r) && |db.history| <= |old(db.history)| + n + 2 + |r.errors|)
  }

  // Errors that come from the model client and from the memory.
  predicate IsOutside(message: string) {
    message == NETWORK_FAILURE || message == CIRCUIT_OPEN || message == CONTEXT_LIMIT
  }

  class AgentValidator {
    const config: Config
    const db: AgentDatabase
    const script: Script

    constructor (config: Config, db: AgentDatabase, script: Script)
      ensures this.config == config && this.db == db && this.script == script
    {
      this.config, this.db, this.script := config, db, script;
    }

    // The row, the tables, starts and checks are as they were, and the memory is in line with
    // the log unless the process is dead.
    twostate predicate OnlyLogged(o: Outcome, memory: MemoryManager)
      reads db, memory, memory.window
    {
      Onward(db, o) && db.row == old(db.row) && db.execs == old(db.execs) && db.emails == old(db.emails)
      && SameMarks(old(db.log), db.log)
      && (!o.Killed? ==> Remembers(script, memory.Value(), db.log))
    }

    lemma Silent(cfg: Config, d: Durable)
      requires Inv(cfg, d) && AwaitingModel(d)
      ensures Latest(d.log, KCharge, d.row.step).None?
    {
      SilentStep(cfg, d.log, d.row.step);
    }

    // The model is asked only at a step that has no response yet, and is given
    // the window of the memory.
    method CallModel(context: seq<Message>, ghost d: Durable, ghost memory: MemoryManager)
      returns (o: Outcome, response: Response)
      requires AwaitingModel(d) && context == memory.window.messages
      ensures !o.Killed? && (o.Raised? ==> IsOutside(o.message))
    {
      var answered: bool, open: bool := *, *;
      response := *;
      o := if answered then Ok else if open then Raised(CIRCUIT_OPEN) else Raised(NETWORK_FAILURE);
    }

    method ValidateTurn(step: nat, memory: MemoryManager) returns (o: Outcome, response: Response, tokens: nat)
      requires Sound(config, db) && AwaitingModel(db.State()) && db.row.step == step
      requires Remembers(script, memory.Value(), db.log)
      modifies db, memory, memory.window
      ensures Latest(db.log, KRequest, step) == Latest(old(db.log), KRequest, step)
        || (Latest(old(db.log), KRequest, step).None?
            && Latest(db.log, KRequest, step)
               == Some(Request(step, TotalTokens(After(old(memory.Value()), Context, memory.window.budget).messages))))
      ensures o.Ok? ==> Latest(db.log, KRequest, step).Some?
      ensures Sound(config, db) && OnlyLogged(o, memory)
      ensures !o.Killed? ==> Spoke(
        script, After(old(memory.Value()), Context, memory.window.budget), memory.Value(), old(db.log), db.log, memory.window.budget)
      ensures o.Raised? ==> Latest(db.log, KCharge, step).None? && IsOutside(o.message)
      ensures Spent(db, 1, step, response)
      ensures o.Ok? ==> Hearing(db.State(), step, response) && Voiced(db.log, step, response)
      ensures o.Ok? ==> CostSoFar(db.log) == CostSoFar(old(db.log)) && Latest(db.log, KCharge, step).None?
      ensures o.Ok? ==> tokens == TotalTokens(After(old(memory.Value()), Context, memory.window.budget).messages)
      ensures o.Ok? ==> tokens <= memory.window.budget
    {
      hide Spoke, Wordless, Checks, Announced, Path, Inv, Insert, Latest, MayLog, Recall, After, Returns, Voiced, TotalTokens;
      tokens := 0;
      response := Response("", [], [], false, None, 0);
      ghost var m := memory.Value();
      ContextKeepsNotes(m, memory.window.budget);
      SoundInv(config, db);
      Silent(config, db.State());
      var context;
      o, context := memory.GetCompactedContext();
      ghost var m1, log := memory.Value(), db.log;
      SpokeNothing(script, m1, log, memory.window.budget);
      if !o.Ok? {
        return;
      }
      tokens := memory.window.EstimatedTokens();
      :- RecordRequest(step, memory, tokens);
      ghost var log1 := db.log;
      SpokeWordless(script, m1, m1, log, log, log1, memory.window.budget);
      o, response := Exchange(step, context, memory);
      if !o.Killed? { SpokeOn(script, m1, m1, memory.Value(), log, log1, db.log, memory.window.budget); }
    }

    // The model is asked, and its response recorded.
    method Exchange(step: nat, context: seq<Message>, memory: MemoryManager) returns (o: Outcome, response: Response)
      requires Sound(config, db) && AwaitingModel(db.State()) && db.row.step == step && context == memory.window.messages
      requires Latest(db.log, KRequest, step).Some? && Remembers(script, memory.Value(), db.log)
      requires Latest(db.log, KCharge, step).None?
      modifies db, memory, memory.window
      ensures Latest(db.log, KRequest, step) == Latest(old(db.log), KRequest, step)
      ensures Sound(config, db) && OnlyLogged(o, memory)
      ensures !o.Killed? ==> Spoke(script, old(memory.Value()), memory.Value(), old(db.log), db.log, memory.window.budget)
      ensures o.Raised? ==> Latest(db.log, KCharge, step).None? && IsOutside(o.message)
      ensures Spent(db, 0, step, response)
      ensures o.Ok? ==> Hearing(db.State(), step, response) && Voiced(db.log, step, response)
      ensures o.Ok? ==> CostSoFar(db.log) == CostSoFar(old(db.log)) && Latest(db.log, KCharge, step).None?
    {
      hide Spoke, Checks, Announced, Path, Inv, Insert, Latest, MayLog, Recall, Voiced, AwaitingModel, IsOutside;
      SpokeNothing(script, memory.Value(), db.log, memory.window.budget);
      MarksSame(db.log);
      o, response := CallModel(context, db.State(), memory);
      if o.Ok? { o := RecordResponse(step, memory, response); }
    }

    lemma MarksSame(log: seq<Event>)
      ensures SameMarks(log, log)
    {
    }

    // The request is in the log before the model is asked; one that is there
    // already stays as it is.
    method RecordRequest(step: nat, memory: MemoryManager, tokens: nat) returns (o: Outcome)
      requires Sound(config, db) && AwaitingModel(db.State()) && db.row.step == step
      requires Remembers(script, memory.Value(), db.log)
      modifies db
      ensures Sound(config, db) && OnlyLogged(o, memory) && !o.Raised? && |db.history| <= |old(db.history)| + 1
      ensures o.Killed? ==> db.log == old(db.log)
      ensures o.Ok? ==> AwaitingModel(db.State()) && Wordless(script, old(db.log), db.log)
      ensures o.Ok? ==> CostSoFar(db.log) == CostSoFar(old(db.log)) && Latest(db.log, KCharge, step) == Latest(old(db.log), KCharge, step)
      ensures o.Ok? && Latest(old(db.log), KRequest, step).Some? ==>
        Latest(db.log, KRequest, step) == Latest(old(db.log), KRequest, step)
      ensures o.Ok? && Latest(old(db.log), KRequest, step).None? ==> Latest(db.log, KRequest, step) == Some(Request(step, tokens))
    {
      hide Wordless, Checks, Announced, Path, Inv, Insert, Latest, MayLog, Recall, Voiced;
      RequestAllowed(config, db.State(), tokens);
      RequestedNext(db.State(), tokens);
      OtherKind(db.log, Request(step, tokens), KCharge, step);
      SilentEvent(db.log, Request(step, tokens), memory.Value());
      WordlessNone(script, db.log);
      WordlessOne(script, db.log, db.log, Request(step, tokens));
      var inserted;
      o, inserted := Append(config, db, Request(step, tokens));
    }

    // The response is in the log before anything else is done with it.
    method RecordResponse(step: nat, memory: MemoryManager, response: Response) returns (o: Outcome)
      requires Sound(config, db) && AwaitingModel(db.State()) && db.row.step == step
      requires Latest(db.log, KRequest, step).Some? && Remembers(script, memory.Value(), db.log)
      modifies db, memory, memory.window
      ensures Latest(db.log, KRequest, step) == Latest(old(db.log), KRequest, step)
      ensures Sound(config, db) && OnlyLogged(o, memory)
      ensures !o.Killed? ==> Spoke(script, old(memory.Value()), memory.Value(), old(db.log), db.log, memory.window.budget)
      ensures o.Raised? ==> Latest(db.log, KCharge, step).None? && IsOutside(o.message)
      ensures Spent(db, 0, step, response)
      ensures o.Ok? ==> Hearing(db.State(), step, response) && Voiced(db.log, step, response)
      ensures o.Ok? ==> CostSoFar(db.log) == CostSoFar(old(db.log)) && Latest(db.log, KCharge, step).None?
    {
      hide Spoke, Checks, Announced, Path, Inv, Insert, Latest, MayLog, Recall, Voiced, AwaitingModel;
      SoundInv(config, db);
      ResponseAllowed(config, db.State(), response);
      AskedNext(config, db.State(), response);
      SilentEvent(db.log, Responded(step, response), memory.Value());
      ghost var m, log := memory.Value(), db.log;
      SpokeNothing(script, m, log, memory.window.budget);
      SpokeSilent(script, m, m, log, log, Responded(step, response), memory.window.budget);
      var inserted :- Append(config, db, Responded(step, response));
      ghost var log1 := db.log;
      o := RecordParsedResponse(step, memory, response);
      if !o.Killed? { SpokeOn(script, m, m, memory.Value(), log, log1, db.log, memory.window.budget); }
    }

    lemma ContextKeepsNotes(m: Mem, budget: nat)
      ensures Notes(After(m, Context, budget)) == Notes(m)
    {
      NotesAfter(m, Context, budget);
    }

    // An event that is no message and no charge.
    lemma SilentEvent(log: seq<Event>, e: Event, m: Mem)
      requires OpOf(script, e).None? && !e.Charged? && EventKeyOf(e) != NoKey && !e.Started? && !e.ProgressCheck?
      ensures Remembers(script, m, log) ==> Remembers(script, m, Insert(log, e))
      ensures CostSoFar(Insert(log, e)) == CostSoFar(log) && SameMarks(log, Insert(log, e))
    {
      hide Checks, Announced;
      InsertKeeps(log, e);
      MarksKept(log, e);
      RecallAppend(script, log, e);
      LatestProgressAppend(log, e);
    }

    // The recorded response is gone through again without asking the model.
    method RecordParsedResponse(step: nat, memory: MemoryManager, r: Response) returns (o: Outcome)
      requires Sound(config, db) && Hearing(db.State(), step, r) && Remembers(script, memory.Value(), db.log)
      modifies db, memory, memory.window
      ensures Latest(db.log, KRequest, step) == Latest(old(db.log), KRequest, step)
      ensures Sound(config, db) && OnlyLogged(o, memory)
      ensures !o.Killed? ==> Spoke(script, old(memory.Value()), memory.Value(), old(db.log), db.log, memory.window.budget)
      ensures o.Raised? ==> Latest(db.log, KCharge, step).None? && IsOutside(o.message)
      ensures Hearing(db.State(), step, r) && |db.history| <= |old(db.history)| + 1 + |r.errors|
      ensures o.Ok? ==> Voiced(db.log, step, r)
      ensures o.Ok? && r.text != "" ==> Said(step, r.text) in db.log
      ensures o.Ok? ==> forall i :: 0 <= i < |r.errors| ==> ParseFailed(step, i, r.errors[i]) in db.log
      ensures o.Ok? ==>
        CostSoFar(db.log) == CostSoFar(old(db.log)) && Latest(db.log, KCharge, step) == Latest(old(db.log), KCharge, step)
    {
      hide Spoke, Checks, Announced, Path, Inv, Insert, Latest, MayLog, Recall, After, Returns, Voiced, Logged;
      o := Ok;
      SpokeNothing(script, memory.Value(), db.log, memory.window.budget);
      if r.text != "" {
        :- RecordText(step, memory, r);
      }
      for index := 0 to |r.errors|
        invariant Sound(config, db) && OnlyLogged(o, memory) && o == Ok
        invariant Hearing(db.State(), step, r) && CostSoFar(db.log) == CostSoFar(old(db.log))
        invariant Spoke(script, old(memory.Value()), memory.Value(), old(db.log), db.log, memory.window.budget)
        invariant |db.history| <= |old(db.history)| + 1 + index
        invariant Latest(db.log, KCharge, step) == Latest(old(db.log), KCharge, step)
        invariant Latest(db.log, KRequest, step) == Latest(old(db.log), KRequest, step)
        invariant r.text != "" ==> Logged(db.log, Content(Said(step, r.text)))
        invariant forall i :: 0 <= i < index ==> Logged(db.log, Content(ParseFailed(step, i, r.errors[i])))
      {
        o := RecordError(step, memory, r, index, old(memory.Value()), old(db.log));
        if !o.Ok? {
          return;
        }
      }
      AllVoiced(db.log, step, r);
      VoicedIn(db.log, step, r);
    }

    // One parse error, which says nothing to the memory.
    method RecordError(step: nat, memory: MemoryManager, r: Response, index: nat, ghost m: Mem, ghost log: seq<Event>)
      returns (o: Outcome)
      requires Sound(config, db) && Hearing(db.State(), step, r) && Remembers(script, memory.Value(), db.log)
      requires index < |r.errors| && Spoke(script, m, memory.Value(), log, db.log, memory.window.budget)
      modifies db
      ensures Latest(db.log, KRequest, step) == Latest(old(db.log), KRequest, step)
      ensures Sound(config, db) && OnlyLogged(o, memory) && !o.Raised?
      ensures !o.Killed? ==> Spoke(script, m, memory.Value(), log, db.log, memory.window.budget)
      ensures Hearing(db.State(), step, r) && |db.history| <= |old(db.history)| + 1
      ensures o.Ok? ==> Logged(db.log, Content(ParseFailed(step, index, r.errors[index])))
      ensures o.Ok? ==> forall k :: Logged(old(db.log), k) ==> Logged(db.log, k)
      ensures o.Ok? ==>
        CostSoFar(db.log) == CostSoFar(old(db.log)) && Latest(db.log, KCharge, step) == Latest(old(db.log), KCharge, step)
    {
      hide Spoke, Checks, Announced, Path, Inv, Insert, Latest, MayLog, Recall, After, Returns, Voiced, Logged;
      var e := ParseFailed(step, index, r.errors[index]);
      ErrorAllowed(config, db.State(), step, r, index);
      HearingKept(db.State(), step, r, e);
      InsertKeeps(db.log, e);
      SilentEvent(db.log, e, memory.Value());
      SpokeSilent(script, m, memory.Value(), log, db.log, e, memory.window.budget);
      var inserted;
      o, inserted := Append(config, db, e);
    }

    lemma AllVoiced(log: seq<Event>, step: nat, r: Response)
      requires r.text != "" ==> Logged(log, Content(Said(step, r.text)))
      requires forall i :: 0 <= i < |r.errors| ==> Logged(log, Content(ParseFailed(step, i, r.errors[i])))
      ensures Voiced(log, step, r)
    {
      hide Logged;
    }

    lemma ErrorAllowed(cfg: Config, d: Durable, step: nat, r: Response, i: nat)
      requires Hearing(d, step, r) && i < |r.errors|
      ensures MayLog(cfg, d, ParseFailed(step, i, r.errors[i])) || Logged(d.log, Content(ParseFailed(step, i, r.errors[i])))
    {
      hide Latest, Logged;
    }

    lemma TextAllowed(cfg: Config, d: Durable, step: nat, r: Response)
      requires Hearing(d, step, r) && r.text != ""
      ensures MayLog(cfg, d, Said(step, r.text)) || Logged(d.log, Content(Said(step, r.text)))
    {
      hide Latest, Logged;
    }

    // A text that is not logged yet has not been charged for.
    lemma UnsaidUncharged(d: Durable, step: nat, r: Response)
      requires Hearing(d, step, r) && r.text != "" && !Logged(d.log, Content(Said(step, r.text)))
      ensures Latest(d.log, KCharge, step).None?
    {
      hide Latest, Logged;
    }

    method RecordText(step: nat, memory: MemoryManager, r: Response) returns (o: Outcome)
      requires Sound(config, db) && Hearing(db.State(), step, r) && Remembers(script, memory.Value(), db.log) && r.text != ""
      modifies db, memory, memory.window
      ensures Latest(db.log, KRequest, step) == Latest(old(db.log), KRequest, step)
      ensures Sound(config, db) && OnlyLogged(o, memory)
      ensures !o.Killed? ==> Spoke(script, old(memory.Value()), memory.Value(), old(db.log), db.log, memory.window.budget)
      ensures !o.Killed? && Logged(old(db.log), Content(Said(step, r.text))) ==> memory.Value() == old(memory.Value())
      ensures !o.Killed? && !Logged(old(db.log), Content(Said(step, r.text))) ==>
        memory.Value() == After(old(memory.Value()), SayAssistant(r.text), memory.window.budget)
      ensures o.Raised? ==> Latest(db.log, KCharge, step).None? && IsOutside(o.message)
      ensures Hearing(db.State(), step, r) && |db.history| <= |old(db.history)| + 1
      ensures o.Ok? ==> Logged(db.log, Content(Said(step, r.text)))
      ensures o.Ok? ==>
        CostSoFar(db.log) == CostSoFar(old(db.log)) && Latest(db.log, KCharge, step) == Latest(old(db.log), KCharge, step)
    {
      hide Spoke, Checks, Announced, Path, Inv, Insert, Latest, MayLog, Recall, After, Returns, Voiced, Logged, Preserve;
      var e := Said(step, r.text);
      ghost var log, m := db.log, memory.Value();
      TextAllowed(config, db.State(), step, r);
      HearingKept(db.State(), step, r, e);
      InsertKeeps(log, e);
      LatestProgressAppend(log, e);
      MarksKept(log, e);
      if !Logged(log, Content(e)) { UnsaidUncharged(db.State(), step, r); }
      SpokeNothing(script, m, log, memory.window.budget);
      SpokeOne(script, m, m, log, log, e, memory.window.budget);
      var inserted :- Append(config, db, e);
      if inserted {
        RememberNext(script, m, log, e, SayAssistant(r.text), memory.window.budget);
        o := memory.AddAssistantMessage(r.text);
      } else {
        o := Ok;
      }
    }
  }
}
