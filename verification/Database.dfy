// The durable store of one run: the row of the run, the event log, the tool
// executions and the sent emails.  Every method that writes is one transaction;
// the environment decides how many of them the process lives to see.
module Database {
  import opened Events
  import opened Protocol

  class AgentDatabase {
    var row: Row
    var log: seq<Event>
    var execs: map<Key, Exec>
    var emails: map<Key, Sent>
    // The transactions left before the process is killed.
    var lives: nat
    // Every state a transaction left, starting with the empty store.
    ghost var history: seq<Durable>

    ghost function State(): Durable
      reads this
    {
      Durable(row, log, execs, emails)
    }

    ghost predicate Valid()
      reads this
    {
      history != [] && history[|history| - 1] == State()
    }

    // The transaction left the given state, or the process died before it.
    twostate predicate Committed(o: Outcome, d: Durable)
      reads this
    {
      if old(lives) == 0 then o == Killed && unchanged(this)
      else o == Ok && lives + 1 == old(lives) && State() == d && history == old(history) + [d]
    }

    constructor (lives: nat)
      ensures Valid() && this.lives == lives && history == [Initial()]
    {
      row, log, execs, emails := Row(NoRow, 0, []), [], map[], map[];
      this.lives := lives;
      history := [Initial()];
    }

    // Begins a transaction, if the process still lives.
    method Enter() returns (o: Outcome)
      modifies this`lives
      ensures if old(lives) == 0 then o == Killed && lives == 0 else o == Ok && lives + 1 == old(lives)
    {
      if lives == 0 {
        return Killed;
      }
      lives := lives - 1;
      o := Ok;
    }

    // The row and its first event appear together, once.
    method CreateRun() returns (o: Outcome, created: bool)
      requires Valid()
      modifies this
      ensures Valid() && Committed(o, if old(row.status.NoRow?) then Created(old(State())) else old(State()))
      ensures created <==> o.Ok? && old(row.status.NoRow?)
    {
      created := false;
      o := Enter();
      if o.Ok? {
        if row.status.NoRow? {
          row := Row(Fresh, 0, []);
          log := log + [RunStarted(0)];
          created := true;
        }
        history := history + [State()];
      }
    }

    // A pending list that is not given stays.
    method UpdateRun(status: Status, step: nat, pending: Option<seq<Call>>) returns (o: Outcome)
      requires Valid()
      modifies this
      ensures Valid()
      ensures Committed(o, old(State()).(row := Row(status, step, if pending.Some? then pending.value else old(row.pending))))
    {
      o := Enter();
      if o.Ok? {
        row := Row(status, step, if pending.Some? then pending.value else row.pending);
        history := history + [State()];
      }
    }

    // The row and the event that explains it are committed together.
    method UpdateRunAndAppendEvent(status: Status, step: nat, pending: seq<Call>, e: Event) returns (o: Outcome)
      requires Valid()
      modifies this
      ensures Valid()
      ensures Committed(o, old(State()).(row := Row(status, step, pending), log := Insert(old(log), e)))
    {
      o := Enter();
      if o.Ok? {
        row := Row(status, step, pending);
        var inserted := InsertEvent(e);
        history := history + [State()];
      }
    }

    method FinishRun(reason: Reason, step: nat) returns (o: Outcome)
      requires Valid()
      modifies this
      ensures Valid()
      ensures Committed(o, old(State()).(row := Row(Done, step, []), log := Insert(old(log), Finished(step, reason))))
    {
      o := UpdateRunAndAppendEvent(Done, step, [], Finished(step, reason));
    }

    method AppendEvent(e: Event) returns (o: Outcome, inserted: bool)
      requires Valid()
      modifies this
      ensures Valid() && Committed(o, Logging(old(State()), e))
      ensures inserted <==> o.Ok? && log != old(log)
    {
      inserted := false;
      o := Enter();
      if o.Ok? {
        inserted := InsertEvent(e);
        history := history + [State()];
      }
    }

    // INSERT for an event without a key, INSERT OR IGNORE for any other.
    method InsertEvent(e: Event) returns (inserted: bool)
      modifies this`log
      ensures log == Insert(old(log), e) && (inserted <==> log != old(log))
    {
      var key := EventKeyOf(e);
      if key != NoKey {
        for i := 0 to |log|
          invariant forall j :: 0 <= j < i ==> EventKeyOf(log[j]) != key
          invariant unchanged(this)
        {
          if EventKeyOf(log[i]) == key {
            return false;
          }
        }
      }
      log := log + [e];
      inserted := true;
    }

    function GetToolExecution(key: Key): (r: Option<Exec>)
      reads this
      ensures r.Some? <==> key in execs
    {
      if key in execs then Some(execs[key]) else None
    }

    // Inserts the outcome or overwrites the one there.
    method RecordToolExecution(key: Key, exec: Exec) returns (o: Outcome)
      requires Valid()
      modifies this
      ensures Valid() && Committed(o, old(State()).(execs := old(execs)[key := exec]))
    {
      o := Enter();
      if o.Ok? {
        execs := execs[key := exec];
        history := history + [State()];
      }
    }

    // The email and its execution are one transaction; an email already sent
    // under the key stays as it is.
    method SendEmailToolOnce(call: Call) returns (o: Outcome)
      requires Valid() && Mailable(call.args)
      modifies this
      ensures Valid() && Committed(o, Mailed(old(State()), call))
    {
      o := Enter();
      if o.Ok? {
        var key := KeyOf(call);
        if key !in emails { emails := emails[key := SentOf(call.args)]; }
        execs := execs[key := Exec(ExecCompleted, "queued", "")];
        history := history + [State()];
      }
    }
  }
}
