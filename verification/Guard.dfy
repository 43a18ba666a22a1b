// The store under its protocol: each transaction a live process makes is shown
// to be one the protocol allows in the state it finds.
module Guard {
  import opened Events
  import opened Protocol
  import opened Invariant
  import opened History
  import opened Database

  // The store's history is one the protocol allows.
  ghost predicate Sound(cfg: Config, db: AgentDatabase)
    reads db
  {
    db.Valid() && Path(cfg, db.history)
  }

  // Only transactions happened, each at the price of one life; a kill leaves
  // none.
  twostate predicate Onward(db: AgentDatabase, o: Outcome)
    reads db
  {
    old(db.history) <= db.history && db.lives + |db.history| == old(db.lives) + |old(db.history)|
    && (o.Killed? ==> db.lives == 0)
  }

  lemma SoundInv(cfg: Config, db: AgentDatabase)
    requires Sound(cfg, db)
    ensures Inv(cfg, db.State())
  {
    PathInvariant(cfg, db.history, |db.history| - 1);
  }

  lemma PathExtends(cfg: Config, h: seq<Durable>, d: Durable)
    requires Path(cfg, h) && Next(cfg, h[|h| - 1], d)
    ensures Path(cfg, h + [d])
  {
    hide Next;
  }

  lemma CommitExtends(cfg: Config, h: seq<Durable>, c: Commit)
    requires Path(cfg, h) && Enabled(cfg, h[|h| - 1], c)
    ensures Path(cfg, h + [Apply(cfg, h[|h| - 1], c)])
  {
    PathExtends(cfg, h, Apply(cfg, h[|h| - 1], c));
  }

  method Create(cfg: Config, db: AgentDatabase) returns (o: Outcome, created: bool)
    requires Sound(cfg, db)
    modifies db
    ensures Sound(cfg, db) && Onward(db, o) && !o.Raised?
    ensures |db.history| == |old(db.history)| + if o.Ok? then 1 else 0
    ensures o.Ok? ==> db.State() == if created then Created(old(db.State())) else old(db.State())
    ensures o.Killed? ==> db.State() == old(db.State())
    ensures created <==> o.Ok? && old(db.row.status.NoRow?)
  {
    hide Path, Enabled, Next;
    ghost var d, h := db.State(), db.history;
    o, created := db.CreateRun();
    if o.Ok? {
      if created { CreateEnabled(cfg, d); CommitExtends(cfg, h, Commit.Create); } else { StayExtends(cfg, h); }
    }
  }

  lemma CreateEnabled(cfg: Config, d: Durable)
    requires d.row.status.NoRow?
    ensures Enabled(cfg, d, Commit.Create) && Apply(cfg, d, Commit.Create) == Created(d)
  {
  }

  lemma StayExtends(cfg: Config, h: seq<Durable>)
    requires Path(cfg, h)
    ensures Path(cfg, h + [h[|h| - 1]])
  {
    PathExtends(cfg, h, h[|h| - 1]);
  }

  // An event may be appended when the protocol lets it follow, or when it is
  // there already and is ignored.
  method Append(cfg: Config, db: AgentDatabase, e: Event) returns (o: Outcome, inserted: bool)
    requires Sound(cfg, db)
    requires MayLog(cfg, db.State(), e) || (EventKeyOf(e) != NoKey && Logged(db.log, EventKeyOf(e)))
    modifies db
    ensures Sound(cfg, db) && Onward(db, o) && !o.Raised?
    ensures |db.history| == |old(db.history)| + if o.Ok? then 1 else 0
    ensures o.Ok? ==> db.State() == Logging(old(db.State()), e)
    ensures o.Killed? ==> db.State() == old(db.State())
    ensures inserted <==> o.Ok? && db.log != old(db.log)
  {
    hide Path, Enabled, Next, Logged, MayLog, EventKeyOf;
    ghost var d, h := db.State(), db.history;
    o, inserted := db.AppendEvent(e);
    if o.Ok? {
      if MayLog(cfg, d, e) { LogExtends(cfg, h, e); } else { StayExtends(cfg, h); }
    }
  }

  lemma LogExtends(cfg: Config, h: seq<Durable>, e: Event)
    requires Path(cfg, h) && MayLog(cfg, h[|h| - 1], e)
    ensures Path(cfg, h + [Logging(h[|h| - 1], e)])
  {
    hide MayLog, Path;
    CommitExtends(cfg, h, Log(e));
  }

  // A change of the row alone: to a next turn, to a recovered batch, or past
  // an executed one.
  method Update(cfg: Config, db: AgentDatabase, status: Status, step: nat, pending: Option<seq<Call>>, ghost c: Commit)
    returns (o: Outcome)
    requires Sound(cfg, db)
    requires c == Begin || c == Recover || c == EndBatch
    requires Enabled(cfg, db.State(), c)
    requires Apply(cfg, db.State(), c)
      == db.State().(row := Row(status, step, if pending.Some? then pending.value else db.row.pending))
    modifies db
    ensures Sound(cfg, db) && Onward(db, o) && !o.Raised?
    ensures |db.history| == |old(db.history)| + if o.Ok? then 1 else 0
    ensures db.log == old(db.log) && db.execs == old(db.execs) && db.emails == old(db.emails)
    ensures o.Ok? ==> db.row == Row(status, step, if pending.Some? then pending.value else old(db.row.pending))
    ensures o.Killed? ==> db.State() == old(db.State())
  {
    hide Path, Enabled, Next, Apply;
    ghost var h := db.history;
    o := db.UpdateRun(status, step, pending);
    if o.Ok? { CommitExtends(cfg, h, c); }
  }

  method ParseBatch(cfg: Config, db: AgentDatabase, calls: seq<Call>) returns (o: Outcome)
    requires Sound(cfg, db) && CanParse(cfg, db.State())
    requires calls == Latest(db.log, KResponse, db.row.step).value.response.calls
    modifies db
    ensures Sound(cfg, db) && Onward(db, o) && !o.Raised?
    ensures |db.history| == |old(db.history)| + if o.Ok? then 1 else 0
    ensures o.Ok? ==> db.State() == Parsing(old(db.State()))
    ensures o.Killed? ==> db.State() == old(db.State())
  {
    hide Path, Next, Latest, Insert;
    ghost var h := db.history;
    o := db.UpdateRunAndAppendEvent(RunningTools, db.row.step, calls, Parsed(db.row.step, calls));
    if o.Ok? { CommitExtends(cfg, h, Parse); }
  }

  method Record(cfg: Config, db: AgentDatabase, call: Call, exec: Exec) returns (o: Outcome)
    requires Sound(cfg, db) && CanRecord(cfg, db.State(), call, exec)
    modifies db
    ensures Sound(cfg, db) && Onward(db, o) && !o.Raised?
    ensures |db.history| == |old(db.history)| + if o.Ok? then 1 else 0
    ensures db.log == old(db.log) && db.row == old(db.row) && db.emails == old(db.emails)
    ensures o.Ok? ==> db.execs == old(db.execs)[KeyOf(call) := exec]
    ensures o.Killed? ==> db.State() == old(db.State())
  {
    hide Path, CanRecord, Next;
    ghost var h := db.history;
    o := db.RecordToolExecution(KeyOf(call), exec);
    if o.Ok? { CommitExtends(cfg, h, Commit.Record(call, exec)); }
  }

  method Send(cfg: Config, db: AgentDatabase, call: Call) returns (o: Outcome)
    requires Sound(cfg, db) && CanSend(cfg, db.State(), call)
    modifies db
    ensures Sound(cfg, db) && Onward(db, o) && !o.Raised?
    ensures |db.history| == |old(db.history)| + if o.Ok? then 1 else 0
    ensures db.log == old(db.log) && db.row == old(db.row)
    ensures o.Ok? ==> db.State() == Mailed(old(db.State()), call)
    ensures o.Killed? ==> db.State() == old(db.State())
  {
    hide Path, Next;
    ghost var h := db.history;
    o := db.SendEmailToolOnce(call);
    if o.Ok? { CommitExtends(cfg, h, Commit.Send(call)); }
  }

  method Finish(cfg: Config, db: AgentDatabase, reason: Reason, step: nat) returns (o: Outcome)
    requires Sound(cfg, db) && CanFinish(cfg, db.State(), reason) && step == db.row.step
    modifies db
    ensures Sound(cfg, db) && Onward(db, o) && !o.Raised?
    ensures |db.history| == |old(db.history)| + if o.Ok? then 1 else 0
    ensures o.Ok? ==> db.State() == Finishing(old(db.State()), reason)
    ensures o.Killed? ==> db.State() == old(db.State())
  {
    hide Path, CanFinish, Next, Insert;
    ghost var h := db.history;
    o := db.FinishRun(reason, step);
    if o.Ok? { CommitExtends(cfg, h, Commit.Finish(reason)); }
  }
}
