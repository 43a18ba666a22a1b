// The tool executor: an execution row is the guard against running a call's
// body again, and every body that runs leaves its outcome in such a row.
module Executor {
  import opened Events
  import opened Protocol
  import opened Invariant
  import opened Database
  import opened Guard
  import opened Workspace

  // The store is inside the batch of a step: all its calls are announced.
  ghost predicate InBatch(cfg: Config, db: AgentDatabase, step: nat, calls: seq<Call>)
    reads db
  {
    Sound(cfg, db) && Executing(cfg, db.State()) && db.row.step == step && db.row.pending == calls
    && AllStarted(db.log, step, calls)
  }

  // What a row means for a call.
  function ResultOf(call: Call, exec: Exec): ToolResult {
    ToolResult(call.id, call.tool, ExecOk(exec), exec.body, exec.error, KeyOf(call))
  }

  // Something can be written: there is content and a place for it.
  predicate Writable(resolve: string -> Option<Place>, call: Call, disk: Disk) {
    var target := Resolve(resolve, call.args.path);
    target.Some? && call.args.content.Text? && target.value !in disk.folders
  }

  // A write that succeeded put its content at its target and nothing else; one
  // that failed changed nothing, or, if its error is a fault of the host,
  // anything at its own target.
  ghost predicate WriteEffect(
    resolve: string -> Option<Place>, call: Call, ok: bool, error: string, disk: Disk, disk': Disk) {
    var target := Resolve(resolve, call.args.path);
    if ok then Writable(resolve, call, disk) && disk' == disk.(files := disk.files[target.value := call.args.content.text])
    else disk' == disk || (error == HOST_FAULT && Writable(resolve, call, disk) && Spoiled(disk, disk', target.value))
  }

  // What a tool body can come to: a result, or an exception with its text.  An
  // unknown tool only raises.
  predicate Reply(tool: Tool, exec: Exec) {
    if exec.error == "" then exec.status == ExecCompleted && !tool.Unknown? else exec.status == ExecFailed
  }

  lemma RecordAllowed(cfg: Config, d: Durable, call: Call, exec: Exec)
    requires Executing(cfg, d) && call in d.row.pending && AllStarted(d.log, d.row.step, d.row.pending)
    requires call.tool == SendEmail ==> KeyOf(call) !in d.execs && exec.status != ExecCompleted
    ensures CanRecord(cfg, d, call, exec)
  {
  }

  // An email without an execution row is not sent yet.
  lemma NotYetSent(cfg: Config, d: Durable, call: Call)
    requires Inv(cfg, d) && Live(d.row) && KeyOf(call) !in d.execs
    ensures KeyOf(call) !in d.emails
  {
    hide LogOk, StepsClosed, RowOk, CostOk, Requested;
  }

  class ToolExecutor {
    const config: Config
    const db: AgentDatabase
    const workspace: HostWorkspace

    constructor (config: Config, db: AgentDatabase, workspace: HostWorkspace)
      ensures this.config == config && this.db == db && this.workspace == workspace
    {
      this.config, this.db, this.workspace := config, db, workspace;
    }

    // A call whose key has a row is answered from it; any other runs, once,
    // and is answered from the row it leaves.
    method Execute(call: Call, ghost step: nat, ghost calls: seq<Call>) returns (o: Outcome, result: ToolResult)
      requires InBatch(config, db, step, calls) && call in calls
      requires call.tool == SendEmail ==> !Tainted(db.log) && OthersSucceeded(db.execs, calls)
      modifies db, workspace
      ensures InBatch(config, db, step, calls) && Onward(db, o) && !o.Raised? && db.log == old(db.log)
      ensures |db.history| <= |old(db.history)| + 1
      ensures o.Ok? ==> KeyOf(call) in db.execs && result == ResultOf(call, db.execs[KeyOf(call)])
      ensures o.Ok? ==> result.id == call.id && result.tool == call.tool && result.key == KeyOf(call)
      ensures o.Ok? ==> var row := db.execs[KeyOf(call)];
        result.body == row.body && result.error == row.error && (result.ok <==> row.status == ExecCompleted && row.error == "")
      ensures o.Ok? ==> db.execs == old(db.execs)[KeyOf(call) := db.execs[KeyOf(call)]]
      ensures o.Ok? && KeyOf(call) in old(db.execs) ==> db.execs == old(db.execs)
      ensures call.tool == SendEmail || KeyOf(call) in old(db.execs) ==>
        workspace.State() == old(workspace.State())
      ensures o.Ok? && call.tool == WriteFile && KeyOf(call) !in old(db.execs) && !result.ok ==> IsWriteError(result.error)
      ensures o.Ok? && call.tool == WriteFile && KeyOf(call) !in old(db.execs) && result.ok ==>
        call.args.path.Text? && result.body == "wrote " + call.args.path.text
      ensures o.Ok? && call.tool == SendEmail && KeyOf(call) !in old(db.execs) ==> (result.ok <==> Mailable(call.args))
      ensures o.Ok? && call.tool == WriteFile && KeyOf(call) !in old(db.execs) ==>
        WriteEffect(workspace.resolve, call, result.ok, result.error, old(workspace.State()), workspace.State())
    {
      hide Path, NoProgress, AllStarted, OthersSucceeded, Tainted, Mailable;
      result := ResultOf(call, Exec(ExecFailed, "", "killed"));
      var existing := db.GetToolExecution(KeyOf(call));
      if existing.Some? {
        return Ok, ResultOf(call, existing.value);
      }
      if call.tool == SendEmail {
        o, result := ExecuteSendEmailOnce(call, step, calls);
        return;
      }
      var exec := ExecuteOnce(call);
      RecordAllowed(config, db.State(), call, exec);
      :- Guard.Record(config, db, call, exec);
      return Ok, ResultOf(call, exec);
    }

    // The body of a tool that is no email.
    method ExecuteOnce(call: Call) returns (exec: Exec)
      requires call.tool != SendEmail
      modifies workspace
      ensures Reply(call.tool, exec)
      ensures call.tool == WriteFile && exec.error != "" ==> IsWriteError(exec.error)
      ensures call.tool == WriteFile && exec.error == "" ==> call.args.path.Text? && exec.body == "wrote " + call.args.path.text
      ensures call.tool == WriteFile ==>
        WriteEffect(workspace.resolve, call, ExecOk(exec), exec.error, old(workspace.State()), workspace.State())
    {
      if call.tool == WriteFile {
        var error := workspace.WriteText(call.args.path, call.args.content);
        exec := if error == "" then Exec(ExecCompleted, "wrote " + call.args.path.text, "") else Exec(ExecFailed, "", error);
        return;
      }
      if call.tool.Unknown? {
        return Exec(ExecFailed, "", "ToolArgumentError");
      }
      workspace.RunHostTool(call.tool);
      var body: string, error: string := *, *;
      exec := if error == "" then Exec(ExecCompleted, body, "") else Exec(ExecFailed, "", error);
    }

    // Malformed emails fail before anything is sent; any other is queued and
    // recorded in one transaction.
    method ExecuteSendEmailOnce(call: Call, ghost step: nat, ghost calls: seq<Call>) returns (o: Outcome, result: ToolResult)
      requires InBatch(config, db, step, calls) && call in calls && call.tool == SendEmail
      requires KeyOf(call) !in db.execs && !Tainted(db.log) && OthersSucceeded(db.execs, calls)
      modifies db
      ensures InBatch(config, db, step, calls) && Onward(db, o) && !o.Raised? && db.log == old(db.log)
      ensures |db.history| <= |old(db.history)| + 1
      ensures o.Ok? ==> KeyOf(call) in db.execs && result == ResultOf(call, db.execs[KeyOf(call)])
      ensures o.Ok? ==> result.id == call.id && result.tool == call.tool && result.key == KeyOf(call)
      ensures o.Ok? ==> var row := db.execs[KeyOf(call)];
        result.body == row.body && result.error == row.error && (result.ok <==> row.status == ExecCompleted && row.error == "")
      ensures o.Ok? ==> db.execs == old(db.execs)[KeyOf(call) := db.execs[KeyOf(call)]]
      ensures o.Ok? ==> (result.ok <==> Mailable(call.args))
      ensures o.Ok? ==> (result.ok <==> call.args.to.Text? && call.args.subject.Text? && call.args.body.Text?)
      ensures o.Ok? && result.ok ==> result.body == "queued" && KeyOf(call) in db.emails
      ensures o.Ok? && result.ok ==> var sent := db.emails[KeyOf(call)];
        sent.to == call.args.to.text && sent.subject == call.args.subject.text && sent.body == call.args.body.text
      ensures o.Ok? && !result.ok ==> db.emails == old(db.emails)
    {
      hide Path, Inv, NoProgress, AllStarted, OthersSucceeded, Tainted;
      result := ResultOf(call, Exec(ExecFailed, "", "killed"));
      if !Mailable(call.args) {
        var exec := Exec(ExecFailed, "", "ToolArgumentError");
        RecordAllowed(config, db.State(), call, exec);
        :- Guard.Record(config, db, call, exec);
        return Ok, ResultOf(call, exec);
      }
      SoundInv(config, db);
      NotYetSent(config, db.State(), call);
      :- Guard.Send(config, db, call);
      return Ok, ResultOf(call, Exec(ExecCompleted, "queued", ""));
    }
  }
}
