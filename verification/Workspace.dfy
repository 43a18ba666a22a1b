// The workspace files the tools work on, and the undo log that takes a failed
// batch of writes back.
module Workspace {
  import opened Events

  // A place in the host's file system, after resolution.
  datatype Place = Place(name: string)

  type Files = map<Place, string>

  // What a write found at its target.
  datatype Preimage = Preimage(index: nat, path: Place, content: Option<string>)

  datatype Write = Write(index: nat, path: Place, content: string)

  function ContentAt(files: Files, p: Place): Option<string> { if p in files then Some(files[p]) else None }

  function Restored(files: Files, p: Place, content: Option<string>): Files {
    if content.Some? then files[p := content.value] else files - {p}
  }

  // Restoring from the last preimage to the first.
  function Undo(files: Files, preimages: seq<Preimage>): Files
    decreases |preimages|
  {
    if preimages == [] then files
    else
      var last := preimages[|preimages| - 1];
      Undo(Restored(files, last.path, last.content), preimages[..|preimages| - 1])
  }

  function Applied(files: Files, writes: seq<Write>): Files {
    if writes == [] then files
    else
      var last := writes[|writes| - 1];
      Applied(files, writes[..|writes| - 1])[last.path := last.content]
  }

  function Resolve(resolve: string -> Option<Place>, path: Value): Option<Place> {
    if path.Text? then resolve(path.text) else None
  }

  // The exceptions a write can end with.
  predicate IsWriteError(error: string) {
    error == "ToolArgumentError" || error == "ToolError" || error == "IsADirectoryError" || error == HOST_FAULT
  }

  // The one exception of a write that comes from the host.
  const HOST_FAULT := "OSError"

  // The same content everywhere but on some paths.
  ghost predicate Agree(f: Files, g: Files, except: set<Place>) {
    forall p :: p !in except ==> ContentAt(f, p) == ContentAt(g, p)
  }

  // A write on top of others is undone by its own preimage first, whatever
  // paths they share.
  lemma UndoWrite(files: Files, preimages: seq<Preimage>, index: nat, p: Place, content: string)
    ensures Undo(files[p := content], preimages + [Preimage(index, p, ContentAt(files, p))]) == Undo(files, preimages)
  {
    var pre := preimages + [Preimage(index, p, ContentAt(files, p))];
    assert pre[..|pre| - 1] == preimages;
    assert Restored(files[p := content], p, ContentAt(files, p)) == files;
  }

  lemma {:induction false} UndoAgrees(f: Files, g: Files, preimages: seq<Preimage>, except: set<Place>)
    requires Agree(f, g, except)
    ensures Agree(Undo(f, preimages), Undo(g, preimages), except)
    decreases |preimages|
  {
    if preimages != [] {
      var last := preimages[|preimages| - 1];
      UndoAgrees(
        Restored(f, last.path, last.content), Restored(g, last.path, last.content), preimages[..|preimages| - 1], except);
    }
  }

  lemma AgreeTrans(f: Files, g: Files, h: Files, e1: set<Place>, e2: set<Place>, e: set<Place>)
    requires Agree(f, g, e1) && Agree(g, h, e2) && e1 + e2 <= e
    ensures Agree(f, h, e)
  {
  }

  // A restore that fails spoils no more than its own path, however many are
  // still to come.
  lemma FaultAgrees(f: Files, g: Files, p: Place, content: Option<string>, preimages: seq<Preimage>)
    requires Agree(g, f, {p})
    ensures Agree(Undo(g, preimages), Undo(Restored(f, p, content), preimages), {p})
  {
    UndoAgrees(g, Restored(f, p, content), preimages, {p});
  }

  lemma AgreeEverywhere(f: Files, g: Files)
    requires Agree(f, g, {})
    ensures f == g
  {
    forall p ensures p in f <==> p in g { assert ContentAt(f, p) == ContentAt(g, p); }
    forall p | p in f ensures f[p] == g[p] { assert ContentAt(f, p) == ContentAt(g, p); }
  }

  // Everything about the host's files at one moment; the damaged places are
  // those a host fault may have left in disorder: a write that failed half
  // way, or a restore that failed.
  datatype Disk = Disk(files: Files, folders: set<Place>, damaged: set<Place>)

  // A host fault left anything at one place and nothing else anywhere.
  ghost predicate Spoiled(before: Disk, after: Disk, p: Place) {
    after.folders == before.folders && after.damaged == before.damaged + {p} && Agree(after.files, before.files, {p})
  }

  class HostWorkspace {
    // How a path given by the model resolves: to a place under the root, or
    // to none.  Different paths may share a place.
    const resolve: string -> Option<Place>
    var files: Files
    var folders: set<Place>
    ghost var damaged: set<Place>

    ghost function State(): Disk
      reads this
    {
      Disk(files, folders, damaged)
    }

    constructor (resolve: string -> Option<Place>, files: Files, folders: set<Place>)
      ensures this.resolve == resolve && this.files == files && this.folders == folders && damaged == {}
    {
      this.resolve, this.files, this.folders, damaged := resolve, files, folders, {};
    }

    // The place a write would go to.
    function Target(path: Value): (r: Option<Place>) {
      Resolve(resolve, path)
    }

    ghost predicate Torn(before: Disk, after: Disk, path: Value) {
      Target(path).Some? && Spoiled(before, after, Target(path).value)
    }

    // Writes the content, or fails: without a trace, which is the only way if
    // there is nothing to write or no place for it, or through a host fault
    // that may leave anything at the target, and nothing else anywhere.
    method WriteText(path: Value, content: Value) returns (error: string)
      modifies this
      ensures error == "" ==>
        && Target(path).Some? && content.Text? && Target(path).value !in folders
        && State() == old(State()).(files := old(files)[Target(path).value := content.text])
      ensures error != "" ==> IsWriteError(error)
      ensures error != "" ==> State() == old(State()) || (error == HOST_FAULT && Torn(old(State()), State(), path))
      ensures !content.Text? || Target(path).None? || Target(path).value in folders ==> error != "" && State() == old(State())
    {
      if !content.Text? {
        return "ToolArgumentError";
      }
      if !path.Text? {
        return "ToolArgumentError";
      }
      var target := resolve(path.text);
      if target.None? {
        return "ToolError";
      }
      if target.value in folders {
        return "IsADirectoryError";
      }
      var refused: bool, torn: bool := *, *;
      if refused {
        return HOST_FAULT;
      }
      if torn {
        var rest: Option<string> := *;
        files := Restored(files, target.value, rest);
        damaged := damaged + {target.value};
        return HOST_FAULT;
      }
      files := files[target.value := content.text];
      error := "";
    }

    // What is at the target of a write, unless nothing could be restored there.
    method CaptureWritePreimage(index: nat, path: Value) returns (r: Option<Preimage>)
      ensures r == if Target(path).None? || Target(path).value in folders then None
                   else Some(Preimage(index, Target(path).value, ContentAt(files, Target(path).value)))
    {
      if !path.Text? {
        return None;
      }
      var target := resolve(path.text);
      if target.None? {
        return None;
      }
      if target.value !in folders && target.value !in files {
        return Some(Preimage(index, target.value, None));
      }
      if target.value in folders {
        return None;
      }
      r := Some(Preimage(index, target.value, Some(files[target.value])));
    }

    // Puts the preimage back, unless the host fails.
    method Restore(path: Place, content: Option<string>) returns (ok: bool)
      modifies this
      ensures folders == old(folders)
      ensures if ok then files == Restored(old(files), path, content) && damaged == old(damaged)
        else damaged == old(damaged) + {path} && Agree(files, old(files), {path})
    {
      var fault: bool := *;
      if fault {
        var rest: Option<string> := *;
        files := Restored(files, path, rest);
        damaged := damaged + {path};
        return false;
      }
      files := Restored(files, path, content);
      ok := true;
    }

    // A program may change any file; no other tool but write_file does.
    method RunHostTool(tool: Tool)
      requires tool != Tool.WriteFile
      modifies this
      ensures tool != RunPython ==> files == old(files) && folders == old(folders)
      ensures damaged == old(damaged)
    {
      if tool == RunPython {
        files := *;
        folders := *;
      }
    }
  }
}
