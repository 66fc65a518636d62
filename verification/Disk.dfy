/** The file system as the managed-app installer sees it: paths to files, with atomic renames. */
module Disk {

  /** A managed target, or a file that a transaction keeps beside one. */
  datatype Path =
    | Target(component: string)
    | Manifest
    | Stage(of: Path, n: nat)
    | Backup(of: Path, pid: nat)
    | Quarantine(component: string, at: nat)
    | Elsewhere(name: string)

  /** A manifest's text stands for the document it parses to; a blob does not parse as one. */
  datatype Content = Blob(data: seq<bv8>) | ManifestText(doc: Doc)

  /** SHA-256, taken as injective. */
  datatype Digest = Sha256(of: Content)

  datatype Record = Record(path: Path, digest: Digest, mode: nat, source: string)

  /** header: the schema and platform fields hold their fixed values. */
  datatype Doc = Doc(header: bool, version: string, architecture: string, archive: string,
                     components: map<string, Record>, partial: bool)

  /** regular: not a link or directory, and within the size limit; sole: owned by this user, one link. */
  datatype File = File(content: Content, mode: nat, regular: bool, sole: bool)

  type Files = map<Path, File>

  /** Every step either happens, raises without effect, or never returns because the process died. */
  datatype Fate = Done | Raised | Killed

  class Volume {
    var files: Files

    /** How many operations have raised, or died under the process, so far. */
    ghost var failures: nat

    /** Whatever is to be moved has to be there. */
    method Replace(src: Path, dst: Path) returns (o: Fate)
      modifies this
      ensures o.Done? ==> src in old(files) && files == (old(files) - {src})[dst := old(files)[src]]
      ensures !o.Done? ==> files == old(files)
      ensures src !in old(files) ==> o.Raised? && failures == old(failures)
      ensures src in old(files) ==> failures == old(failures) + if o.Done? then 0 else 1
    {
      if src !in files {
        return Raised;
      }
      o := Attempt();
      if o.Done? {
        files := (files - {src})[dst := files[src]];
      }
    }

    method Unlink(path: Path) returns (o: Fate)
      modifies this
      ensures files == if o.Done? then old(files) - {path} else old(files)
      ensures failures == old(failures) + if o.Done? then 0 else 1
    {
      o := Attempt();
      if o.Done? {
        files := files - {path};
      }
    }

    /** Whether an operation comes through is not up to the program. */
    method Attempt() returns (o: Fate)
      modifies this`failures
      ensures failures == old(failures) + if o.Done? then 0 else 1
    {
      o := *;
      if !o.Done? {
        failures := failures + 1;
      }
    }

    /** An operation that a fault makes raise, if the process does not die in it. */
    method Fail() returns (o: Fate)
      modifies this`failures
      ensures !o.Done? && failures == old(failures) + 1
    {
      var dies: bool := *;
      failures := failures + 1;
      return if dies then Killed else Raised;
    }

    /** A rename of the undo path: the stated assumption is that it does not raise. */
    method ReplaceBack(src: Path, dst: Path) returns (o: Fate)
      requires src in files
      modifies this
      ensures !o.Raised?
      ensures files == if o.Done? then (old(files) - {src})[dst := old(files)[src]] else old(files)
      ensures failures == old(failures) + if o.Done? then 0 else 1
    {
      var dies: bool := *;
      if dies {
        failures := failures + 1;
        return Killed;
      }
      files := (files - {src})[dst := files[src]];
      return Done;
    }

    /** A removal of the undo path, or of the clean-up after the commit. */
    method Remove(path: Path) returns (o: Fate)
      modifies this
      ensures !o.Raised?
      ensures files == if o.Done? then old(files) - {path} else old(files)
      ensures failures == old(failures) + if o.Done? then 0 else 1
    {
      var dies: bool := *;
      if dies {
        failures := failures + 1;
        return Killed;
      }
      files := files - {path};
      return Done;
    }

    /** A flush to disk changes nothing that is modelled. */
    method Fsync() returns (o: Fate)
      modifies this`failures
      ensures failures == old(failures) + if o.Done? then 0 else 1
    {
      o := Attempt();
    }

    /** mkstemp under a new name, chmod, write, fsync; an exception removes the file again, and a
        kill leaves it empty or cut short or complete. */
    method StageFile(target: Path, content: Content, mode: nat) returns (o: Fate, n: nat)
      modifies this
      ensures Stage(target, n) !in old(files)
      ensures o.Done? ==> files == old(files)[Stage(target, n) := File(content, mode, true, true)]
      ensures o.Raised? ==> files == old(files)
      ensures o.Killed? ==> files == old(files)
                            || exists file: File :: (file.content.Blob? || file == File(content, mode, true, true))
                                              && files == old(files)[Stage(target, n) := file]
      ensures failures == old(failures) + if o.Done? then 0 else 1
    {
      n := FreshStage(files, target);
      o := Attempt();
      match o {
        case Done => files := files[Stage(target, n) := File(content, mode, true, true)];
        case Raised =>
        case Killed =>
          var data: seq<bv8>, cutMode: nat, whole: bool, created: bool := *, *, *, *;
          if whole {
            files := files[Stage(target, n) := File(content, mode, true, true)];
          } else if created {
            files := files[Stage(target, n) := File(Blob(data), cutMode, true, true)];
          }
      }
    }
  }

  function StageNumbers(files: Files, target: Path): set<nat> {
    set p | p in files && p.Stage? && p.of == target :: p.n
  }

  method FreshStage(files: Files, target: Path) returns (n: nat)
    ensures Stage(target, n) !in files
  {
    var taken := StageNumbers(files, target);
    var rest := taken;
    n := 0;
    while rest != {}
      invariant forall x | x in taken && x !in rest :: x < n
      decreases rest
    {
      var x :| x in rest;
      rest := rest - {x};
      if n <= x {
        n := x + 1;
      }
    }
    assert n !in taken;
  }
}
