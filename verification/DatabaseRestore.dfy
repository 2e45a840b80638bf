/** Restoring a verified backup over a database: where the previous content is at every
    moment. */
module DatabaseRestore {
  import opened Wrappers

  /** File contents are numbers; `join` is what SQLite reads from a main file and its
      write-ahead log. */
  datatype Sqlite = Sqlite(join: (int, Option<int>) -> int)

  /** Checkpointing a log into the main file does not change what is read. */
  ghost predicate Faithful(sql: Sqlite) { forall m, w :: sql.join(sql.join(m, w), None) == sql.join(m, w) }

  datatype Files = Files(target: Option<int>, wal: Option<int>, temp: Option<int>, rollback: Option<int>,
                         preRestore: set<int>, quarantine: set<int>)

  /** How the target answers the checks before it is replaced. */
  datatype Health = Healthy | Unready | Corrupt

  /** How quarantining one file goes: renamed, copied because it is held open, or neither. */
  datatype Move = Renamed | Copied | Failed

  /** How the final replacement goes. */
  datatype Swap = Direct | Refused | ViaRollback | RolledBack | Stranded | InPlace

  datatype World = World(replace: bool, confirmed: bool, mayQuarantine: bool, space: bool, health: Health,
                         checkpointed: bool, main: Move, log: Move, copyVerifies: bool, swap: Swap)

  /** The old content is kept where a restore does not touch it: in a pre-restore backup, or
      in quarantine, as one file or as main file and log. */
  ghost predicate Secured(sql: Sqlite, f: Files, m: int, w: Option<int>) {
    || sql.join(m, w) in f.preRestore || sql.join(m, w) in f.quarantine
    || (m in f.quarantine && (w.None? || w.value in f.quarantine))
  }

  /** The files are as found, or the log has been checkpointed into the main file. */
  ghost predicate AsFound(sql: Sqlite, f: Files, m: int, w: Option<int>) {
    (f.target == Some(m) && f.wal == w) || (f.target == Some(sql.join(m, w)) && f.wal.None?)
  }

  /** The content read before the restore can still be had: from the target, the rollback
      name, the pre-restore backups, or file by file from target, log and quarantine. */
  ghost predicate Recoverable(sql: Sqlite, f: Files, m: int, w: Option<int>) {
    || (f.target.Some? && sql.join(f.target.value, f.wal) == sql.join(m, w))
    || f.rollback == Some(sql.join(m, w))
    || Secured(sql, f, m, w)
    || ((f.target == Some(m) || m in f.quarantine) && (w.None? || f.wal == w || w.value in f.quarantine))
  }

  /** Any way round a refused rename needs the rollback name to be free. */
  predicate Succeeds(swap: Swap, f: Files) {
    swap.Direct? || (f.rollback.None? && (swap.ViaRollback? || swap.InPlace?))
  }

  class Volume {
    const sql: Sqlite
    var files: Files
    ghost var trail: seq<Files>

    constructor (sql: Sqlite, files: Files)
      ensures this.sql == sql && this.files == files && trail == [files]
    {
      this.sql, this.files, trail := sql, files, [files];
    }

    method Do(next: Files)
      modifies this
      ensures files == next && trail == old(trail) + [next]
    {
      files, trail := next, trail + [next];
    }

    /** Puts the temporary file in place of the target.  Until the new content is in place,
        the old one is under its own name or the rollback name. */
    method ReplaceDatabaseFile(swap: Swap) returns (ok: bool)
      requires files.temp.Some? && files.target.Some?
      modifies this
      ensures old(trail) <= trail
      ensures ok <==> Succeeds(swap, old(files))
      ensures ok ==> files == old(files).(target := old(files).temp, temp := None)
      ensures !ok ==> files == if swap.Stranded? && old(files).rollback.None?
        then old(files).(rollback := old(files).target, target := None) else old(files)
      ensures forall i :: |old(trail)| <= i < |trail| ==>
        && trail[i].preRestore == old(files).preRestore && trail[i].quarantine == old(files).quarantine
             && trail[i].wal == old(files).wal
        && (trail[i].target == old(files).target || trail[i].rollback == old(files).target
             || trail[i].target == old(files).temp)
    {
      if !swap.Direct? && files.rollback.Some? { return false; }
      match swap {
        case Direct => Do(files.(target := files.temp, temp := None)); ok := true;
        case Refused => ok := false;
        case InPlace =>
          Do(files.(target := files.temp));
          Do(files.(temp := None));
          ok := true;
        case ViaRollback =>
          Do(files.(rollback := files.target, target := None));
          Do(files.(target := files.temp, temp := None));
          Do(files.(rollback := None));
          ok := true;
        case RolledBack =>
          Do(files.(rollback := files.target, target := None));
          Do(files.(target := files.rollback, rollback := None));
          ok := false;
        case Stranded =>
          Do(files.(rollback := files.target, target := None));
          ok := false;
      }
    }

    /** The previous content can be recovered now, and could at every moment since `from`. */
    ghost predicate Safe(m: int, w: Option<int>, from: nat)
      reads this
    {
      from <= |trail| && Recoverable(sql, files, m, w) && forall i :: from <= i < |trail| ==>
        Recoverable(sql, trail[i], m, w)
    }

    /** Checks, checkpoints and backs the target up before it is touched.  A target that fails
        may have been checkpointed by then. */
    method BackUpTarget(health: Health, checkpointed: bool, ghost m: int, ghost w: Option<int>, ghost from: nat)
        returns (ok: bool)
      requires Faithful(sql) && files.target == Some(m) && files.wal == w && Safe(m, w, from)
      modifies this
      ensures Safe(m, w, from) && old(trail) <= trail
      ensures ok <==> health.Healthy?
      ensures AsFound(sql, files, m, w)
        && (ok || checkpointed ==> files.target == Some(sql.join(m, w)) && files.wal.None?)
      ensures files == old(files).(target := files.target, wal := files.wal, preRestore := files.preRestore)
      ensures files.preRestore == if ok then old(files).preRestore + {sql.join(m, w)} else old(files).preRestore
    {
      ok := health.Healthy?;
      assert sql.join(sql.join(m, w), None) == sql.join(m, w);
      if !ok && !checkpointed { return; }
      Do(files.(target := Some(sql.join(files.target.value, files.wal)), wal := None));
      if !ok { return; }
      Do(files.(preRestore := files.preRestore + {files.target.value}));
    }

    /** Moves a corrupt target and its log aside, or copies what cannot be moved. */
    method Quarantine(main: Move, log: Move, ghost m: int, ghost w: Option<int>, ghost from: nat)
        returns (ok: bool, overwrite: bool)
      requires AsFound(sql, files, m, w) && Safe(m, w, from)
      modifies this
      ensures Safe(m, w, from) && old(trail) <= trail
      ensures files.temp == old(files).temp && files.rollback == old(files).rollback
        && files.preRestore == old(files).preRestore
      ensures ok ==> Secured(sql, files, m, w)
      ensures ok ==> (overwrite <==> files.target.Some?)
    {
      overwrite := false;
      match main {
        case Renamed => Do(files.(quarantine := files.quarantine + {files.target.value}, target := None));
        case Copied =>
          Do(files.(quarantine := files.quarantine + {files.target.value}));
          overwrite := true;
        case Failed => return false, false;
      }
      if files.wal.Some? {
        match log {
          case Renamed => Do(files.(quarantine := files.quarantine + {files.wal.value}, wal := None));
          case Copied => Do(files.(quarantine := files.quarantine + {files.wal.value}));
          case Failed => return false, overwrite;
        }
      }
      ok := true;
    }

    /** Installs the verified copy once the old content is secured elsewhere. */
    method Install(backup: int, overwrite: bool, swap: Swap, ghost m: int, ghost w: Option<int>, ghost from: nat)
        returns (ok: bool)
      requires files.temp.Some? && files.temp.value == backup && Safe(m, w, from)
      requires Secured(sql, files, m, w)
      modifies this
      ensures Safe(m, w, from) && old(trail) <= trail
      ensures ok ==> files.target == Some(backup) && files.wal.None?
      ensures overwrite || old(files).target.None? || Succeeds(swap, old(files)) ==> ok
    {
      if overwrite {
        // Truncated first, then filled.
        Do(files.(target := None));
        Do(files.(target := files.temp, temp := None));
      } else if files.target.None? {
        Do(files.(target := files.temp, temp := None));
      } else {
        ok := ReplaceDatabaseFile(swap);
        if !ok { return; }
      }
      Do(files.(wal := None));
      ok := true;
    }

    /** Replaces the target with a verified backup.  Whatever fails, and wherever it stops,
        the content that was there before can be recovered. */
    method RestoreVerifiedBackup(backup: int, world: World) returns (ok: bool)
      requires Faithful(sql) && files.temp.None?
      modifies this
      ensures old(trail) <= trail
      ensures ok ==> files.target == Some(backup) && files.wal.None?
      ensures old(files).target.Some? && (!world.replace || !world.confirmed) ==> !ok && files == old(files)
      ensures old(files).target.Some? ==> Safe(old(files).target.value, old(files).wal, |old(trail)|)
    {
      if files.target.Some? && !(world.replace && world.confirmed) { return false; }
      if !world.space { return false; }
      if files.target.None? {
        Do(files.(temp := Some(backup)));
        if !world.copyVerifies { Do(files.(temp := None)); return false; }
        Do(files.(target := files.temp, temp := None));
        Do(files.(wal := None));
        return true;
      }
      ghost var m, w, from := files.target.value, files.wal, |trail|;
      ok := BackUpTarget(world.health, world.checkpointed, m, w, from);
      var overwrite := false;
      if !ok {
        if !world.mayQuarantine || !world.health.Corrupt? { return false; }
        ok, overwrite := Quarantine(world.main, world.log, m, w, from);
        if !ok { return false; }
      }
      Do(files.(wal := None));
      Do(files.(temp := Some(backup)));
      if !world.copyVerifies { Do(files.(temp := None)); return false; }
      ok := Install(backup, overwrite, world.swap, m, w, from);
      if files.temp.Some? { Do(files.(temp := None)); }
    }
  }
}
