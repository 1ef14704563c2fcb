/** A backup run over a list of databases: execution records, files on the server, copies in S3, and what a
    failed or killed run leaves behind. */
module DatabaseBackup {

  import opened Wrappers

  /** Ids of one run share the prefix that was queued with the job. */
  datatype Uuid = Uuid(prefix: nat, id: nat)

  /** The name of a backup file holds the database, the time and the id of the execution. */
  datatype File = File(database: string, time: nat, uuid: Uuid)

  datatype Status = Running | Success | Failed

  datatype Execution = Execution(backup: nat, database: string, filename: Option<File>, status: Status, size: nat,
                                 s3Uploaded: Option<bool>, localDeleted: bool, finished: bool)

  /** How an upload goes; the helper container is removed in any case, and that can fail as well. */
  datatype Upload = Uploaded | NotUploaded | HelperStays

  /** The points at which the worker can be killed. */
  datatype Point =
    | BeforeRecord | WithRecord | WithFile | FileDropped | MarkedFailed | CopyMade | LocalGone | MarkedSuccess

  /** What happens to one database: the random ids, the failures, and the death of the worker. */
  datatype Trial = Trial(ids: seq<nat>, time: nat, supported: bool, created: bool, announced: bool,
                         written: Option<nat>, dumpOk: bool, sizeRead: bool, upload: Upload, updated: bool,
                         dies: Option<Point>)

  datatype End = Normal | Threw | Died

  // ------------------------------------------------------------- what is promised for one database

  predicate HasRecord(t: Trial) {
    t.supported && t.created
  }

  /** The dump is there and not empty. */
  predicate Succeeds(t: Trial) {
    HasRecord(t) && t.announced && t.dumpOk && t.sizeRead && t.written.Some? && t.written.value > 0
  }

  predicate DropsLocal(t: Trial, s3: bool, disableLocal: bool) {
    Succeeds(t) && s3 && disableLocal && t.upload == Uploaded
  }

  function SizeOf(t: Trial): nat {
    if HasRecord(t) && t.announced && t.dumpOk && t.sizeRead && t.written.Some? then t.written.value else 0
  }

  /** The record of a database after a run that ends normally. `s3`: uploads are on and their storage exists. */
  function Promised(t: Trial, file: File, backup: nat, s3: bool, disableLocal: bool): Execution {
    if Succeeds(t) then
      Execution(backup, file.database, Some(file), Success, SizeOf(t),
        if s3 then Some(t.upload != NotUploaded) else None, DropsLocal(t, s3, disableLocal), true)
    else
      Execution(backup, file.database, None, Failed, SizeOf(t), None, false, true)
  }

  /** The record says that the file is on the server. */
  predicate Tracks(e: Execution, file: File) {
    e.status == Success && e.filename == Some(file) && !e.localDeleted
  }

  predicate ExecutionOk(e: Execution, u: Uuid, s3: set<File>) {
    && (e.status == Success ==>
          && e.size > 0 && e.filename.Some? && e.filename.value.uuid == u
          && (e.localDeleted ==> e.s3Uploaded == Some(true))
          && (e.s3Uploaded == Some(true) ==> e.filename.value in s3))
    && (e.status == Failed ==> e.filename == None && !e.localDeleted)
    && (e.status == Running ==> e.filename.Some? && e.filename.value.uuid == u)
  }

  /** The records with the prefix, which are those of one run, and the files with it agree: a file is there
      exactly if a success record tracks it; only a record that is still running may have one or none. */
  ghost predicate Agree(records: map<Uuid, Execution>, disk: map<File, nat>, s3: set<File>, prefix: nat) {
    forall u: Uuid :: u.prefix == prefix ==> OneOk(records, disk, s3, u)
  }

  predicate OnlyRunning(records: map<Uuid, Execution>, prefix: nat, uuid: Option<Uuid>) {
    forall u :: u in records && u.prefix == prefix && records[u].status == Running ==> uuid == Some(u)
  }

  /** One execution and its files agree. */
  predicate OneOk(records: map<Uuid, Execution>, disk: map<File, nat>, s3: set<File>, u: Uuid) {
    && (u in records ==> ExecutionOk(records[u], u, s3))
    && (forall f :: f in disk && f.uuid == u ==>
          && u in records
          && (Tracks(records[u], f) || (records[u].status == Running && records[u].filename == Some(f))))
    && (u in records && records[u].status == Success && !records[u].localDeleted ==>
          && records[u].filename.Some? && records[u].filename.value in disk
          && disk[records[u].filename.value] == records[u].size)
  }

  /** Nothing but what belongs to one execution has changed. */
  predicate SameBut(u: Option<Uuid>, records: map<Uuid, Execution>, disk: map<File, nat>,
                    records': map<Uuid, Execution>, disk': map<File, nat>) {
    && (forall v :: v in records ==> v in records' && (Some(v) != u ==> records'[v] == records[v]))
    && (forall v :: v in records' && Some(v) != u ==> v in records)
    && (forall f :: f in disk && Some(f.uuid) != u ==> f in disk' && disk'[f] == disk[f])
    && (forall f :: f in disk' && Some(f.uuid) != u ==> f in disk)
  }

  /** The files of a run are those that its success records track, but for at most one execution. */
  predicate Tracked(records: map<Uuid, Execution>, disk: map<File, nat>, prefix: nat, but: Option<Uuid>) {
    && (forall u :: u in records && u.prefix == prefix && TracksSome(records[u]) ==>
          records[u].filename.value in disk && records[u].size > 0)
    && (forall f :: f in disk && f.uuid.prefix == prefix ==>
          f.uuid in records && (Tracks(records[f.uuid], f) || but == Some(f.uuid)))
  }

  /** Nothing of other runs has changed. */
  predicate OtherRunsStay(prefix: nat, records: map<Uuid, Execution>, disk: map<File, nat>,
                          records': map<Uuid, Execution>, disk': map<File, nat>) {
    && (forall u :: u in records && u.prefix != prefix ==> u in records' && records'[u] == records[u])
    && (forall u :: u in records' && u.prefix != prefix ==> u in records)
    && (forall f :: f in disk && f.uuid.prefix != prefix ==> f in disk' && disk'[f] == disk[f])
    && (forall f :: f in disk' && f.uuid.prefix != prefix ==> f in disk)
  }

  predicate TracksSome(e: Execution) {
    e.filename.Some? && Tracks(e, e.filename.value)
  }

  /** There is a file of the run that no record tracks. */
  predicate HasUntracked(records: map<Uuid, Execution>, disk: map<File, nat>, prefix: nat) {
    exists f :: f in disk && f.uuid.prefix == prefix && !(f.uuid in records && Tracks(records[f.uuid], f))
  }

  /** An execution has a file that its record does not track. */
  ghost predicate Untracked(records: map<Uuid, Execution>, disk: map<File, nat>, u: Uuid) {
    exists f :: f in disk && f.uuid == u && !(u in records && Tracks(records[u], f))
  }

  /** The worker dies when the dump wrote something, or the dump is good and is not deleted after its upload
      when the worker dies before the success update or this update fails. `saveS3`: uploads are still on. */
  predicate LeavesFile(t: Trial, saveS3: bool, s3Missing: bool, disableLocal: bool) {
    || DiesWithFile(t)
    || (Succeeds(t) && !EarlyDeath(t) && LosesReport(t, saveS3, s3Missing, disableLocal))
  }

  predicate EarlyDeath(t: Trial) {
    t.dies == Some(BeforeRecord) || t.dies == Some(WithRecord) || t.dies == Some(WithFile)
  }

  predicate DiesWithFile(t: Trial) {
    HasRecord(t) && t.announced && t.written.Some? && t.dies == Some(WithFile)
  }

  predicate LosesReport(t: Trial, saveS3: bool, s3Missing: bool, disableLocal: bool) {
    || (saveS3 && t.dies == Some(CopyMade))
    || (!DropsLocal(t, saveS3 && !s3Missing, disableLocal) && (t.dies == Some(LocalGone) || !t.updated))
  }

  /** The first good dump turns uploads off if the storage was deleted. */
  predicate SavesToS3(trials: seq<Trial>, i: nat, saveS3: bool, s3Missing: bool)
    requires i <= |trials|
  {
    saveS3 && !(s3Missing && exists j :: 0 <= j < i && Succeeds(trials[j]))
  }

  /** One of the random ids is new. */
  predicate FreeId(records: map<Uuid, Execution>, made: seq<Option<Uuid>>, prefix: nat, ids: seq<nat>)
    requires |ids| == 3
  {
    exists i :: 0 <= i < 3 && Uuid(prefix, ids[i]) !in records && Some(Uuid(prefix, ids[i])) !in made
  }

  /** The database at which a run was interrupted left a file. */
  predicate InterruptedWithFile(records: map<Uuid, Execution>, made: seq<Option<Uuid>>, trials: seq<Trial>, prefix: nat,
                                saveS3: bool, s3Missing: bool, disableLocal: bool)
    requires |made| < |trials| && |trials[|made|].ids| == 3
  {
    && FreeId(records, made, prefix, trials[|made|].ids)
    && LeavesFile(trials[|made|], SavesToS3(trials, |made|, saveS3, s3Missing), s3Missing, disableLocal)
  }

  /** Whether the local backup was made. */
  datatype Local = Made(size: nat) | NotMade(size: nat) | Killed

  class BackupRun {
    const backup: nat
    const prefix: nat
    const disableLocal: bool
    /** The S3 storage of the schedule was deleted. */
    const s3Missing: bool
    var saveS3: bool
    var disk: map<File, nat>
    var s3: set<File>
    var records: map<Uuid, Execution>
    var backupLog: Option<Uuid>
    var location: Option<File>
    var uuid: Option<Uuid>
    var s3Uploaded: bool

    /** A new job. Its random prefix occurs in no record and no file yet. */
    constructor (backup: nat, prefix: nat, disableLocal: bool, s3Missing: bool, saveS3: bool, disk: map<File, nat>,
                 s3: set<File>, records: map<Uuid, Execution>)
      requires forall u :: u in records ==> u.prefix != prefix
      requires forall f :: f in disk ==> f.uuid.prefix != prefix
      ensures Idle() && backupLog == None && this.records == records && this.disk == disk && this.saveS3 == saveS3
      ensures this.backup == backup && this.prefix == prefix && this.disableLocal == disableLocal
      ensures this.s3Missing == s3Missing
    {
      this.backup, this.prefix, this.disableLocal, this.s3Missing := backup, prefix, disableLocal, s3Missing;
      this.saveS3, this.disk, this.s3, this.records := saveS3, disk, s3, records;
      backupLog, location, uuid, s3Uploaded := None, None, None, false;
    }

    /** Between two databases. */
    ghost predicate Idle()
      reads this
    {
      && Agree(records, disk, s3, prefix) && OnlyRunning(records, prefix, None)
      && (forall u :: u in records && u.prefix == prefix ==> records[u].backup == backup)
    }

    /** The do-while loop: three random ids at most. */
    method NewUuid(ids: seq<nat>) returns (ok: bool)
      requires |ids| == 3
      modifies `uuid
      ensures ok <==> exists i :: 0 <= i < 3 && Uuid(prefix, ids[i]) !in records
      ensures ok ==> uuid.Some? && uuid.value !in records && uuid.value.prefix == prefix
      ensures ok ==> exists i :: 0 <= i < 3 && uuid == Some(Uuid(prefix, ids[i])) && AllUsed(ids[..i])
      ensures !ok ==> uuid.Some? && uuid.value in records && uuid.value.prefix == prefix && AllUsed(ids)
    {
      var attempts := 0;
      var taken := true;
      while taken
        invariant 0 <= attempts <= 3 && (attempts == 3 ==> !taken)
        invariant taken ==> AllUsed(ids[..attempts]) && (uuid.Some? || attempts == 0)
        invariant !taken ==>
            && attempts > 0 && uuid == Some(Uuid(prefix, ids[attempts - 1]))
            && uuid.value !in records && AllUsed(ids[..attempts - 1])
        decreases 3 - attempts, taken
      {
        uuid := Some(Uuid(prefix, ids[attempts]));
        taken := uuid.value in records;
        attempts := attempts + 1;
        if attempts >= 3 && taken {
          assert ids[..3] == ids;
          return false;
        }
      }
      return true;
    }

    ghost predicate AllUsed(ids: seq<nat>)
      reads `records
    {
      forall i :: 0 <= i < |ids| ==> Uuid(prefix, ids[i]) in records
    }

    /** Removes exactly the file, if there is a location. */
    method DeleteBackupsLocally()
      modifies `disk
      ensures disk == if location.Some? then old(disk) - {location.value} else old(disk)
    {
      if location.Some? {
        disk := disk - {location.value};
      }
    }

    /** The upload of the current file, false if it throws. A deleted storage turns uploads off. */
    method UploadToS3(upload: Upload) returns (ok: bool)
      requires location.Some?
      modifies `saveS3, `s3, `s3Uploaded
      ensures ok <==> !s3Missing && upload == Uploaded
      ensures s3Missing ==> !saveS3 && s3 == old(s3) && s3Uploaded == old(s3Uploaded)
      ensures !s3Missing ==>
        && saveS3 == old(saveS3) && s3Uploaded == (upload != NotUploaded)
        && s3 == if upload != NotUploaded then old(s3) + {location.value} else old(s3)
    {
      if s3Missing {
        saveS3 := false;
        return false;
      }
      s3Uploaded := upload != NotUploaded;
      if s3Uploaded {
        s3 := s3 + {location.value};
      }
      return upload == Uploaded;
    }

    /** Step 1: the record, the dump and its size. */
    method CreateLocalBackup(database: string, t: Trial) returns (local: Local)
      requires Idle() && uuid.Some? && uuid.value.prefix == prefix && uuid.value !in records
      requires backupLog == None && location == None
      modifies `location, `records, `backupLog, `disk
      ensures SameBut(uuid, old(records), old(disk), records, disk) && OneOk(records, disk, s3, uuid.value)
      ensures var file := File(database, t.time, uuid.value);
        && (location == None || location == Some(file))
        && (t.supported && t.dies != Some(BeforeRecord) ==> location.Some?)
        && (backupLog == None ==> records == old(records) && disk == old(disk)) && Current()
        && (backupLog.Some? ==>
              && backupLog == uuid && location.Some?
              && records == old(records)[uuid.value :=
                   Execution(backup, database, Some(file), Running, 0, None, false, false)]
              && disk == if t.announced && t.written.Some? && t.dies != Some(WithRecord)
                         then old(disk)[file := t.written.value] else old(disk))
      ensures local == Killed ==> t.dies.Some?
      ensures local != Killed ==>
        (backupLog.Some? <==> HasRecord(t)) && (local.Made? <==> Succeeds(t)) && local.size == SizeOf(t)
      ensures local == Killed ==> (Untracked(records, disk, uuid.value) <==> DiesWithFile(t))
      ensures local == Killed ==> EarlyDeath(t)
      ensures local != Killed ==> !DiesWithFile(t) && !(Succeeds(t) && EarlyDeath(t))
      ensures local.Made? ==>
        local.size > 0 && location.Some? && location.value in disk && disk[location.value] == local.size
    {
      if !t.supported { return NotMade(0); }
      var file := File(database, t.time, uuid.value);
      location := Some(file);
      if t.dies == Some(BeforeRecord) { return Killed; }
      if !t.created { return NotMade(0); }
      records := records[uuid.value := Execution(backup, database, Some(file), Running, 0, None, false, false)];
      backupLog := uuid;
      if t.dies == Some(WithRecord) { return Killed; }
      if !t.announced { return NotMade(0); }
      if t.written.Some? {
        disk := disk[file := t.written.value];
      }
      if t.dies == Some(WithFile) { return Killed; }
      if !t.dumpOk { return NotMade(0); }
      var size := if t.sizeRead && file in disk then disk[file] else 0;
      if size > 0 { return Made(size); }
      return NotMade(size);
    }

    /** The current execution and its location, after step 1. */
    ghost predicate Current()
      reads this
    {
      && uuid.Some? && OneOk(records, disk, s3, uuid.value)
      && (location.Some? ==> location.value.uuid == uuid.value)
      && (backupLog.Some? ==>
            && backupLog == uuid && location.Some? && uuid.value in records
            && records[uuid.value].status == Running && records[uuid.value].filename == location
            && !records[uuid.value].localDeleted)
      && (backupLog == None ==> uuid.value !in records)
    }

    /** The catch block of step 1. */
    method LocalBackupFailed(t: Trial, size: nat) returns (end: End)
      requires Current()
      modifies `disk, `records
      ensures SameBut(uuid, old(records), old(disk), records, disk) && OneOk(records, disk, s3, uuid.value)
      ensures uuid.value in records <==> uuid.value in old(records)
      ensures uuid.value in records ==> records[uuid.value].backup == old(records[uuid.value]).backup
      ensures end == Normal && backupLog.Some? ==> records[uuid.value] == MarkedAsFailed(old(records[uuid.value]), size)
      ensures end == Died ==> t.dies == Some(FileDropped) || t.dies == Some(MarkedFailed)
      ensures end == Threw ==> !t.updated
      ensures !Untracked(records, disk, uuid.value)
    {
      DeleteBackupsLocally();
      if t.dies == Some(FileDropped) { return Died; }
      if backupLog.Some? {
        if !t.updated { return Threw; }
        records := records[backupLog.value := MarkedAsFailed(records[backupLog.value], size)];
      }
      if t.dies == Some(MarkedFailed) { return Died; }
      return Normal;
    }

    /** Steps 2 and 3: the upload, the removal of the local file, and the success record. */
    method UploadAndReport(t: Trial, size: nat) returns (end: End)
      requires Current() && backupLog.Some? && size > 0 && location.value in disk && disk[location.value] == size
      modifies `saveS3, `s3, `s3Uploaded, `disk, `records
      ensures SameBut(uuid, old(records), old(disk), records, disk) && OneOk(records, disk, s3, uuid.value)
      ensures old(s3) <= s3
      ensures uuid.value in records && records[uuid.value].backup == old(records[uuid.value]).backup
      ensures end == Normal ==> var on := old(saveS3) && !s3Missing;
        records[uuid.value] == old(records[uuid.value]).(status := Success, size := size,
          s3Uploaded := if on then Some(t.upload != NotUploaded) else None,
          localDeleted := on && disableLocal && t.upload == Uploaded, finished := true)
      ensures end == Died ==> t.dies == Some(CopyMade) || t.dies == Some(LocalGone) || t.dies == Some(MarkedSuccess)
      ensures end == Threw ==> !t.updated
      ensures saveS3 == (old(saveS3) && !s3Missing)
      ensures end != Normal && Succeeds(t) ==>
        (Untracked(records, disk, uuid.value) <==> LosesReport(t, old(saveS3), s3Missing, disableLocal))
    {
      var localStorageDeleted := false;
      if saveS3 {
        var uploaded := UploadToS3(t.upload);
        if t.dies == Some(CopyMade) { return Died; }
        if uploaded && disableLocal {
          DeleteBackupsLocally();
          localStorageDeleted := true;
        }
      }
      if t.dies == Some(LocalGone) { return Died; }
      if !t.updated { return Threw; }
      records := records[backupLog.value := records[backupLog.value].(status := Success, size := size,
        s3Uploaded := if saveS3 then Some(s3Uploaded) else None, localDeleted := localStorageDeleted,
        finished := true)];
      if t.dies == Some(MarkedSuccess) { return Died; }
      return Normal;
    }

    /** A turn of the loop, once the id is there. */
    method BackUpAs(database: string, t: Trial) returns (end: End)
      requires Idle() && uuid.Some? && uuid.value.prefix == prefix && uuid.value !in records
      requires backupLog == None && location == None
      modifies `saveS3, `s3, `s3Uploaded, `disk, `records, `location, `backupLog
      ensures Agree(records, disk, s3, prefix) && OnlyRunning(records, prefix, if end == Normal then None else uuid)
      ensures forall u :: u in records && u.prefix == prefix ==> records[u].backup == backup
      ensures SameBut(uuid, old(records), old(disk), records, disk) && old(s3) <= s3
      ensures end == Normal ==> saveS3 == (old(saveS3) && !(s3Missing && Succeeds(t)))
      ensures backupLog.Some? ==> backupLog == uuid && uuid.value in records
      ensures end == Normal ==> (HasRecord(t) <==> uuid.value in records)
      ensures end == Normal && HasRecord(t) ==>
        records[uuid.value]
          == Promised(t, File(database, t.time, uuid.value), backup, old(saveS3) && !s3Missing, disableLocal)
      ensures end == Died ==> t.dies.Some?
      ensures end == Threw ==> !t.updated
      ensures end != Normal ==>
        (Untracked(records, disk, uuid.value) <==> LeavesFile(t, old(saveS3), s3Missing, disableLocal))
    {
      var local := CreateLocalBackup(database, t);
      ghost var midRecords, midDisk := records, disk;
      hide Agree, SameBut, OneOk, OnlyRunning, DiesWithFile, EarlyDeath, LosesReport, Untracked;
      match local {
        case Killed =>
          end := Died;
          SameButSelf(uuid, records, disk);
        case NotMade(size) =>
          end := LocalBackupFailed(t, size);
        case Made(size) =>
          end := UploadAndReport(t, size);
      }
      hide HasRecord, Promised, Succeeds, SizeOf;
      SameButTwice(uuid, old(records), old(disk), midRecords, midDisk, records, disk);
      SameButRunning(uuid, old(records), old(disk), records, disk, prefix, backup);
      AgreeAfterOne(old(records), old(disk), old(s3), records, disk, s3, prefix, uuid.value);
    }

    /** One turn of the loop. */
    method BackUp(database: string, t: Trial) returns (end: End)
      requires Idle() && |t.ids| == 3
      modifies this
      ensures Agree(records, disk, s3, prefix) && OnlyRunning(records, prefix, if end == Normal then None else uuid)
      ensures forall u :: u in records && u.prefix == prefix ==> records[u].backup == backup
      ensures uuid.Some? && uuid.value.prefix == prefix
      ensures uuid.value !in old(records) ==> SameBut(uuid, old(records), old(disk), records, disk)
      ensures uuid.value in old(records) ==> end == Threw && records == old(records) && disk == old(disk)
      ensures end == Normal ==> saveS3 == (old(saveS3) && !(s3Missing && Succeeds(t)))
      ensures backupLog.Some? ==> backupLog == uuid && uuid.value in records && uuid.value !in old(records)
      ensures end == Normal ==> (HasRecord(t) <==> uuid.value in records)
      ensures end == Normal && HasRecord(t) ==>
        records[uuid.value]
          == Promised(t, File(database, t.time, uuid.value), backup, old(saveS3) && !s3Missing, disableLocal)
      ensures end == Died ==> t.dies.Some?
      ensures end == Threw ==> !t.updated || uuid.value in old(records)
      ensures uuid.value !in old(records) <==> exists i :: 0 <= i < 3 && Uuid(prefix, t.ids[i]) !in old(records)
      ensures end != Normal ==> (Untracked(records, disk, uuid.value) <==>
        uuid.value !in old(records) && LeavesFile(t, old(saveS3), s3Missing, disableLocal))
    {
      backupLog, location := None, None;
      var unique := NewUuid(t.ids);
      hide Agree, SameBut, LeavesFile, HasRecord, Promised, Untracked;
      if !unique {
        StillOnlyRunning(records, prefix, uuid);
        IdleTracksAll(records, disk, s3, prefix, uuid.value);
        return Threw;
      }
      end := BackUpAs(database, t);
    }

    /** The loop over the databases. Its end is Normal exactly if no id, update or worker failed. `made` tells
        the execution of each database that the loop got through. */
    method Handle(databases: seq<string>, trials: seq<Trial>) returns (end: End, ghost made: seq<Option<Uuid>>)
      requires Idle() && backupLog == None && |trials| == |databases| && forall i :: 0 <= i < |trials| ==>
        |trials[i].ids| == 3
      modifies this
      ensures Agree(records, disk, s3, prefix) && OnlyRunning(records, prefix, if end == Normal then None else uuid)
      ensures forall u :: u in records && u.prefix == prefix ==> records[u].backup == backup
      ensures OtherRunsStay(prefix, old(records), old(disk), records, disk)
      ensures |made| <= |databases| && (end == Normal <==> |made| == |databases|)
      ensures var s3On := old(saveS3) && !s3Missing;
        AllCameOut(old(records), records, made, trials, databases, backup, prefix, s3On, disableLocal)
      ensures end == Normal ==> forall u :: u in records ==> u in old(records) || Some(u) in made
      ensures end == Died ==> trials[|made|].dies.Some?
      ensures end != Normal ==> uuid.Some? && uuid.value.prefix == prefix
      ensures end != Normal ==> (Untracked(records, disk, uuid.value) <==>
        InterruptedWithFile(old(records), made, trials, prefix, old(saveS3), s3Missing, disableLocal))
    {
      hide Agree, OtherRunsStay, AllCameOut, LeavesFile, HasRecord, Promised, CameOut, Succeeds, OnlyRunning,
        Untracked, FreeId,
        SavesToS3;
      made := [];
      end := Normal;
      var i := 0;
      ghost var s3On := saveS3 && !s3Missing;
      LoopStarts(records, disk, trials, databases, backup, prefix, saveS3, s3Missing, s3On, disableLocal);
      while i < |databases| && end == Normal
        invariant 0 <= i <= |databases|
        invariant Agree(records, disk, s3, prefix) && OnlyRunning(records, prefix, if end == Normal then None else uuid)
        invariant forall u :: u in records && u.prefix == prefix ==> records[u].backup == backup
        invariant OtherRunsStay(prefix, old(records), old(disk), records, disk)
        invariant backupLog.Some? ==> backupLog == uuid && uuid.value in records && uuid.value.prefix == prefix
        invariant backupLog.Some? ==>
          if end == Normal then records[uuid.value].finished else uuid !in made && uuid.value !in old(records)
        invariant |made| == if end == Normal then i else i - 1
        invariant end == Normal ==> (saveS3 && !s3Missing) == s3On
        invariant AllCameOut(old(records), records, made, trials, databases, backup, prefix, s3On, disableLocal)
        invariant end == Normal ==> forall u :: u in records ==> u in old(records) || Some(u) in made
        invariant end == Died ==> i > 0 && trials[i - 1].dies.Some?
        invariant end == Normal ==> saveS3 == SavesToS3(trials, i, old(saveS3), s3Missing)
        invariant end != Normal ==> i > 0 && uuid.Some? && uuid.value.prefix == prefix
        invariant end != Normal ==> (Untracked(records, disk, uuid.value) <==>
          InterruptedWithFile(old(records), made, trials, prefix, old(saveS3), s3Missing, disableLocal))
        decreases |databases| - i
      {
        ghost var r, d := records, disk;
        MeetsFreeId(old(records), r, made, trials, databases, backup, prefix, s3On, disableLocal);
        SavesToS3Grows(trials, i, old(saveS3), s3Missing);
        end := BackUp(databases[i], trials[i]);
        if uuid.value !in r {
          TurnKeepsRest(old(records), old(disk), r, d, records, disk, prefix, uuid.value);
          TurnKeepsMade(old(records), r, d, records, disk, uuid.value, made, trials, databases, backup, prefix, s3On,
            disableLocal);
        }
        if end == Normal {
          ghost var one := if HasRecord(trials[i]) then uuid else None;
          OneCameOut(records, one, trials[i], databases[i], backup, prefix, s3On, disableLocal);
          MadeGrows(old(records), records, made, one, trials, databases, backup, prefix, s3On, disableLocal);
          made := made + [one];
        }
        i := i + 1;
      }
      if end != Died && backupLog.Some? {
        ghost var r := records;
        records := records[backupLog.value := records[backupLog.value].(finished := true)];
        if end == Threw {
          FinishedTracksSame(r, records, disk, uuid.value);
          FinishedKeeps(old(records), old(disk), r, records, disk, s3, uuid.value, prefix);
          MadeStays(old(records), r, records, uuid.value, made, trials, databases, backup, prefix, s3On, disableLocal);
        } else {
          assert records == r;
        }
      }
    }

    /** After a failure or a kill, on a fresh copy of the job, which knows only the prefix: every unfinished
        execution of the run is marked failed. */
    method JobFailed()
      modifies `records
      ensures records == AllFailed(old(records), prefix, backup)
    {
      var todo := set u | u in records && OfRun(u, records[u], prefix, backup) && records[u].status == Running;
      ghost var all := todo;
      while todo != {}
        invariant todo <= all && records.Keys == old(records).Keys
        invariant forall u :: u in records ==>
          records[u] == if u in all - todo then GivenUp(old(records)[u]) else old(records)[u]
        decreases todo
      {
        var u :| u in todo;
        records := records[u := GivenUp(records[u])];
        todo := todo - {u};
      }
    }

    /** A run, and failed() behind it if it did not end normally. */
    method RunToTheEnd(databases: seq<string>, trials: seq<Trial>) returns (end: End, ghost made: seq<Option<Uuid>>)
      requires Idle() && backupLog == None && |trials| == |databases| && forall i :: 0 <= i < |trials| ==>
        |trials[i].ids| == 3
      modifies this
      ensures OnlyRunning(records, prefix, None)
      ensures OtherRunsStay(prefix, old(records), old(disk), records, disk)
      ensures var s3On := old(saveS3) && !s3Missing;
        AllCameOut(old(records), records, made, trials, databases, backup, prefix, s3On, disableLocal)
      ensures end == Normal <==> |made| == |databases|
      ensures end == Normal ==> Agree(records, disk, s3, prefix)
      ensures Tracked(records, disk, prefix, if end == Normal then None else uuid)
      ensures HasUntracked(records, disk, prefix) <==>
        end != Normal && InterruptedWithFile(old(records), made, trials, prefix, old(saveS3), s3Missing, disableLocal)
    {
      end, made := Handle(databases, trials);
      hide AllFailed, AllCameOut, OtherRunsStay, Agree, InterruptedWithFile, Tracked, OnlyRunning, Untracked;
      if end == Normal {
        FilesTracked(records, disk, s3, prefix);
      } else {
        ghost var r := records;
        JobFailed();
        FailedKeeps(old(records), old(disk), r, disk, prefix, backup, uuid);
        CameOutKeeps(old(records), r, made, trials, databases, backup, prefix, old(saveS3) && !s3Missing, disableLocal);
        FilesTrackedAfterFailed(r, disk, s3, prefix, backup, uuid);
        FailedTracksSame(r, disk, prefix, backup, uuid.value);
      }
      UntrackedIsLast(records, disk, prefix, if end == Normal then None else uuid);
    }
  }

  /** How a database came out of the run: its execution, if it got one. */
  predicate CameOut(records: map<Uuid, Execution>, made: Option<Uuid>, t: Trial, database: string, backup: nat,
                    prefix: nat,
                    s3: bool, disableLocal: bool) {
    && (made.Some? <==> HasRecord(t))
    && (made.Some? ==>
          && made.value in records && made.value.prefix == prefix
          && records[made.value] == Promised(t, File(database, t.time, made.value), backup, s3, disableLocal))
  }

  /** All databases that the loop got through came out as promised, each with an execution of its own. */
  predicate AllCameOut(r0: map<Uuid, Execution>, r: map<Uuid, Execution>, made: seq<Option<Uuid>>, trials: seq<Trial>,
                       databases: seq<string>, backup: nat, prefix: nat, s3: bool, disableLocal: bool) {
    && |made| <= |trials| == |databases|
    && (forall i :: 0 <= i < |made| ==> CameOut(r, made[i], trials[i], databases[i], backup, prefix, s3, disableLocal))
    && (forall i, j :: 0 <= i < j < |made| && made[i].Some? ==> made[i] != made[j])
    && (forall i :: 0 <= i < |made| && made[i].Some? ==> made[i].value !in r0)
    && (forall u :: u in r0 ==> u in r && r[u] == r0[u])
  }

  lemma OneCameOut(records: map<Uuid, Execution>, made: Option<Uuid>, t: Trial, database: string, backup: nat,
                   prefix: nat,
                   s3: bool, disableLocal: bool)
    requires made.Some? <==> HasRecord(t)
    requires made.Some? ==>
      && made.value in records && made.value.prefix == prefix
      && records[made.value] == Promised(t, File(database, t.time, made.value), backup, s3, disableLocal)
    ensures CameOut(records, made, t, database, backup, prefix, s3, disableLocal)
    ensures made.Some? ==> records[made.value].finished
  {
  }

  lemma LoopStarts(r: map<Uuid, Execution>, d: map<File, nat>, trials: seq<Trial>, databases: seq<string>, backup: nat,
                   prefix: nat, saveS3: bool, s3Missing: bool, s3: bool, disableLocal: bool)
    requires |trials| == |databases|
    ensures SavesToS3(trials, 0, saveS3, s3Missing) == saveS3
    ensures OtherRunsStay(prefix, r, d, r, d)
    ensures AllCameOut(r, r, [], trials, databases, backup, prefix, s3, disableLocal)
  {
  }

  lemma TurnKeepsRest(r0: map<Uuid, Execution>, d0: map<File, nat>, r: map<Uuid, Execution>, d: map<File, nat>,
                      r': map<Uuid, Execution>, d': map<File, nat>, prefix: nat, u: Uuid)
    requires OtherRunsStay(prefix, r0, d0, r, d) && SameBut(Some(u), r, d, r', d') && u.prefix == prefix
    ensures OtherRunsStay(prefix, r0, d0, r', d')
  {
  }

  lemma MadeStays(r0: map<Uuid, Execution>, r: map<Uuid, Execution>, r': map<Uuid, Execution>, u: Uuid,
                  made: seq<Option<Uuid>>,
                  trials: seq<Trial>, databases: seq<string>, backup: nat, prefix: nat, s3: bool, disableLocal: bool)
    requires AllCameOut(r0, r, made, trials, databases, backup, prefix, s3, disableLocal) && u !in r0
    requires Some(u) !in made
    requires forall v :: v in r && v != u ==> v in r' && r'[v] == r[v]
    ensures AllCameOut(r0, r', made, trials, databases, backup, prefix, s3, disableLocal)
  {
    forall i | 0 <= i < |made| ensures CameOut(r', made[i], trials[i], databases[i], backup, prefix, s3, disableLocal) {
      assert CameOut(r, made[i], trials[i], databases[i], backup, prefix, s3, disableLocal);
      assert made[i] in made;
    }
  }

  lemma TurnKeepsMade(r0: map<Uuid, Execution>, r: map<Uuid, Execution>, d: map<File, nat>, r': map<Uuid, Execution>,
                      d': map<File, nat>, u: Uuid, made: seq<Option<Uuid>>, trials: seq<Trial>, databases: seq<string>,
                      backup: nat, prefix: nat, s3: bool, disableLocal: bool)
    requires AllCameOut(r0, r, made, trials, databases, backup, prefix, s3, disableLocal) && u !in r
    requires SameBut(Some(u), r, d, r', d')
    ensures AllCameOut(r0, r', made, trials, databases, backup, prefix, s3, disableLocal) && Some(u) !in made
    ensures u !in r0
  {
    forall i | 0 <= i < |made| ensures made[i] != Some(u) {
      assert CameOut(r, made[i], trials[i], databases[i], backup, prefix, s3, disableLocal);
    }
    MadeStays(r0, r, r', u, made, trials, databases, backup, prefix, s3, disableLocal);
  }

  lemma MadeGrows(r0: map<Uuid, Execution>, r: map<Uuid, Execution>, made: seq<Option<Uuid>>, one: Option<Uuid>,
                  trials: seq<Trial>, databases: seq<string>, backup: nat, prefix: nat, s3: bool, disableLocal: bool)
    requires AllCameOut(r0, r, made, trials, databases, backup, prefix, s3, disableLocal) && |made| < |trials|
    requires CameOut(r, one, trials[|made|], databases[|made|], backup, prefix, s3, disableLocal)
    requires one.Some? ==> one !in made && one.value !in r0
    ensures AllCameOut(r0, r, made + [one], trials, databases, backup, prefix, s3, disableLocal)
  {
    hide CameOut;
  }

  /** Setting the end time of an execution changes no agreement. */
  lemma FinishedKeeps(r0: map<Uuid, Execution>, d0: map<File, nat>, r: map<Uuid, Execution>, r': map<Uuid, Execution>,
                      d: map<File, nat>, s3: set<File>, u: Uuid, prefix: nat)
    requires Agree(r, d, s3, prefix) && OtherRunsStay(prefix, r0, d0, r, d) && u in r && u.prefix == prefix
    requires r' == r[u := r[u].(finished := true)]
    ensures Agree(r', d, s3, prefix) && OtherRunsStay(prefix, r0, d0, r', d)
    ensures OnlyRunning(r, prefix, Some(u)) ==> OnlyRunning(r', prefix, Some(u))
  {
    forall v: Uuid | v.prefix == prefix ensures OneOk(r', d, s3, v) {
      assert OneOk(r, d, s3, v);
    }
  }

  predicate OfRun(u: Uuid, e: Execution, prefix: nat, backup: nat) {
    u.prefix == prefix && e.backup == backup
  }

  function GivenUp(e: Execution): Execution {
    e.(status := Failed, size := 0, filename := None, finished := true)
  }

  function AllFailed(records: map<Uuid, Execution>, prefix: nat, backup: nat): map<Uuid, Execution> {
    map u | u in records ::
      if OfRun(u, records[u], prefix, backup) && records[u].status == Running then GivenUp(records[u]) else records[u]
  }

  function MarkedAsFailed(e: Execution, size: nat): Execution {
    e.(status := Failed, size := size, filename := None, s3Uploaded := None, finished := true)
  }

  lemma AgreeAfterOne(records: map<Uuid, Execution>, disk: map<File, nat>, s3: set<File>,
                      records': map<Uuid, Execution>, disk': map<File, nat>, s3': set<File>, prefix: nat, u: Uuid)
    requires Agree(records, disk, s3, prefix) && SameBut(Some(u), records, disk, records', disk') && s3 <= s3'
    requires OneOk(records', disk', s3', u)
    ensures Agree(records', disk', s3', prefix)
  {
    forall v: Uuid | v.prefix == prefix && v != u ensures OneOk(records', disk', s3', v) {
      assert OneOk(records, disk, s3, v);
    }
  }

  lemma StillOnlyRunning(records: map<Uuid, Execution>, prefix: nat, u: Option<Uuid>)
    requires OnlyRunning(records, prefix, None)
    ensures OnlyRunning(records, prefix, u)
  {
  }

  /** Between two databases no file is untracked. */
  lemma IdleTracksAll(records: map<Uuid, Execution>, disk: map<File, nat>, s3: set<File>, prefix: nat, u: Uuid)
    requires Agree(records, disk, s3, prefix) && OnlyRunning(records, prefix, None) && u.prefix == prefix
    ensures !Untracked(records, disk, u)
  {
    assert OneOk(records, disk, s3, u);
  }

  lemma FinishedTracksSame(r: map<Uuid, Execution>, r': map<Uuid, Execution>, disk: map<File, nat>, u: Uuid)
    requires u in r && r' == r[u := r[u].(finished := true)]
    ensures Untracked(r', disk, u) == Untracked(r, disk, u)
  {
  }

  lemma FailedTracksSame(r: map<Uuid, Execution>, disk: map<File, nat>, prefix: nat, backup: nat, u: Uuid)
    ensures Untracked(AllFailed(r, prefix, backup), disk, u) == Untracked(r, disk, u)
  {
  }

  lemma UntrackedIsLast(r: map<Uuid, Execution>, disk: map<File, nat>, prefix: nat, but: Option<Uuid>)
    requires Tracked(r, disk, prefix, but) && (but.Some? ==> but.value.prefix == prefix)
    ensures HasUntracked(r, disk, prefix) <==>
      but.Some? && Untracked(r, disk, but.value)
  {
  }

  lemma MeetsFreeId(r0: map<Uuid, Execution>, r: map<Uuid, Execution>, made: seq<Option<Uuid>>, trials: seq<Trial>,
                    databases: seq<string>, backup: nat, prefix: nat, s3: bool, disableLocal: bool)
    requires AllCameOut(r0, r, made, trials, databases, backup, prefix, s3, disableLocal) && |made| < |trials|
    requires forall u :: u in r ==> u in r0 || Some(u) in made
    requires |trials[|made|].ids| == 3
    ensures var ids := trials[|made|].ids;
      FreeId(r0, made, prefix, ids) <==> exists i :: 0 <= i < 3 && Uuid(prefix, ids[i]) !in r
  {
    forall i | 0 <= i < |made| && made[i].Some? ensures made[i].value in r {
      assert CameOut(r, made[i], trials[i], databases[i], backup, prefix, s3, disableLocal);
    }
    hide CameOut;
    var ids := trials[|made|].ids;
    forall i | 0 <= i < 3
      ensures Uuid(prefix, ids[i]) !in r <==> Uuid(prefix, ids[i]) !in r0 && Some(Uuid(prefix, ids[i])) !in made
    {}
  }

  lemma SavesToS3Grows(trials: seq<Trial>, i: nat, saveS3: bool, s3Missing: bool)
    requires i < |trials|
    ensures SavesToS3(trials, i + 1, saveS3, s3Missing)
         == (SavesToS3(trials, i, saveS3, s3Missing) && !(s3Missing && Succeeds(trials[i])))
  {
    hide Succeeds;
  }

  lemma SameButSelf(u: Option<Uuid>, records: map<Uuid, Execution>, disk: map<File, nat>)
    ensures SameBut(u, records, disk, records, disk)
  {
  }

  lemma SameButTwice(u: Option<Uuid>, r0: map<Uuid, Execution>, d0: map<File, nat>, r1: map<Uuid, Execution>,
                     d1: map<File, nat>,
                     r2: map<Uuid, Execution>, d2: map<File, nat>)
    requires SameBut(u, r0, d0, r1, d1) && SameBut(u, r1, d1, r2, d2)
    ensures SameBut(u, r0, d0, r2, d2)
  {
  }

  lemma SameButRunning(u: Option<Uuid>, r0: map<Uuid, Execution>, d0: map<File, nat>, r1: map<Uuid, Execution>,
                       d1: map<File, nat>,
                       prefix: nat, backup: nat)
    requires SameBut(u, r0, d0, r1, d1) && OnlyRunning(r0, prefix, None)
    requires forall v :: v in r0 && v.prefix == prefix ==> r0[v].backup == backup
    requires u.Some? && u.value in r1 ==> r1[u.value].backup == backup
    ensures OnlyRunning(r1, prefix, u)
    ensures u.Some? && (u.value in r1 ==> r1[u.value].status != Running) ==> OnlyRunning(r1, prefix, None)
    ensures forall v :: v in r1 && v.prefix == prefix ==> r1[v].backup == backup
  {
  }

  lemma FilesTracked(r: map<Uuid, Execution>, d: map<File, nat>, s3: set<File>, prefix: nat)
    requires Agree(r, d, s3, prefix) && OnlyRunning(r, prefix, None)
    ensures Tracked(r, d, prefix, None)
  {
    forall u, f | u in r && u.prefix == prefix && Tracks(r[u], f) ensures f in d && r[u].size > 0 {
      assert OneOk(r, d, s3, u);
    }
    forall f | f in d && f.uuid.prefix == prefix ensures f.uuid in r && Tracks(r[f.uuid], f) {
      assert OneOk(r, d, s3, f.uuid);
    }
  }

  lemma FilesTrackedAfterFailed(r: map<Uuid, Execution>, d: map<File, nat>, s3: set<File>, prefix: nat, backup: nat,
                                uuid: Option<Uuid>)
    requires Agree(r, d, s3, prefix) && OnlyRunning(r, prefix, uuid)
    requires forall u :: u in r && u.prefix == prefix ==> r[u].backup == backup
    ensures Tracked(AllFailed(r, prefix, backup), d, prefix, uuid)
  {
    var r' := AllFailed(r, prefix, backup);
    forall u, f | u in r' && u.prefix == prefix && Tracks(r'[u], f) ensures f in d && r'[u].size > 0 {
      assert OneOk(r, d, s3, u);
    }
    forall f | f in d && f.uuid.prefix == prefix
      ensures f.uuid in r' && (Tracks(r'[f.uuid], f) || uuid == Some(f.uuid))
    {
      assert OneOk(r, d, s3, f.uuid);
    }
  }

  lemma FailedKeeps(r0: map<Uuid, Execution>, d0: map<File, nat>, r: map<Uuid, Execution>, d: map<File, nat>,
                    prefix: nat,
                    backup: nat, uuid: Option<Uuid>)
    requires OnlyRunning(r, prefix, uuid) && OtherRunsStay(prefix, r0, d0, r, d)
    requires forall u :: u in r && u.prefix == prefix ==> r[u].backup == backup
    ensures OnlyRunning(AllFailed(r, prefix, backup), prefix, None)
    ensures OtherRunsStay(prefix, r0, d0, AllFailed(r, prefix, backup), d)
    ensures var r' := AllFailed(r, prefix, backup); r'.Keys == r.Keys && forall u :: u in r ==>
      if u.prefix == prefix && r[u].status == Running then uuid == Some(u) && r'[u] == GivenUp(r[u]) else r'[u] == r[u]
  {
  }

  lemma CameOutKeeps(r0: map<Uuid, Execution>, r: map<Uuid, Execution>, made: seq<Option<Uuid>>, trials: seq<Trial>,
                     databases: seq<string>, backup: nat, prefix: nat, s3: bool, disableLocal: bool)
    requires AllCameOut(r0, r, made, trials, databases, backup, prefix, s3, disableLocal)
    requires OnlyRunning(r0, prefix, None)
    ensures AllCameOut(r0, AllFailed(r, prefix, backup), made, trials, databases, backup, prefix, s3, disableLocal)
  {
    var r' := AllFailed(r, prefix, backup);
    forall i | 0 <= i < |made| ensures CameOut(r', made[i], trials[i], databases[i], backup, prefix, s3, disableLocal) {
      assert CameOut(r, made[i], trials[i], databases[i], backup, prefix, s3, disableLocal);
    }
  }
}
