/**
 * Every action keeps the invariant of BackupStore.dfy. An action is about at most one dump name;
 * whatever belongs to another is untouched, and what the action's own job has secured is shown
 * stage by stage.
 */
module BackupInvariant {
  import opened Prelude
  import opened BackupCrypto
  import opened BackupStore

  // ── What is untouched keeps its standing ──

  lemma KeepsOnDisk(e: Env, w: World, w': World, d: Dump, name: string)
    requires Untouched(e, w, w', d.name) && FileOf(d.name, name)
    ensures CopyOnDisk(e, w, d, name) ==> CopyOnDisk(e, w', d, name)
  {
  }

  lemma KeepsRemote(e: Env, w: World, w': World, d: Dump, name: string, loc: Location)
    requires Untouched(e, w, w', d.name) && CopyRemote(e, w, d, name, loc)
    ensures CopyRemote(e, w', d, name, loc)
  {
  }

  lemma KeepsCopy(e: Env, w: World, w': World, d: Dump)
    requires Untouched(e, w, w', d.name) && CopyStored(e, w, d)
    ensures CopyStored(e, w', d)
  {
    KeepsOnDisk(e, w, w', d, d.name);
    KeepsOnDisk(e, w, w', d, d.name + ENC);
    if loc :| CopyRemote(e, w, d, d.name, loc) {
      KeepsRemote(e, w, w', d, d.name, loc);
    } else if loc :| CopyRemote(e, w, d, d.name + ENC, loc) {
      KeepsRemote(e, w, w', d, d.name + ENC, loc);
    }
  }

  lemma KeepsFile(e: Env, w: World, w': World, b: string, name: string)
    requires Untouched(e, w, w', b) && FileOf(b, name)
    ensures var p := Path(e.storageDir, name); (p in w.fs <==> p in w'.fs) && (p in w.fs ==> w'.fs[p] == w.fs[p])
  {
  }

  lemma KeepsNotPut(e: Env, w: World, w': World, b: string)
    requires Untouched(e, w, w', b)
    ensures NotPut(w, b) ==> NotPut(w', b)
  {
  }

  lemma KeepsLedger(e: Env, w: World, w': World, b: string)
    requires Untouched(e, w, w', b)
    ensures b in w.completed <==> b in w'.completed
    ensures b in w.admitted <==> b in w'.admitted
    ensures b in w.admitted ==> w'.admitted[b] == w.admitted[b]
    ensures b in w.used ==> b in w'.used
    ensures w.everCurrent <= w'.everCurrent
  {
  }

  lemma KeepsJob(e: Env, w: World, w': World, job: Job)
    requires JobOk(e, w, job) && (job.Working? ==> Untouched(e, w, w', job.dump.name))
    ensures JobOk(e, w', job)
  {
    if job.Working? {
      var d, stage := job.dump, job.stage;
      KeepsLedger(e, w, w', d.name);
      KeepsNotPut(e, w, w', d.name);
      KeepsFile(e, w, w', d.name, d.name);
      KeepsFile(e, w, w', d.name, d.name + ENC);
      KeepsFile(e, w, w', d.name, d.name + ENC + VERIFY);
      KeepsOnDisk(e, w, w', d, d.name);
      KeepsOnDisk(e, w, w', d, d.name + ENC);
      if stage.Uploaded? { KeepsRemote(e, w, w', d, stage.name, stage.loc); }
      if stage.Shipped? && stage.at.Some? { KeepsRemote(e, w, w', d, stage.name, stage.at.value); }
      hide Untouched, CopyRemote, CopyOnDisk, Unseal, NotPut;
    }
  }

  lemma KeepsRestorable(e: Env, w: World, w': World, id: Id)
    requires id in w.rows && RowOk(e, w, id) && Restorable(e, w, id) && Untouched(e, w, w', w.bases[id])
    requires id in w'.rows && w'.rows[id] == w.rows[id].(status := w'.rows[id].status)
    requires id in w'.bases && id in w'.dumps && w'.dumps[id] == w.dumps[id]
    requires id in w.homes ==> id in w'.homes && w'.homes[id] == w.homes[id]
    ensures Restorable(e, w', id)
  {
    var r := w.rows[id];
    KeepsFile(e, w, w', w.bases[id], r.fileName);
    KeepsLedger(e, w, w', w.bases[id]);
  }

  // ── Facts drawn from the invariant ──

  lemma UsedName(e: Env, w: World, b: string)
    requires Inv(e, w) && b in w.used
    ensures EngineName(b)
  {
  }

  lemma RowFacts(e: Env, w: World, id: Id)
    requires Inv(e, w) && id in w.rows
    ensures RowOk(e, w, id)
    ensures id in w.bases ==> w.bases[id] in w.completed && w.bases[id] in w.used && EngineName(w.bases[id])
  {
  }

  lemma JobFacts(e: Env, w: World, id: Id)
    requires Inv(e, w) && IsWorking(w, id)
    ensures var d := w.jobs[id].dump;
            && d.name in w.used && EngineName(d.name) && Standing(w, d, w.jobs[id].stage) && Holding(e, w, d, w.jobs[id].stage)
  {
    assert JobOk(e, w, w.jobs[id]);
  }

  lemma StageName(e: Env, w: World, d: Dump, stage: Stage)
    requires Holding(e, w, d, stage)
    requires stage.Secured? || stage.Routed? || stage.Aimed? || stage.Uploaded? || stage.Shipped?
    ensures match stage
            case Shipped(name, _) => NameOf(d, name)
            case _ => NameOf(d, stage.name) && CopyOnDisk(e, w, d, stage.name) && Path(e.storageDir, stage.name) in w.fs
  {
  }

  lemma EnabledWorking(e: Env, w: World, a: Action)
    requires Enabled(e, w, a) && IsJobAction(a) && !a.WriteDump?
    ensures IsWorking(w, a.id) && !w.jobs[a.id].stage.Recorded?
  {
  }

  lemma DumpFiles(b: string)
    ensures FileOf(b, b) && FileOf(b, b + ENC) && FileOf(b, b + ENC + VERIFY)
    ensures b != b + ENC && b + ENC != b + ENC + VERIFY && b != b + ENC + VERIFY
  {
  }

  // ── What an action leaves untouched ──

  lemma OtherFile(b: string, c: string, name: string)
    requires EngineName(b) && EngineName(c) && b != c && FileOf(c, name)
    ensures !FileOf(b, name)
  {
    if FileOf(b, name) { FilesDisjoint(b, c, name); }
  }

  /** All but one file of this dump name, and the standing of the others. */
  ghost predicate SameButOne(e: Env, w: World, w': World, b: string, name: string) {
    && (forall p :: p != Path(e.storageDir, name) ==> (p in w.fs <==> p in w'.fs) && (p in w.fs ==> w'.fs[p] == w.fs[p]))
    && w'.remote == w.remote && w'.origins == w.origins && w'.everCurrent == w.everCurrent && w.used <= w'.used
    && w.completed <= w'.completed <= w.completed + {b}
    && (w'.admitted == w.admitted || (b in w'.admitted && w'.admitted == w.admitted[b := w'.admitted[b]]))
  }

  lemma OneFileUntouched(e: Env, w: World, w': World, b: string, c: string, name: string)
    requires EngineName(b) && EngineName(c) && b != c && FileOf(c, name) && SameButOne(e, w, w', c, name)
    ensures Untouched(e, w, w', b)
  {
    OtherFile(b, c, name);
  }

  /** What happens outside the backup directory and remote storage. */
  ghost predicate SameStore(e: Env, w: World, w': World) {
    && (forall p: Path :: p.dir == e.storageDir ==> (p in w.fs <==> p in w'.fs) && (p in w.fs ==> w'.fs[p] == w.fs[p]))
    && w'.remote == w.remote && w'.origins == w.origins && w.everCurrent <= w'.everCurrent
    && w'.used == w.used && w'.completed == w.completed && w'.admitted == w.admitted
  }

  lemma SameStoreUntouched(e: Env, w: World, w': World, b: string)
    requires SameStore(e, w, w')
    ensures Untouched(e, w, w', b)
  {
  }

  /** The file a move changes belongs to its job. */
  lemma MovesOwnFile(e: Env, w: World, a: Action)
    requires Inv(e, w) && Enabled(e, w, a) && IsMove(a)
    ensures var d := w.jobs[a.id].dump;
            match FileAfter(e, w, a)
            case Keep => true
            case Change(name, _) => FileOf(d.name, name)
  {
    hide Inv, DecryptsBack, Standing;
    JobFacts(e, w, a.id);
    DumpFiles(w.jobs[a.id].dump.name);
    if a.Unlink? { StageName(e, w, w.jobs[a.id].dump, w.jobs[a.id].stage); }
  }

  lemma MoveChangesOne(e: Env, w: World, id: Id, stage: Stage, change: FileChange, looks: map<string, Looks>, name: string)
    requires IsWorking(w, id) && (change.Change? ==> change.name == name)
    ensures SameButOne(e, w, Moved(e, w, id, stage, change, looks), w.jobs[id].dump.name, name)
  {
  }

  lemma MoveUntouched(e: Env, w: World, a: Action, b: string)
    requires Inv(e, w) && Enabled(e, w, a) && IsMove(a) && b in w.used && b != w.jobs[a.id].dump.name
    ensures Untouched(e, w, Apply(e, w, a), b)
  {
    hide Inv, Untouched, SameButOne, StageAfter, FileAfter, FileOf, EngineName, Moved;
    var d := w.jobs[a.id].dump;
    JobFacts(e, w, a.id);
    UsedName(e, w, b);
    MovesOwnFile(e, w, a);
    var change := FileAfter(e, w, a);
    var name := if change.Change? then change.name else d.name;
    DumpFiles(d.name);
    MoveChangesOne(e, w, a.id, StageAfter(e, w, a), change, LooksAfter(w, a), name);
    OneFileUntouched(e, w, Apply(e, w, a), b, d.name, name);
  }

  /** The object a job puts is at a place where none was put before. */
  lemma PutIsNew(e: Env, w: World, id: Id)
    requires Inv(e, w) && Enabled(e, w, Put(id))
    ensures LocationOf(w.jobs[id].stage.target, w.driveNext) !in w.origins
  {
    var d, stage := w.jobs[id].dump, w.jobs[id].stage;
    var loc := LocationOf(stage.target, w.driveNext);
    JobFacts(e, w, id);
    if loc in w.origins && loc.S3Object? {
      KeyOfOne(loc.key, w.origins[loc], d.name);
    }
  }

  lemma PutUntouched(e: Env, w: World, id: Id, b: string)
    requires IsWorking(w, id) && w.jobs[id].stage.Aimed? && Path(e.storageDir, w.jobs[id].stage.name) in w.fs && b != w.jobs[id].dump.name
    requires LocationOf(w.jobs[id].stage.target, w.driveNext) !in w.origins
    ensures Untouched(e, w, ObjectPut(e, w, id), b)
  {
    hide FileOf, LocationOf;
  }

  lemma WriteDumpUntouched(e: Env, w: World, id: Id, d: Dump, b: string)
    requires EngineName(d.name) && EngineName(b) && b != d.name
    ensures Untouched(e, w, DumpWritten(e, w, id, d), b)
  {
    hide FileOf, EngineName, Untouched;
    DumpFiles(d.name);
    OneFileUntouched(e, w, DumpWritten(e, w, id, d), b, d.name, d.name);
  }

  lemma AdmitUntouched(e: Env, w: World, id: Id, b: string)
    requires IsWorking(w, id) && EngineName(w.jobs[id].dump.name) && EngineName(b) && b != w.jobs[id].dump.name
    ensures Untouched(e, w, DumpAdmitted(w, id), b)
  {
    hide FileOf, EngineName, Untouched;
    DumpFiles(w.jobs[id].dump.name);
    OneFileUntouched(e, w, DumpAdmitted(w, id), b, w.jobs[id].dump.name, w.jobs[id].dump.name);
  }

  lemma CompleteUntouched(e: Env, w: World, id: Id, b: string)
    requires IsWorking(w, id) && w.jobs[id].stage.Shipped?
    requires EngineName(w.jobs[id].dump.name) && EngineName(b) && b != w.jobs[id].dump.name
    ensures Untouched(e, w, RunRecorded(e, w, id), b)
  {
    hide FileOf, EngineName, Untouched, CompletedRow;
    DumpFiles(w.jobs[id].dump.name);
    OneFileUntouched(e, w, RunRecorded(e, w, id), b, w.jobs[id].dump.name, w.jobs[id].dump.name);
  }

  lemma LocalDeletionUntouched(e: Env, w: World, id: Id, b: string)
    requires Inv(e, w) && id in w.rows && EngineName(b) && (id in w.bases ==> b != w.bases[id])
    ensures Untouched(e, w, LocalDeleted(w, id), b)
  {
    hide Inv, EngineName, FileOf, Untouched;
    var r := w.rows[id];
    RowFacts(e, w, id);
    var w' := LocalDeleted(w, id);
    if r.filePath.Some? {
      DumpFiles(w.bases[id]);
      OneFileUntouched(e, w, w', b, w.bases[id], r.fileName);
    } else {
      SameStoreUntouched(e, w, w', b);
    }
  }

  /** A deletion looks where the settings point now; if there is an object, it is the row's own. */
  lemma DeletedObject(e: Env, w: World, id: Id)
    requires Inv(e, w) && id in w.rows && w.rows[id].remote.Some?
    ensures var at := Located(e, w.settings, w.rows[id].remote.value);
            at.Some? && at.value in w.origins ==>
              id in w.homes && at.value == w.homes[id] && id in w.bases && w.origins[at.value] == w.bases[id]
  {
    RowFacts(e, w, id);
    var at := Located(e, w.settings, w.rows[id].remote.value);
    if at.Some? && at.value in w.origins {
      RecordsApart(w, at.value, w.homes[id]);
    }
  }

  lemma RemoteDeletionUntouched(e: Env, w: World, id: Id, b: string)
    requires Inv(e, w) && id in w.rows && (id in w.bases ==> b != w.bases[id])
    ensures Untouched(e, w, RemoteDeleted(e, w, id), b)
  {
    hide Inv, Located, FileOf, Untouched;
    var at := DeletionTarget(e, w.settings, w.rows[id]);
    if w.rows[id].remote.Some? { DeletedObject(e, w, id); }
    assert at.Some? && at.value in w.origins ==> w.origins[at.value] != b;
    hide DeletionTarget;
    WithoutObjectUntouched(e, w, RemoteDeleted(e, w, id), at, b);
  }

  lemma WithoutObjectUntouched(e: Env, w: World, w': World, at: Option<Location>, b: string)
    requires SameBooks(w, w') && w'.fs == w.fs && w'.remote == WithoutObject(w.remote, at)
    requires at.Some? && at.value in w.origins ==> w.origins[at.value] != b
    ensures Untouched(e, w, w', b)
  {
    hide FileOf;
  }

  lemma RowActionUntouched(e: Env, w: World, a: Action, b: string)
    ensures Untouched(e, w, RowsChanged(w, a), b)
  {
    hide Untouched, RowsAfter, JobsAfter;
    SameStoreUntouched(e, w, RowsChanged(w, a), b);
  }

  lemma SaveUntouched(e: Env, w: World, req: SettingsRequest, b: string)
    ensures Untouched(e, w, SettingsSaved(w, req), b)
  {
    hide Updated, Untouched;
    SameStoreUntouched(e, w, SettingsSaved(w, req), b);
  }

  lemma TempUntouched(e: Env, w: World, fs: map<Path, Bytes>, b: string)
    requires forall p: Path :: p.dir == e.storageDir ==> (p in w.fs <==> p in fs) && (p in w.fs ==> fs[p] == w.fs[p])
    ensures Untouched(e, w, w.(fs := fs), b)
  {
  }

  /** Whatever an action is not about, it leaves alone. */
  lemma ActionUntouched(e: Env, w: World, a: Action, b: string)
    requires Inv(e, w) && Enabled(e, w, a) && b in w.used && b !in Touched(w, a)
    ensures Untouched(e, w, Apply(e, w, a), b)
  {
    hide Inv, Untouched, ObjectPut, RunRecorded, DumpWritten, DumpAdmitted, LocalDeleted, RemoteDeleted,
         SettingsSaved, RowsChanged, Moved, StageAfter, FileAfter, EngineName, FileOf;
    UsedName(e, w, b);
    if IsJobAction(a) && !a.WriteDump? { EnabledWorking(e, w, a); JobFacts(e, w, a.id); hide Standing, Holding; }
    if IsMove(a) { MoveUntouched(e, w, a, b); }
    else if a.WriteDump? { WriteDumpUntouched(e, w, a.id, a.dump, b); }
    else if a.Put? { PutIsNew(e, w, a.id); PutUntouched(e, w, a.id, b); }
    else if a.Admit? { AdmitUntouched(e, w, a.id, b); }
    else if a.Complete? { CompleteUntouched(e, w, a.id, b); }
    else if a.DeleteLocal? { LocalDeletionUntouched(e, w, a.id, b); }
    else if a.DeleteRemote? { RemoteDeletionUntouched(e, w, a.id, b); }
    else if IsRowAction(a) { RowActionUntouched(e, w, a, b); }
    else if a.SaveSettings? { SaveUntouched(e, w, a.req, b); }
    else { TempUntouched(e, w, Apply(e, w, a).fs, b); }
  }

  // ── What a move has secured ──

  lemma PlainIsCopy(e: Env, w: World, d: Dump)
    requires EngineName(d.name) && PlainThere(e, w, d)
    ensures CopyOnDisk(e, w, d, d.name)
  {
  }

  lemma SealedIsCopy(e: Env, w: World, d: Dump, pass: string)
    requires SealedThere(e, w, d, pass)
    ensures CopyOnDisk(e, w, d, d.name + ENC)
  {
    SuffixShows(d.name, ENC);
  }

  lemma StandingMoves(e: Env, w: World, a: Action)
    requires Enabled(e, w, a) && IsMove(a) && Standing(w, w.jobs[a.id].dump, w.jobs[a.id].stage)
    ensures Standing(Apply(e, w, a), w.jobs[a.id].dump, StageAfter(e, w, a))
  {
    hide FileAfter, DecryptsBack;
  }

  /** A move's disk, seen from one file name. */
  lemma FileAfterAt(e: Env, fs: map<Path, Bytes>, c: FileChange, name: string)
    ensures var p, fs' := Path(e.storageDir, name), Changed(e, fs, c);
            if c.Change? && c.name == name then (if c.bytes.Some? then p in fs' && fs'[p] == c.bytes.value else p !in fs')
            else (p in fs' <==> p in fs) && (p in fs ==> fs'[p] == fs[p])
  {
  }

  lemma RejectOrChooseHolds(e: Env, w: World, a: Action)
    requires Inv(e, w) && Enabled(e, w, a) && (a.Reject? || a.Choose?)
    ensures Holding(e, Apply(e, w, a), w.jobs[a.id].dump, StageAfter(e, w, a))
  {
    var d := w.jobs[a.id].dump;
    JobFacts(e, w, a.id);
    if a.Choose? {
      assert w.settings.Some? && w.settings.value.passphrase.Some? ==> w.settings.value.passphrase.value in w.everCurrent;
      hide Inv;
      PlainIsCopy(e, w, d);
    }
  }

  lemma SealingHolds(e: Env, w: World, a: Action)
    requires EnvOk(e) && Inv(e, w) && Enabled(e, w, a) && (a.Encrypt? || a.DecryptBack? || a.Compare? || a.GiveUp?)
    ensures Holding(e, Apply(e, w, a), w.jobs[a.id].dump, StageAfter(e, w, a))
  {
    hide Inv, Unseal, FileOf, Standing, Changed;
    var d := w.jobs[a.id].dump;
    JobFacts(e, w, a.id);
    DumpFiles(d.name);
    var c := FileAfter(e, w, a);
    FileAfterAt(e, w.fs, c, d.name);
    FileAfterAt(e, w.fs, c, d.name + ENC);
    FileAfterAt(e, w.fs, c, d.name + ENC + VERIFY);
    PlainIsCopy(e, w, d);
    hide EngineName;
    var w' := Apply(e, w, a);
    assert PlainThere(e, w', d);
  }

  lemma RemovePlainHolds(e: Env, w: World, a: Action)
    requires Inv(e, w) && Enabled(e, w, a) && a.RemovePlain?
    ensures Holding(e, Apply(e, w, a), w.jobs[a.id].dump, StageAfter(e, w, a))
  {
    hide Inv, Unseal, FileOf, Standing, Changed, CopyOnDisk;
    var d := w.jobs[a.id].dump;
    JobFacts(e, w, a.id);
    DumpFiles(d.name);
    FileAfterAt(e, w.fs, FileAfter(e, w, a), d.name + ENC);
    SealedIsCopy(e, Apply(e, w, a), d, w.jobs[a.id].stage.pass);
  }

  lemma AimedKey(d: Dump, name: string)
    requires NameOf(d, name)
    ensures forall prefix :: KeyOf(S3Key(prefix, name), d.name)
  {
  }

  lemma RouteHolds(e: Env, w: World, a: Action)
    requires Inv(e, w) && Enabled(e, w, a) && a.Route?
    ensures Holding(e, Apply(e, w, a), w.jobs[a.id].dump, StageAfter(e, w, a))
  {
    hide Inv, FileOf, Standing, Changed, Holds, KeyOf, LooksAfter;
    var d, stage := w.jobs[a.id].dump, w.jobs[a.id].stage;
    JobFacts(e, w, a.id);
    StageName(e, w, d, stage);
    FileAfterAt(e, w.fs, FileAfter(e, w, a), stage.name);
    hide EngineName;
  }

  lemma AimHolds(e: Env, w: World, a: Action)
    requires Inv(e, w) && Enabled(e, w, a) && a.Aim?
    ensures Holding(e, Apply(e, w, a), w.jobs[a.id].dump, StageAfter(e, w, a))
  {
    hide Inv, FileOf, Standing, Changed, Holds, KeyOf, LooksAfter;
    var d, stage := w.jobs[a.id].dump, w.jobs[a.id].stage;
    JobFacts(e, w, a.id);
    StageName(e, w, d, stage);
    FileAfterAt(e, w.fs, FileAfter(e, w, a), stage.name);
    AimedKey(d, stage.name);
    hide EngineName;
  }

  lemma UploadHolds(e: Env, w: World, a: Action)
    requires Inv(e, w) && Enabled(e, w, a) && (a.LoseUpload? || a.Unlink?)
    ensures Holding(e, Apply(e, w, a), w.jobs[a.id].dump, StageAfter(e, w, a))
  {
    hide Inv, FileOf, Standing, Changed, Holds, KeyOf, LooksAfter;
    var d, stage := w.jobs[a.id].dump, w.jobs[a.id].stage;
    JobFacts(e, w, a.id);
    StageName(e, w, d, stage);
    FileAfterAt(e, w.fs, FileAfter(e, w, a), stage.name);
    hide EngineName;
  }

  lemma JobIs(e: Env, w: World, job: Job)
    requires job.Working? && job.dump.name in w.used && Standing(w, job.dump, job.stage) && Holding(e, w, job.dump, job.stage)
    ensures JobOk(e, w, job)
  {
  }

  lemma MoveOk(e: Env, w: World, a: Action)
    requires EnvOk(e) && Inv(e, w) && Enabled(e, w, a) && IsMove(a)
    ensures a.id in Apply(e, w, a).jobs && JobOk(e, Apply(e, w, a), Apply(e, w, a).jobs[a.id])
  {
    hide Inv, Standing, Holding, StageAfter, FileAfter, JobOk, EnvOk;
    JobFacts(e, w, a.id);
    StandingMoves(e, w, a);
    if a.Reject? || a.Choose? { RejectOrChooseHolds(e, w, a); }
    else if a.RemovePlain? { RemovePlainHolds(e, w, a); }
    else if a.Route? { RouteHolds(e, w, a); }
    else if a.Aim? { AimHolds(e, w, a); }
    else if a.LoseUpload? || a.Unlink? { UploadHolds(e, w, a); }
    else { SealingHolds(e, w, a); }
    JobIs(e, Apply(e, w, a), Apply(e, w, a).jobs[a.id]);
  }

  lemma WriteDumpOk(e: Env, w: World, id: Id, d: Dump)
    requires NamesOk(w) && OriginsOk(w) && d.name !in w.used && EngineName(d.name)
    ensures JobOk(e, DumpWritten(e, w, id, d), Working(d, Dumped))
  {
    forall loc | loc in w.origins ensures w.origins[loc] != d.name {}
  }

  lemma AdmitOk(e: Env, w: World, id: Id)
    requires Inv(e, w) && IsWorking(w, id) && w.jobs[id].stage.Dumped?
    ensures JobOk(e, DumpAdmitted(w, id), Working(w.jobs[id].dump, Admitted))
  {
    hide Inv;
    JobFacts(e, w, id);
  }

  lemma PutOk(e: Env, w: World, id: Id)
    requires Inv(e, w) && Enabled(e, w, Put(id))
    ensures var w' := ObjectPut(e, w, id); JobOk(e, w', w'.jobs[id])
  {
    hide Inv, Apply, FileOf, KeyOf;
    JobFacts(e, w, id);
  }

  /** What the worker records is restorable: its program has seen to it. */
  lemma CompleteOk(e: Env, w: World, id: Id)
    requires Inv(e, w) && Enabled(e, w, Complete(id))
    ensures var w' := RunRecorded(e, w, id);
            JobOk(e, w', w'.jobs[id]) && RowOk(e, w', id) && Restorable(e, w', id)
  {
    hide Inv, Apply, FileOf, KeyOf;
    JobFacts(e, w, id);
  }

  lemma OwnJobOk(e: Env, w: World, a: Action)
    requires EnvOk(e) && Inv(e, w) && Enabled(e, w, a) && IsJobAction(a)
    ensures a.id in Apply(e, w, a).jobs && JobOk(e, Apply(e, w, a), Apply(e, w, a).jobs[a.id])
  {
    hide Inv, Apply, JobOk, EnvOk, StageAfter, FileAfter, RowOk, Restorable,
         ObjectPut, RunRecorded, DumpWritten, DumpAdmitted, NamesOk, OriginsOk, PassphrasesOk, Moved;
    if IsMove(a) {
      MoveOk(e, w, a);
    } else if a.Put? {
      PutOk(e, w, a.id);
      PutIs(e, w, a);
    } else if a.Complete? {
      CompleteOk(e, w, a.id);
      RecordedIs(e, w, a);
    } else if a.Admit? {
      AdmitOk(e, w, a.id);
      AdmitIs(e, w, a);
    } else {
      InvNames(e, w);
      WriteDumpOk(e, w, a.id, a.dump);
      WrittenIs(e, w, a);
    }
  }

  /** From admission to the record, whatever the stage, a copy of the dump is stored. */
  lemma StageHasCopy(e: Env, w: World, d: Dump, stage: Stage)
    requires EngineName(d.name) && Standing(w, d, stage) && Holding(e, w, d, stage)
    requires !stage.Dumped? && !stage.Rejected? && !stage.Recorded?
    ensures d.name in w.admitted && d == Dump(d.name, w.admitted[d.name]) && CopyStored(e, w, d)
  {
    if stage.Admitted? || stage.Sealing? || stage.Verified? { PlainIsCopy(e, w, d); }
    hide CopyOnDisk, CopyRemote, EngineName;
  }

  // ── All of the invariant ──

  /** What no action but a settings change does to the passphrases. */
  lemma SettingsKept(e: Env, w: World, a: Action)
    requires Enabled(e, w, a) && !a.SaveSettings?
    ensures Apply(e, w, a).settings == w.settings && Apply(e, w, a).everCurrent == w.everCurrent
  {
    hide Moved, RowsChanged, DumpWritten, DumpAdmitted, ObjectPut, RunRecorded, LocalDeleted, RemoteDeleted, StageAfter, FileAfter, LooksAfter;
  }

  lemma PassphrasesSaved(w: World, req: SettingsRequest)
    requires PassphrasesOk(w) && Updated(w.settings, req).Ok?
    ensures PassphrasesOk(SettingsSaved(w, req))
  {
    UpdateKeepsPassphrases(w.settings, req);
    var s := Updated(w.settings, req).value;
    UpdatedEncryption(w.settings, req);
    CurrentIsKey(s);
    hide Updated, Keys;
  }

  lemma CurrentIsKey(s: Settings)
    ensures s.passphrase.Some? ==> s.passphrase.value in Keys(Some(s))
  {
    if s.passphrase.Some? { assert Candidates(Some(s))[0] == s.passphrase.value; }
  }

  lemma UpdatedEncryption(stored: Option<Settings>, req: SettingsRequest)
    requires Updated(stored, req).Ok?
    requires stored.Some? && stored.value.encryptionEnabled ==> stored.value.passphrase.Some?
    ensures var s := Updated(stored, req).value; s.encryptionEnabled ==> s.passphrase.Some?
  {
  }

  lemma PassphrasesKept(e: Env, w: World, a: Action)
    requires PassphrasesOk(w) && Enabled(e, w, a)
    ensures PassphrasesOk(Apply(e, w, a))
  {
    hide PassphrasesOk;
    if a.SaveSettings? {
      if Updated(w.settings, a.req).Ok? { PassphrasesSaved(w, a.req); }
    } else {
      hide Apply, Enabled;
      SettingsKept(e, w, a);
      SamePassphrases(w, Apply(e, w, a));
    }
  }

  lemma SamePassphrases(w: World, w': World)
    requires PassphrasesOk(w) && w'.settings == w.settings && w'.everCurrent == w.everCurrent
    ensures PassphrasesOk(w')
  {
  }

  /** The running jobs' dumps: as before, but for a new one. */
  ghost predicate SameDumps(w: World, w': World) {
    forall id :: id in w'.jobs && w'.jobs[id].Working? ==> IsWorking(w, id) && w'.jobs[id].dump == w.jobs[id].dump
  }

  lemma UsedAfter(e: Env, w: World, a: Action)
    requires Enabled(e, w, a)
    ensures Apply(e, w, a).used == if a.WriteDump? then w.used + {a.dump.name} else w.used
  {
    hide Moved, RowsChanged, DumpWritten, DumpAdmitted, ObjectPut, RunRecorded, LocalDeleted, RemoteDeleted, SettingsSaved, StageAfter, FileAfter, LooksAfter, WithoutDir;
  }

  lemma AdmittedAfter(e: Env, w: World, a: Action)
    requires Enabled(e, w, a)
    ensures if a.Admit? then IsWorking(w, a.id) && Apply(e, w, a).admitted == w.admitted[w.jobs[a.id].dump.name := w.jobs[a.id].dump.bytes]
            else Apply(e, w, a).admitted == w.admitted
  {
    hide Moved, RowsChanged, DumpWritten, DumpAdmitted, ObjectPut, RunRecorded, LocalDeleted, RemoteDeleted, SettingsSaved, StageAfter, FileAfter, LooksAfter, WithoutDir;
  }

  lemma CompletedAfter(e: Env, w: World, a: Action)
    requires Enabled(e, w, a) && !a.Complete?
    ensures Apply(e, w, a).completed == w.completed && Apply(e, w, a).bases == w.bases
  {
    hide Moved, RowsChanged, DumpWritten, DumpAdmitted, ObjectPut, RunRecorded, LocalDeleted, RemoteDeleted, SettingsSaved, StageAfter, FileAfter, LooksAfter, WithoutDir;
  }

  lemma DumpsAfter(e: Env, w: World, a: Action)
    requires Enabled(e, w, a) && !a.WriteDump?
    ensures SameDumps(w, Apply(e, w, a))
  {
    hide Moved, RowsChanged, DumpAdmitted, ObjectPut, RunRecorded, LocalDeleted, RemoteDeleted, SettingsSaved, StageAfter, FileAfter, SameDumps;
    var w' := Apply(e, w, a);
    if IsJobAction(a) {
      EnabledWorking(e, w, a);
      OwnDumpStays(w, w', a.id);
    } else {
      OtherDumpsStay(w, w', a);
    }
  }

  lemma OwnDumpStays(w: World, w': World, id: Id)
    requires IsWorking(w, id) && w'.jobs.Keys == w.jobs.Keys && (forall j :: j in w.jobs && j != id ==> w'.jobs[j] == w.jobs[j])
    requires w'.jobs[id].Working? && w'.jobs[id].dump == w.jobs[id].dump
    ensures SameDumps(w, w')
  {
  }

  lemma OtherDumpsStay(w: World, w': World, a: Action)
    requires w'.jobs == w.jobs || w'.jobs == JobsAfter(w.jobs, a)
    ensures SameDumps(w, w')
  {
  }

  lemma ObjectsAfter(e: Env, w: World, a: Action)
    requires Enabled(e, w, a) && !a.Put?
    ensures Apply(e, w, a).origins == w.origins && Apply(e, w, a).driveNext == w.driveNext
  {
    hide Moved, RowsChanged, DumpWritten, DumpAdmitted, ObjectPut, RunRecorded, LocalDeleted, RemoteDeleted, SettingsSaved, StageAfter, FileAfter, LooksAfter, WithoutDir;
  }

  lemma ObjectsShrink(e: Env, w: World, a: Action)
    requires Enabled(e, w, a) && !a.Put?
    ensures Apply(e, w, a).remote.Keys <= w.remote.Keys
  {
    hide Moved, RowsChanged, DumpWritten, DumpAdmitted, ObjectPut, RunRecorded, LocalDeleted, RemoteDeleted, SettingsSaved, StageAfter, FileAfter, LooksAfter, WithoutDir;
  }

  lemma NamesStay(w: World, w': World)
    requires NamesOk(w) && SameDumps(w, w') && w'.used == w.used && w'.completed == w.completed && w'.bases == w.bases
    requires w'.admitted.Keys <= w.used
    ensures NamesOk(w')
  {
  }

  lemma NamesWritten(e: Env, w: World, id: Id, d: Dump)
    requires NamesOk(w) && d.name !in w.used && EngineName(d.name)
    requires forall j :: IsWorking(w, j) ==> w.jobs[j].dump.name in w.used
    ensures NamesOk(DumpWritten(e, w, id, d))
  {
    hide EngineName;
  }

  lemma NamesRecorded(e: Env, w: World, id: Id)
    requires NamesOk(w) && IsWorking(w, id) && w.jobs[id].stage.Shipped?
    requires w.jobs[id].dump.name in w.used && w.jobs[id].dump.name !in w.completed
    ensures NamesOk(RunRecorded(e, w, id))
  {
    hide EngineName, CompletedRow;
  }

  lemma NamesKept(e: Env, w: World, a: Action)
    requires Inv(e, w) && Enabled(e, w, a)
    ensures NamesOk(Apply(e, w, a))
  {
    hide Inv, NamesOk, OriginsOk, PassphrasesOk, EngineName, Holding, SameDumps, DumpWritten, RunRecorded, Apply;
    InvNames(e, w);
    if a.WriteDump? {
      forall j | IsWorking(w, j) ensures w.jobs[j].dump.name in w.used { JobFacts(e, w, j); }
      NamesWritten(e, w, a.id, a.dump);
      assert Apply(e, w, a) == DumpWritten(e, w, a.id, a.dump) by { WrittenIs(e, w, a); }
    } else if a.Complete? {
      JobFacts(e, w, a.id);
      NamesRecorded(e, w, a.id);
      assert Apply(e, w, a) == RunRecorded(e, w, a.id) by { RecordedIs(e, w, a); }
    } else {
      if a.Admit? { JobFacts(e, w, a.id); }
      hide Standing, Enabled;
      UsedAfter(e, w, a);
      AdmittedAfter(e, w, a);
      CompletedAfter(e, w, a);
      DumpsAfter(e, w, a);
      NamesStay(w, Apply(e, w, a));
    }
  }

  lemma RowsIs(e: Env, w: World, a: Action)
    requires Enabled(e, w, a) && IsRowAction(a)
    ensures Apply(e, w, a) == RowsChanged(w, a)
  {
    hide Moved, RowsChanged, SettingsSaved, DumpWritten, DumpAdmitted, ObjectPut, RunRecorded, LocalDeleted, RemoteDeleted, StageAfter, FileAfter, LooksAfter, WithoutDir;
  }

  lemma SavedIs(e: Env, w: World, a: Action)
    requires Enabled(e, w, a) && a.SaveSettings?
    ensures Apply(e, w, a) == SettingsSaved(w, a.req)
  {
    hide Moved, RowsChanged, SettingsSaved, DumpWritten, DumpAdmitted, ObjectPut, RunRecorded, LocalDeleted, RemoteDeleted, StageAfter, FileAfter, LooksAfter, WithoutDir;
  }

  lemma LocalIs(e: Env, w: World, a: Action)
    requires Enabled(e, w, a) && a.DeleteLocal?
    ensures Apply(e, w, a) == LocalDeleted(w, a.id)
  {
    hide Moved, RowsChanged, SettingsSaved, DumpWritten, DumpAdmitted, ObjectPut, RunRecorded, LocalDeleted, RemoteDeleted, StageAfter, FileAfter, LooksAfter, WithoutDir;
  }

  lemma RemoteIs(e: Env, w: World, a: Action)
    requires Enabled(e, w, a) && a.DeleteRemote?
    ensures Apply(e, w, a) == RemoteDeleted(e, w, a.id)
  {
    hide Moved, RowsChanged, SettingsSaved, DumpWritten, DumpAdmitted, ObjectPut, RunRecorded, LocalDeleted, RemoteDeleted, StageAfter, FileAfter, LooksAfter, WithoutDir;
  }

  lemma TempIs(e: Env, w: World, a: Action)
    requires Enabled(e, w, a) && (a.WriteTemp? || a.EraseTemp?)
    ensures Apply(e, w, a) == w.(fs := if a.WriteTemp? then w.fs[a.path := a.bytes] else WithoutDir(w.fs, a.dir))
  {
    hide Moved, RowsChanged, SettingsSaved, DumpWritten, DumpAdmitted, ObjectPut, RunRecorded, LocalDeleted, RemoteDeleted, StageAfter, FileAfter, LooksAfter, WithoutDir;
  }

  lemma WrittenIs(e: Env, w: World, a: Action)
    requires Enabled(e, w, a) && a.WriteDump?
    ensures Apply(e, w, a) == DumpWritten(e, w, a.id, a.dump)
  {
    hide Moved, RowsChanged, SettingsSaved, DumpWritten, DumpAdmitted, ObjectPut, RunRecorded, LocalDeleted, RemoteDeleted, StageAfter, FileAfter, LooksAfter, WithoutDir;
  }

  lemma RecordedIs(e: Env, w: World, a: Action)
    requires Enabled(e, w, a) && a.Complete?
    ensures Apply(e, w, a) == RunRecorded(e, w, a.id)
  {
    hide Moved, RowsChanged, SettingsSaved, DumpWritten, DumpAdmitted, ObjectPut, RunRecorded, LocalDeleted, RemoteDeleted, StageAfter, FileAfter, LooksAfter, WithoutDir;
  }

  lemma InvNames(e: Env, w: World)
    requires Inv(e, w)
    ensures NamesOk(w) && OriginsOk(w) && PassphrasesOk(w) && w.admitted.Keys <= w.used && w.completed <= w.used
  {
  }

  lemma OriginsStay(w: World, w': World)
    requires OriginsOk(w) && w'.origins == w.origins && w'.driveNext == w.driveNext && w.used <= w'.used
    requires w'.remote.Keys <= w.remote.Keys
    ensures OriginsOk(w')
  {
    hide KeyOf;
  }

  lemma OriginsPut(w: World, w': World, loc: Location, b: string)
    requires OriginsOk(w) && loc !in w.origins && NotPut(w, b) && b in w.used
    requires (loc.S3Object? ==> KeyOf(loc.key, b)) && (loc.DriveFile? ==> loc.file == w.driveNext < w'.driveNext)
    requires w'.origins == w.origins[loc := b] && w'.remote.Keys == w.remote.Keys + {loc} && w'.used == w.used && w.driveNext <= w'.driveNext
    ensures OriginsOk(w')
  {
    hide KeyOf, EngineName;
  }

  lemma OriginsPutBy(e: Env, w: World, id: Id)
    requires Inv(e, w) && Enabled(e, w, Put(id))
    ensures OriginsOk(ObjectPut(e, w, id))
  {
    PutIsNew(e, w, id);
    JobFacts(e, w, id);
    hide Inv, KeyOf, EngineName, OriginsOk, CopyOnDisk, NotPut;
    OriginsPut(w, ObjectPut(e, w, id), LocationOf(w.jobs[id].stage.target, w.driveNext), w.jobs[id].dump.name);
  }

  lemma OriginsKept(e: Env, w: World, a: Action)
    requires Inv(e, w) && Enabled(e, w, a)
    ensures OriginsOk(Apply(e, w, a))
  {
    hide Inv, Apply, NamesOk, OriginsOk, PassphrasesOk, ObjectPut;
    InvNames(e, w);
    if a.Put? {
      OriginsPutBy(e, w, a.id);
      PutIs(e, w, a);
    } else {
      UsedAfter(e, w, a);
      ObjectsAfter(e, w, a);
      ObjectsShrink(e, w, a);
      hide Enabled;
      OriginsStay(w, Apply(e, w, a));
    }
  }

  lemma PutIs(e: Env, w: World, a: Action)
    requires Enabled(e, w, a) && a.Put?
    ensures Apply(e, w, a) == ObjectPut(e, w, a.id)
  {
    hide Moved, RowsChanged, SettingsSaved, DumpWritten, DumpAdmitted, ObjectPut, RunRecorded, LocalDeleted, RemoteDeleted, StageAfter, FileAfter, LooksAfter, WithoutDir;
  }

  lemma RowStays(e: Env, w: World, w': World, id: Id)
    requires id in w.rows && RowOk(e, w, id) && id in w'.rows && w'.rows[id] == w.rows[id].(status := w'.rows[id].status)
    requires id in w.bases ==> id in w'.bases && w'.bases[id] == w.bases[id]
    requires id in w.homes ==> id in w'.homes && w'.homes[id] == w.homes[id]
    requires forall loc :: loc in w.origins ==> loc in w'.origins && w'.origins[loc] == w.origins[loc]
    ensures RowOk(e, w', id)
  {
  }

  lemma RowsAre(e: Env, w: World, a: Action)
    requires Enabled(e, w, a) && !a.Complete?
    ensures Apply(e, w, a).rows == if IsRowAction(a) then RowsAfter(w.rows, a) else w.rows
  {
    hide Moved, RowsChanged, DumpWritten, DumpAdmitted, ObjectPut, LocalDeleted, RemoteDeleted, SettingsSaved, StageAfter, FileAfter,
         RowsAfter, WithoutDir;
  }

  lemma RunsAre(e: Env, w: World, a: Action)
    requires Enabled(e, w, a) && !a.Complete?
    ensures Apply(e, w, a).bases == w.bases && Apply(e, w, a).homes == w.homes && Apply(e, w, a).dumps == w.dumps
  {
    hide Moved, RowsChanged, DumpWritten, DumpAdmitted, ObjectPut, LocalDeleted, RemoteDeleted, SettingsSaved, StageAfter, FileAfter, LooksAfter, WithoutDir;
  }

  /** Rows keep what they say of their artifact until a run is recorded for them. */
  lemma RowsFrom(e: Env, w: World, a: Action, id: Id)
    requires Enabled(e, w, a) && id in Apply(e, w, a).rows && !(a.Complete? && a.id == id)
    ensures var w' := Apply(e, w, a);
            || (a.Trigger? && a.id == id && w'.rows[id] == Row(Pending, "pending", None, None))
            || (id in w.rows && w'.rows[id] == w.rows[id].(status := w'.rows[id].status)
                && (w'.rows[id].status == Completed ==> w.rows[id].status == Completed))
    ensures var w' := Apply(e, w, a);
            && (id in w.bases ==> id in w'.bases && w'.bases[id] == w.bases[id])
            && (id in w.homes ==> id in w'.homes && w'.homes[id] == w.homes[id])
            && (id in w.dumps ==> id in w'.dumps && w'.dumps[id] == w.dumps[id])
  {
    hide Apply, CompletedRow;
    if a.Complete? {
      RecordedIs(e, w, a);
    } else {
      RowsAre(e, w, a);
      RunsAre(e, w, a);
    }
  }

  lemma RowKept(e: Env, w: World, a: Action, id: Id)
    requires Inv(e, w) && Enabled(e, w, a) && id in Apply(e, w, a).rows
    ensures RowOk(e, Apply(e, w, a), id)
  {
    hide Inv, Apply, RowOk, RunRecorded;
    if a.Complete? && a.id == id {
      CompleteOk(e, w, id);
      RecordedIs(e, w, a);
    } else {
      RowsFrom(e, w, a, id);
      OriginsGrow(e, w, a);
      var w' := Apply(e, w, a);
      hide Enabled;
      if id in w.rows { RowFacts(e, w, id); }
      if a.Trigger? && a.id == id { NewRowOk(e, w', id); } else { RowStays(e, w, w', id); }
    }
  }

  lemma NewRowOk(e: Env, w: World, id: Id)
    requires id in w.rows && w.rows[id] == Row(Pending, "pending", None, None)
    ensures RowOk(e, w, id)
  {
  }

  lemma OriginsGrow(e: Env, w: World, a: Action)
    requires Inv(e, w) && Enabled(e, w, a)
    ensures forall loc :: loc in w.origins ==> loc in Apply(e, w, a).origins && Apply(e, w, a).origins[loc] == w.origins[loc]
  {
    hide Moved, RowsChanged, DumpWritten, DumpAdmitted, RunRecorded, LocalDeleted, RemoteDeleted,
         SettingsSaved, StageAfter, FileAfter, NamesOk, OriginsOk, Inv, LocationOf;
    if a.Put? { PutIsNew(e, w, a.id); }
  }

  /** A job of the new state is the action's own, a new one, or as it was. */
  lemma JobsFrom(e: Env, w: World, a: Action, id: Id)
    requires Enabled(e, w, a) && id in Apply(e, w, a).jobs && !(IsJobAction(a) && id == a.id)
    ensures Apply(e, w, a).jobs[id].Begun? || (id in w.jobs && Apply(e, w, a).jobs[id] == w.jobs[id])
  {
    hide Moved, RowsChanged, DumpWritten, DumpAdmitted, ObjectPut, RunRecorded, LocalDeleted, RemoteDeleted, SettingsSaved, StageAfter, FileAfter, LooksAfter, WithoutDir;
  }

  /** A job that has recorded its run only has books to keep. */
  lemma KeepsRecorded(e: Env, w: World, a: Action, job: Job)
    requires Inv(e, w) && Enabled(e, w, a) && JobOk(e, w, job) && job.Working? && job.stage.Recorded?
    ensures JobOk(e, Apply(e, w, a), job)
  {
    hide Apply, Enabled, Inv;
    AdmittedStays(e, w, a, job.dump.name);
  }

  lemma AdmittedStays(e: Env, w: World, a: Action, b: string)
    requires Inv(e, w) && Enabled(e, w, a) && b in w.admitted
    ensures b in Apply(e, w, a).admitted && Apply(e, w, a).admitted[b] == w.admitted[b]
    ensures w.used <= Apply(e, w, a).used
  {
    hide Inv, Apply, Holding;
    AdmittedAfter(e, w, a);
    UsedAfter(e, w, a);
    if a.Admit? { JobFacts(e, w, a.id); }
  }

  lemma JobKept(e: Env, w: World, a: Action, id: Id)
    requires EnvOk(e) && Inv(e, w) && Enabled(e, w, a) && id in Apply(e, w, a).jobs
    ensures JobOk(e, Apply(e, w, a), Apply(e, w, a).jobs[id])
  {
    if IsJobAction(a) && id == a.id {
      OwnJobOk(e, w, a);
    } else {
      JobsFrom(e, w, a, id);
      var job := Apply(e, w, a).jobs[id];
      if job.Working? {
        hide Apply, JobOk, Untouched;
        assert JobOk(e, w, job);
        JobFacts(e, w, id);
        if job.stage.Recorded? {
          KeepsRecorded(e, w, a, job);
        } else {
          OtherJob(e, w, a, id);
          hide Inv;
          ActionUntouched(e, w, a, job.dump.name);
          KeepsJob(e, w, Apply(e, w, a), job);
        }
      }
    }
  }

  /** No action is about another running job's dump. */
  lemma OtherJob(e: Env, w: World, a: Action, id: Id)
    requires Inv(e, w) && Enabled(e, w, a) && IsWorking(w, id) && !w.jobs[id].stage.Recorded?
    requires !(IsJobAction(a) && id == a.id)
    ensures w.jobs[id].dump.name !in Touched(w, a)
  {
    JobFacts(e, w, id);
    hide Holding, Restorable, CopyStored, RowOk, JobOk;
  }

  lemma LiveKept(e: Env, w: World, a: Action, id: Id)
    requires Inv(e, w) && Enabled(e, w, a) && Live(Apply(e, w, a), id)
    ensures Restorable(e, Apply(e, w, a), id)
  {
    if a.Complete? && a.id == id {
      CompleteOk(e, w, id);
    } else {
      RowsFrom(e, w, a, id);
      DeletingKept(e, w, a);
      assert Live(w, id) && Restorable(e, w, id);
      RowFacts(e, w, id);
      OtherRow(e, w, a, id);
      hide Inv, Untouched, Restorable, RowOk;
      RestorableHasBase(e, w, id);
      ActionUntouched(e, w, a, w.bases[id]);
      hide Apply;
      KeepsRestorable(e, w, Apply(e, w, a), id);
    }
  }

  lemma RestorableHasBase(e: Env, w: World, id: Id)
    requires id in w.rows && Restorable(e, w, id)
    ensures id in w.bases && id in w.dumps
  {
  }

  lemma DeletingKept(e: Env, w: World, a: Action)
    requires Enabled(e, w, a)
    ensures w.deleting <= Apply(e, w, a).deleting
    ensures a.DeleteLocal? || a.DeleteRemote? ==> a.id in Apply(e, w, a).deleting
  {
    hide Moved, RowsChanged, DumpWritten, DumpAdmitted, ObjectPut, RunRecorded, LocalDeleted, RemoteDeleted, SettingsSaved, StageAfter, FileAfter, LooksAfter, WithoutDir;
  }

  /** Only the deletion of its artifact is about a live row's dump. */
  lemma OtherRow(e: Env, w: World, a: Action, id: Id)
    requires Inv(e, w) && Enabled(e, w, a) && id in w.bases
    requires (a.DeleteLocal? || a.DeleteRemote?) ==> a.id != id
    ensures w.bases[id] !in Touched(w, a)
  {
    hide Holding, Restorable, CopyStored, RowOk;
    if IsJobAction(a) && !a.WriteDump? { JobFacts(e, w, a.id); }
  }

  /** After a job's action its job is still there, on the same dump. */
  lemma OwnJobStays(e: Env, w: World, a: Action)
    requires Enabled(e, w, a) && IsJobAction(a) && !a.WriteDump?
    ensures IsWorking(w, a.id) && IsWorking(Apply(e, w, a), a.id) && Apply(e, w, a).jobs[a.id].dump == w.jobs[a.id].dump
    ensures Apply(e, w, a).jobs[a.id].stage.Recorded? ==> w.jobs[a.id].dump.name in Apply(e, w, a).completed
  {
    hide Apply, Moved, DumpAdmitted, ObjectPut, RunRecorded, StageAfter, FileAfter;
    EnabledWorking(e, w, a);
    if IsMove(a) {
      MoveIs(e, w, a);
      MoveNotRecorded(e, w, a);
    } else if a.Put? {
      PutIs(e, w, a);
      PutUploads(e, w, a.id);
    } else if a.Complete? {
      RecordedIs(e, w, a);
      CompleteBooks(e, w, a.id);
    } else {
      AdmitIs(e, w, a);
    }
  }

  lemma MoveIs(e: Env, w: World, a: Action)
    requires Enabled(e, w, a) && IsMove(a)
    ensures IsWorking(w, a.id) && Apply(e, w, a) == Moved(e, w, a.id, StageAfter(e, w, a), FileAfter(e, w, a), LooksAfter(w, a))
  {
    hide Moved, RowsChanged, SettingsSaved, DumpWritten, DumpAdmitted, ObjectPut, RunRecorded, LocalDeleted, RemoteDeleted, StageAfter, FileAfter, LooksAfter, WithoutDir;
  }

  lemma AdmitIs(e: Env, w: World, a: Action)
    requires Enabled(e, w, a) && a.Admit?
    ensures Apply(e, w, a) == DumpAdmitted(w, a.id)
  {
    hide Moved, RowsChanged, SettingsSaved, DumpWritten, DumpAdmitted, ObjectPut, RunRecorded, LocalDeleted, RemoteDeleted, StageAfter, FileAfter, LooksAfter, WithoutDir;
  }

  lemma MoveNotRecorded(e: Env, w: World, a: Action)
    requires Enabled(e, w, a) && IsMove(a)
    ensures !StageAfter(e, w, a).Recorded?
  {
    hide DecryptsBack;
  }

  lemma PutUploads(e: Env, w: World, id: Id)
    requires Enabled(e, w, Put(id))
    ensures ObjectPut(e, w, id).jobs[id].stage.Uploaded?
  {
  }

  lemma CompleteBooks(e: Env, w: World, id: Id)
    requires Enabled(e, w, Complete(id))
    ensures w.jobs[id].dump.name in RunRecorded(e, w, id).completed
  {
    hide CompletedRow;
  }

  lemma PastAdmission(e: Env, w: World, id: Id)
    requires IsWorking(w, id) && JobOk(e, w, w.jobs[id])
    requires w.jobs[id].dump.name in w.admitted && w.jobs[id].dump.name !in w.completed
    ensures Standing(w, w.jobs[id].dump, w.jobs[id].stage) && Holding(e, w, w.jobs[id].dump, w.jobs[id].stage)
    ensures !w.jobs[id].stage.Dumped? && !w.jobs[id].stage.Rejected?
  {
  }

  lemma AdmittedBefore(e: Env, w: World, a: Action, b: string)
    requires Inv(e, w) && Enabled(e, w, a)
    requires b in Apply(e, w, a).admitted && b !in Apply(e, w, a).completed
    requires IsJobAction(a) && !a.WriteDump? ==> IsWorking(w, a.id) && b != w.jobs[a.id].dump.name
    ensures b in w.admitted && b !in w.completed && b in w.used && b !in Touched(w, a)
  {
    InvNames(e, w);
    AdmittedAfter(e, w, a);
    if a.Complete? { RecordedIs(e, w, a); } else { CompletedAfter(e, w, a); }
    hide Inv, Apply, OriginsOk, PassphrasesOk, EngineName;
  }

  lemma AdmittedKept(e: Env, w: World, a: Action, b: string)
    requires EnvOk(e) && Inv(e, w) && Enabled(e, w, a)
    requires b in Apply(e, w, a).admitted && b !in Apply(e, w, a).completed
    ensures CopyStored(e, Apply(e, w, a), Dump(b, Apply(e, w, a).admitted[b]))
  {
    hide Apply, Enabled, CopyStored, Untouched, Standing, Holding, JobOk, EngineName;
    var w' := Apply(e, w, a);
    if IsJobAction(a) && !a.WriteDump? { OwnJobStays(e, w, a); }
    if IsJobAction(a) && !a.WriteDump? && b == w.jobs[a.id].dump.name {
      OwnJobOk(e, w, a);
      PastAdmission(e, w', a.id);
      JobFacts(e, w, a.id);
      hide Inv;
      StageHasCopy(e, w', w'.jobs[a.id].dump, w'.jobs[a.id].stage);
    } else {
      AdmittedBefore(e, w, a, b);
      assert CopyStored(e, w, Dump(b, w.admitted[b]));
      ActionUntouched(e, w, a, b);
      hide Inv;
      KeepsLedger(e, w, w', b);
      KeepsCopy(e, w, w', Dump(b, w.admitted[b]));
    }
  }

  /** Every atomic change keeps every live backup restorable and a copy of every admitted dump. */
  lemma ApplyKeepsInv(e: Env, w: World, a: Action)
    requires EnvOk(e) && Inv(e, w) && Enabled(e, w, a)
    ensures Inv(e, Apply(e, w, a))
  {
    hide Apply, Enabled, EnvOk, NamesOk, OriginsOk, PassphrasesOk, RowOk, JobOk, Restorable, CopyStored;
    var w' := Apply(e, w, a);
    NamesKept(e, w, a);
    OriginsKept(e, w, a);
    InvNames(e, w);
    PassphrasesKept(e, w, a);
    forall id | id in w'.rows ensures RowOk(e, w', id) { RowKept(e, w, a, id); }
    forall id | id in w'.jobs ensures JobOk(e, w', w'.jobs[id]) { JobKept(e, w, a, id); }
    forall id | Live(w', id) ensures Restorable(e, w', id) { LiveKept(e, w, a, id); }
    forall b | b in w'.admitted && b !in w'.completed ensures CopyStored(e, w', Dump(b, w'.admitted[b])) { AdmittedKept(e, w, a, b); }
  }
}
