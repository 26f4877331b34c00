/**
 * The program's own order of steps: the settings handler, the backup job with its two-attempt
 * encryption and its upload, deletion, and the resolver. Every method is a sequence of actions of
 * BackupStore.dfy, so whatever these methods do is a run of that machine: `Valid` says so.
 *
 * A job calls `Yield` where it awaits: any number of other requests may run there.
 */
module BackupServer {
  import opened Prelude
  import opened BackupCrypto
  import opened BackupStore
  import opened BackupInvariant
  import opened BackupChoices
  import opened ArtifactResolver

  // ── What the outside world decides about one job ──

  /** One encryption attempt: what reaches the disk, and whether a step throws. */
  datatype Attempt =
    | Writes(salt: Salt, iv: Iv)
    | Corrupts(bytes: Bytes)
    | Breaks(partial: Bytes)
    | VerifyBreaks(salt: Salt, iv: Iv)

  /** `stays`: the file of a failed attempt cannot be removed. */
  datatype Try = Try(what: Attempt, stays: bool)

  datatype UploadFault = Uploads | UploadBreaks | ReplyLost

  /** The one step of a job, outside encryption and upload, that throws. */
  datatype Fault =
    | NoFault
    | QuotaReadFails
    | IntegrityReadFails
    | SettingsReadFails
    | PassphraseFails
    | HashFails
    | PlainStays
    | RecordFails
    | PublishFails

  datatype Script = Script(
    dump: Option<Dump>, overQuota: bool, first: Try, second: Try, upload: UploadFault, unlinkBreaks: bool, fault: Fault)

  /** `seen`, `route` and `aim` are the settings at the job's three looks at them. */
  datatype Outcome =
    | RowMissing
    | DumpFailed
    | NotChecked
    | OverQuota
    | Unrecorded(dump: Dump, seen: Option<Settings>)
    | Recorded(dump: Dump, row: Row, seen: Option<Settings>, route: Option<Settings>, aim: Option<Settings>)

  function OnDisk(g: Gcm, a: Attempt, pass: string, dump: Bytes): Bytes {
    match a
    case Writes(salt, iv) => Container(g, pass, salt, iv, dump)
    case VerifyBreaks(salt, iv) => Container(g, pass, salt, iv, dump)
    case Corrupts(bytes) => bytes
    case Breaks(partial) => partial
  }

  /** The encrypted copy on disk decrypts to the dump, and nothing throws on the way to seeing it. */
  predicate Verifies(g: Gcm, a: Attempt, pass: string, dump: Bytes) {
    (a.Writes? || a.Corrupts?) && Unseal(g, OnDisk(g, a, pass, dump), pass) == Ok(dump)
  }

  predicate Seals(g: Gcm, script: Script, dump: Dump, seen: Option<Settings>) {
    match AskedPassphrase(seen)
    case Some(pass) => Verifies(g, script.first.what, pass, dump.bytes) || Verifies(g, script.second.what, pass, dump.bytes)
    case None => false
  }

  /** The artifact name a job ends with, given the settings it saw when it came to encrypt. */
  function ArtifactName(g: Gcm, script: Script, dump: Dump, seen: Option<Settings>): string {
    if Seals(g, script, dump, seen) then dump.name + ENC else dump.name
  }

  /** Whether, past the quota check, one of the job's own steps ends it before the row is recorded. */
  predicate Stops(g: Gcm, script: Script, dump: Dump, seen: Option<Settings>) {
    match script.fault
    case IntegrityReadFails => true
    case SettingsReadFails => true
    case RecordFails => true
    case PassphraseFails => AskedPassphrase(seen).Some?
    case HashFails => AskedPassphrase(seen).Some?
    case PlainStays => Seals(g, script, dump, seen)
    case _ => false
  }

  /**
   * An upload is recorded exactly when these two looks at the settings give it a place and nothing
   * goes wrong, and then the record is that place's.
   */
  ghost predicate RecordedRemote(e: Env, record: Option<Record>, name: string, route: Option<Settings>, aim: Option<Settings>, fault: UploadFault) {
    if fault == Uploads && exists home :: Belongs(e, name, route, aim, home)
    then exists home :: Belongs(e, name, route, aim, home) && record == Some(RecordOf(home))
    else record == None
  }

  /** Whether the local copy goes after an upload: an S3 upload reads this again, a Drive upload does not. */
  predicate LocalGoes(route: Option<Settings>, aim: Option<Settings>) {
    match (route, aim)
    case (Some(r), Some(a)) => if r.upload.provider == S3 then a.upload.deleteLocal else r.upload.deleteLocal
    case _ => false
  }

  predicate HitsTarget(at: Location, target: Target) {
    match target
    case ToS3(store, key) => at == S3Object(store, key)
    case ToDrive(account) => at.DriveFile? && at.account == account
  }

  /** Where an upload that aims there ends up. */
  predicate ShipsTo(e: Env, at: Option<Location>, aimed: Stage, fault: UploadFault) {
    if aimed.Aimed? && fault == Uploads then at.Some? && HitsTarget(at.value, aimed.target) else at == None
  }

  /** What an upload with these looks comes to, once its provider is chosen. */
  lemma AimedIsRecorded(e: Env, name: string, route: Option<Settings>, was: bool, aim: Option<Settings>, at: Option<Location>, fault: UploadFault)
    requires route.Some? && route.value.upload.provider != LocalOnly
    requires ShipsTo(e, at, AimOf(e, Routed(name, route.value.upload.provider, was), aim), fault)
    ensures RecordedRemote(e, if at.Some? then Some(RecordOf(at.value)) else None, name, route, aim, fault)
  {
    var provider := route.value.upload.provider;
    AimBelongs(e, route, name, provider, was, aim);
    hide AimOf, Belongs;
    var aimed := AimOf(e, Routed(name, provider, was), aim);
    if home :| Belongs(e, name, route, aim, home) {
      NoAimNoPlace(e, route, name, provider, was, aim, home);
    }
    if aimed.Aimed? && fault == Uploads {
      assert at.value == LocationOf(aimed.target, if at.value.DriveFile? then at.value.file else 0);
      assert Belongs(e, name, route, aim, at.value);
    }
  }

  lemma ShippedWithAim(e: Env, name: string, route: Option<Settings>, was: bool, aim: Option<Settings>, at: Option<Location>, fault: UploadFault)
    requires route.Some? && route.value.upload.provider != LocalOnly
    requires ShipsTo(e, at, AimOf(e, Routed(name, route.value.upload.provider, was), aim), fault)
    ensures at.Some? ==> aim.Some?
  {
  }

  lemma UnroutedIsLocal(e: Env, name: string, route: Option<Settings>, aim: Option<Settings>, fault: UploadFault)
    requires route.None? || route.value.upload.provider == LocalOnly
    ensures RecordedRemote(e, None, name, route, aim, fault)
  {
  }

  // ── Runs of the machine ──

  lemma UntouchedSelf(e: Env, w: World, b: string)
    ensures Untouched(e, w, w, b)
  {
  }

  lemma UntouchedChains(e: Env, u: World, v: World, w: World, b: string)
    requires Untouched(e, u, v, b) && Untouched(e, v, w, b)
    ensures Untouched(e, u, w, b)
  {
    hide FileOf;
  }

  /** What other requests leave as it was: the jobs and everything a job alone may change. */
  ghost predicate OthersRan(w: World, w': World) {
    && w'.jobs == w.jobs && w'.used == w.used && w'.admitted == w.admitted && w'.completed == w.completed
    && w'.bases == w.bases && w'.dumps == w.dumps && w'.homes == w.homes
    && w'.looks == w.looks
    && w.everCurrent <= w'.everCurrent
  }

  /** One job went on, and other requests ran meanwhile. */
  ghost predicate OnlyJob(w: World, w': World, id: Id) {
    && w'.used == w.used && w'.admitted == w.admitted && w'.completed == w.completed
    && w'.bases == w.bases && w'.dumps == w.dumps && w'.homes == w.homes
    && (forall b :: b in w.looks ==> b in w'.looks && w'.looks[b].seen == w.looks[b].seen)
    && w.everCurrent <= w'.everCurrent
    && w'.jobs.Keys == w.jobs.Keys && forall j :: j in w.jobs && j != id ==> w'.jobs[j] == w.jobs[j]
  }

  lemma OnlyJobChains(u: World, v: World, w: World, id: Id)
    requires OnlyJob(u, v, id) && OnlyJob(v, w, id)
    ensures OnlyJob(u, w, id)
  {
  }

  lemma SeenStays(w: World, w': World, id: Id, b: string)
    requires OnlyJob(w, w', id) && b in w.looks
    ensures b in w'.looks && w'.looks[b].seen == w.looks[b].seen
  {
  }

  /** A wait leaves a job's own files alone. */
  lemma SparedFile(e: Env, w: World, w': World, d: Dump, name: string)
    requires Spared(e, w, w') && d.name in w.used && d.name !in w.completed && FileOf(d.name, name)
    ensures var p := Path(e.storageDir, name); (p in w.fs <==> p in w'.fs) && (p in w.fs ==> w'.fs[p] == w.fs[p])
  {
    KeepsFile(e, w, w', d.name, name);
  }

  lemma RanSame(w: World, w': World)
    requires OthersRan(w, w')
    ensures w'.jobs == w.jobs && w'.used == w.used && w'.looks == w.looks
  {
  }

  predicate IsForeign(a: Action) {
    || a.Trigger? || a.SaveSettings? || a.BeginDelete? || a.DeleteLocal? || a.DeleteRemote? || a.DeleteRow?
    || a.WriteTemp? || a.EraseTemp?
  }

  lemma ForeignBooks(e: Env, w: World, a: Action)
    requires Enabled(e, w, a) && IsForeign(a)
    ensures OthersRan(w, Apply(e, w, a))
  {
    hide Apply, LocalDeleted, RemoteDeleted, SettingsSaved, RowsChanged, Enabled, WithoutDir;
    if a.SaveSettings? { SavedIs(e, w, a); }
    else if a.DeleteLocal? { LocalIs(e, w, a); }
    else if a.DeleteRemote? { RemoteIs(e, w, a); }
    else if a.WriteTemp? || a.EraseTemp? { TempIs(e, w, a); }
    else { RowsIs(e, w, a); }
  }

  lemma ForeignTouches(w: World, a: Action, b: string)
    requires NamesOk(w) && IsForeign(a) && b !in w.completed
    ensures b !in Touched(w, a)
  {
  }

  lemma ForeignUntouched(e: Env, w: World, a: Action, b: string)
    requires Inv(e, w) && Enabled(e, w, a) && IsForeign(a) && b in w.used && b !in w.completed
    ensures Untouched(e, w, Apply(e, w, a), b)
  {
    hide Inv, Apply, Untouched, NamesOk, OriginsOk, PassphrasesOk, Enabled, Touched;
    InvNames(e, w);
    ForeignTouches(w, a, b);
    ActionUntouched(e, w, a, b);
  }

  /** The same for every dump name a job is still at work on. */
  ghost predicate Spared(e: Env, w: World, w': World) {
    forall b :: b in w.used && b !in w.completed ==> Untouched(e, w, w', b)
  }

  lemma ForeignSpares(e: Env, w: World, a: Action)
    requires EnvOk(e) && Reachable(e, w) && Enabled(e, w, a) && IsForeign(a)
    ensures OthersRan(w, Apply(e, w, a)) && Spared(e, w, Apply(e, w, a))
  {
    ReachableInv(e, w);
    hide Reachable, EnvOk, Apply, Enabled, Inv, OthersRan, Untouched;
    ForeignBooks(e, w, a);
    forall b | b in w.used && b !in w.completed ensures Untouched(e, w, Apply(e, w, a), b) { ForeignUntouched(e, w, a, b); }
  }

  lemma NothingRan(e: Env, w: World)
    ensures OthersRan(w, w) && Spared(e, w, w)
  {
    hide Untouched;
    forall b ensures Untouched(e, w, w, b) { UntouchedSelf(e, w, b); }
  }

  lemma RanChains(e: Env, u: World, v: World, w: World)
    requires OthersRan(u, v) && Spared(e, u, v) && OthersRan(v, w) && Spared(e, v, w)
    ensures OthersRan(u, w) && Spared(e, u, w)
  {
    hide Untouched;
    forall b | b in u.used && b !in u.completed ensures Untouched(e, u, w, b) { UntouchedChains(e, u, v, w, b); }
  }

  /** An admitted dump that is not recorded has its copy. */
  lemma AdmittedHasCopy(e: Env, w: World, d: Dump)
    requires EnvOk(e) && Reachable(e, w) && d.name in w.admitted && w.admitted[d.name] == d.bytes && d.name !in w.completed
    ensures CopyStored(e, w, d)
  {
    ReachableInv(e, w);
    hide CopyStored;
    assert d == Dump(d.name, w.admitted[d.name]);
  }

  lemma ChangedIs(e: Env, fs: map<Path, Bytes>, name: string, bytes: Bytes)
    ensures Changed(e, fs, Keep) == fs
    ensures Changed(e, fs, Change(name, None)) == fs - {Path(e.storageDir, name)}
    ensures Changed(e, fs, Change(name, Some(bytes))) == fs[Path(e.storageDir, name) := bytes]
  {
  }

  lemma GiveUpIs(e: Env, w: World, id: Id, stays: bool)
    requires IsWorking(w, id) && w.jobs[id].stage.Sealing?
    ensures Enabled(e, w, GiveUp(id, stays))
    ensures var d, stage := w.jobs[id].dump, w.jobs[id].stage;
            && StageAfter(e, w, GiveUp(id, stays)) == (if stage.attempt == 1 then Sealing(stage.pass, 2, Fresh) else Secured(d.name))
            && FileAfter(e, w, GiveUp(id, stays)) == if stays then Keep else Change(d.name + ENC, None)
  {
  }

  lemma DecryptBackIs(e: Env, w: World, id: Id, partial: Option<Bytes>)
    requires IsWorking(w, id) && w.jobs[id].stage.Sealing? && w.jobs[id].stage.step.Written? && EncPath(e, w.jobs[id].dump) in w.fs
    ensures Enabled(e, w, DecryptBack(id, partial))
    ensures var d, stage, a := w.jobs[id].dump, w.jobs[id].stage, DecryptBack(id, partial);
            match Unseal(e.g, w.fs[EncPath(e, d)], stage.pass)
            case Ok(plain) => StageAfter(e, w, a) == stage.(step := Copied) && FileAfter(e, w, a) == Change(d.name + ENC + VERIFY, Some(plain))
            case Err(_) =>
              && StageAfter(e, w, a) == stage.(step := Spoiled)
              && FileAfter(e, w, a) == if partial.Some? then Change(d.name + ENC + VERIFY, partial) else Keep
  {
    hide Unseal;
  }

  lemma CompareIs(e: Env, w: World, id: Id)
    requires IsWorking(w, id) && w.jobs[id].stage.Sealing? && w.jobs[id].stage.step.Copied? && CopyPath(e, w.jobs[id].dump) in w.fs
    ensures Enabled(e, w, Compare(id))
    ensures var d, stage := w.jobs[id].dump, w.jobs[id].stage;
            && StageAfter(e, w, Compare(id)) == (if e.hash(w.fs[CopyPath(e, d)]) == e.hash(d.bytes) then Verified(stage.pass) else stage.(step := Spoiled))
            && FileAfter(e, w, Compare(id)) == Change(d.name + ENC + VERIFY, None)
  {
  }

  lemma EncryptIs(e: Env, w: World, id: Id, bytes: Bytes)
    requires IsWorking(w, id) && w.jobs[id].stage.Sealing? && w.jobs[id].stage.step.Fresh?
    ensures Enabled(e, w, Encrypt(id, bytes))
    ensures StageAfter(e, w, Encrypt(id, bytes)) == w.jobs[id].stage.(step := Written)
    ensures FileAfter(e, w, Encrypt(id, bytes)) == Change(w.jobs[id].dump.name + ENC, Some(bytes))
  {
  }

  lemma RejectIs(e: Env, w: World, id: Id)
    requires IsWorking(w, id) && w.jobs[id].stage.Dumped?
    ensures Enabled(e, w, Reject(id))
    ensures StageAfter(e, w, Reject(id)) == Rejected && FileAfter(e, w, Reject(id)) == Change(w.jobs[id].dump.name, None)
  {
  }

  /** What the settings come to for a job past its early faults. */
  lemma ProtectionCases(g: Gcm, script: Script, d: Dump, seen: Option<Settings>)
    requires script.fault != IntegrityReadFails && script.fault != SettingsReadFails
    ensures AskedPassphrase(seen) == None ==>
              (Stops(g, script, d, seen) <==> script.fault == RecordFails) && ArtifactName(g, script, d, seen) == d.name
    ensures AskedPassphrase(seen).Some? ==>
              var pass := AskedPassphrase(seen).value;
              var sealed := Verifies(g, script.first.what, pass, d.bytes) || Verifies(g, script.second.what, pass, d.bytes);
              && ArtifactName(g, script, d, seen) == (if sealed then d.name + ENC else d.name)
              && (Stops(g, script, d, seen) <==>
                    || script.fault == RecordFails || script.fault == PassphraseFails || script.fault == HashFails
                    || (script.fault == PlainStays && sealed))
  {
    hide Verifies;
  }

  lemma StopsEarly(g: Gcm, script: Script, d: Dump, seen: Option<Settings>)
    ensures script.fault == IntegrityReadFails || script.fault == SettingsReadFails ==> Stops(g, script, d, seen)
  {
  }

  lemma StopsAtRecord(g: Gcm, script: Script, d: Dump)
    ensures script.fault == RecordFails ==> forall seen :: Stops(g, script, d, seen)
    ensures script.fault == NoFault || script.fault == PublishFails ==> forall seen :: !Stops(g, script, d, seen)
  {
  }

  /** Whether a row's artifact is restorable does not depend on its status or on the jobs. */
  lemma SameArtifact(e: Env, w: World, w': World, id: Id)
    requires w' == w.(rows := w'.rows, jobs := w'.jobs) && id in w.rows && id in w'.rows
    requires w'.rows[id] == w.rows[id].(status := w'.rows[id].status) && Restorable(e, w, id)
    ensures Restorable(e, w', id)
  {
  }

  lemma LoseIs(e: Env, w: World, id: Id)
    requires IsWorking(w, id) && (w.jobs[id].stage.Routed? || w.jobs[id].stage.Aimed? || w.jobs[id].stage.Uploaded?)
    ensures Enabled(e, w, LoseUpload(id))
    ensures StageAfter(e, w, LoseUpload(id)) == Shipped(w.jobs[id].stage.name, None) && FileAfter(e, w, LoseUpload(id)) == Keep
  {
  }

  lemma RouteIs(e: Env, w: World, id: Id)
    requires IsWorking(w, id) && w.jobs[id].stage.Secured?
    ensures Enabled(e, w, Route(id))
    ensures StageAfter(e, w, Route(id)) == RouteOf(w.jobs[id].stage.name, w.settings) && FileAfter(e, w, Route(id)) == Keep
  {
  }

  lemma AimIs(e: Env, w: World, id: Id)
    requires IsWorking(w, id) && w.jobs[id].stage.Routed?
    ensures Enabled(e, w, Aim(id))
    ensures StageAfter(e, w, Aim(id)) == AimOf(e, w.jobs[id].stage, w.settings) && FileAfter(e, w, Aim(id)) == Keep
  {
  }

  lemma UnlinkIs(e: Env, w: World, id: Id, breaks: bool)
    requires IsWorking(w, id) && w.jobs[id].stage.Uploaded?
    ensures Enabled(e, w, Unlink(id, breaks))
    ensures var stage := w.jobs[id].stage;
            && StageAfter(e, w, Unlink(id, breaks)) == Shipped(stage.name, Some(stage.loc))
            && FileAfter(e, w, Unlink(id, breaks)) == if stage.deleteLocal && !breaks then Change(stage.name, None) else Keep
  {
  }

  lemma ChooseIs(e: Env, w: World, id: Id)
    requires IsWorking(w, id) && w.jobs[id].stage.Admitted?
    ensures Enabled(e, w, Choose(id))
    ensures StageAfter(e, w, Choose(id)) ==
            (match AskedPassphrase(w.settings) case Some(pass) => Sealing(pass, 1, Fresh) case None => Secured(w.jobs[id].dump.name))
    ensures FileAfter(e, w, Choose(id)) == Keep
  {
  }

  lemma RemovePlainIs(e: Env, w: World, id: Id)
    requires IsWorking(w, id) && w.jobs[id].stage.Verified?
    ensures Enabled(e, w, RemovePlain(id))
    ensures StageAfter(e, w, RemovePlain(id)) == Secured(w.jobs[id].dump.name + ENC)
    ensures FileAfter(e, w, RemovePlain(id)) == Change(w.jobs[id].dump.name, None)
  {
  }

  /** At this point of a job the encryption settings have been looked at, the upload settings not yet. */
  lemma SecuredLooks(e: Env, w: World, id: Id, d: Dump, name: string)
    requires EnvOk(e) && Reachable(e, w) && id in w.jobs && w.jobs[id] == Working(d, Secured(name))
    ensures d.name in w.looks && w.looks[d.name].route == None == w.looks[d.name].aim
  {
    hide Reachable, EnvOk;
    ReachableChoices(e, w);
    assert AsAsked(e, w, d, Secured(name));
  }

  lemma NotLookedAt(e: Env, w: World, id: Id)
    requires EnvOk(e) && Reachable(e, w) && IsWorking(w, id) && w.jobs[id].stage.Admitted?
    ensures w.jobs[id].dump.name !in w.looks
  {
    hide Reachable, EnvOk;
    ReachableChoices(e, w);
    assert AsAsked(e, w, w.jobs[id].dump, w.jobs[id].stage);
  }

  /** A job looks at the encryption settings once. */
  lemma LooksKeepSeen(w: World, a: Action)
    requires IsMove(a) && IsWorking(w, a.id) && (a.Choose? ==> w.jobs[a.id].dump.name !in w.looks)
    ensures forall b :: b in w.looks ==> b in LooksAfter(w, a) && LooksAfter(w, a)[b].seen == w.looks[b].seen
  {
  }

  lemma MoveEffect(e: Env, w: World, a: Action)
    requires EnvOk(e) && Reachable(e, w) && Enabled(e, w, a) && IsMove(a)
    ensures IsWorking(w, a.id)
    ensures var w' := Apply(e, w, a);
            && OnlyJob(w, w', a.id) && w'.looks == LooksAfter(w, a) && w'.fs == Changed(e, w.fs, FileAfter(e, w, a))
            && w'.remote == w.remote && w'.driveNext == w.driveNext && w'.rows == w.rows && w'.settings == w.settings
            && a.id in w'.jobs && w'.jobs[a.id] == Working(w.jobs[a.id].dump, StageAfter(e, w, a))
  {
    EnabledWorking(e, w, a);
    if a.Choose? { NotLookedAt(e, w, a.id); }
    LooksKeepSeen(w, a);
    OwnLooks(e, w, a);
    MoveIs(e, w, a);
    hide Apply, Reachable, EnvOk, Enabled, StageAfter, FileAfter, Changed, LooksAfter, Moved;
  }

  lemma JobStands(e: Env, w: World, id: Id, d: Dump, stage: Stage)
    requires EnvOk(e) && Reachable(e, w) && id in w.jobs && w.jobs[id] == Working(d, stage)
    ensures d.name in w.used && EngineName(d.name) && Standing(w, d, stage) && Holding(e, w, d, stage)
  {
    ReachableInv(e, w);
    hide Reachable, EnvOk;
    JobFacts(e, w, id);
  }

  // ── Resolution ──

  datatype Resolved = Resolved(localPath: Path, downloaded: bool)

  predicate FromDisk(fs: map<Path, Bytes>, row: Row) {
    row.filePath.Some? && row.filePath.value in fs
  }

  ghost predicate SameOutsideDir(before: map<Path, Bytes>, after: map<Path, Bytes>, tempDir: string) {
    forall p: Path :: p.dir != tempDir ==> (p in after <==> p in before) && (p in after ==> after[p] == before[p])
  }

  lemma CleanupRestores(before: map<Path, Bytes>, after: map<Path, Bytes>, tempDir: string)
    requires SameOutsideDir(before, after, tempDir) && forall p: Path :: p in before ==> p.dir != tempDir
    ensures WithoutDir(after, tempDir) == before
  {
  }

  lemma ArtifactPlaced(e: Env, w: World, id: Id)
    requires Inv(e, w) && Live(w, id)
    ensures w.rows[id].filePath == Some(Path(e.storageDir, w.rows[id].fileName))
    ensures w.rows[id].remote.None? ==> FromDisk(w.fs, w.rows[id])
  {
    LiveFacts(e, w, id);
  }

  /** Files written in temp directories, whatever they are, are actions of the machine too. */
  lemma {:induction false} TempFilesReachable(e: Env, w: World, fs: map<Path, Bytes>, todo: set<Path>)
    requires Reachable(e, w)
    requires forall p :: p in todo ==> p in fs && p.dir != e.storageDir
    requires forall p :: p !in todo ==> (p in w.fs <==> p in fs) && (p in fs ==> w.fs[p] == fs[p])
    ensures Reachable(e, w.(fs := fs))
    decreases todo
  {
    hide Reachable;
    if todo == {} {
      assert w.fs == fs;
    } else {
      var p :| p in todo;
      ReachableStep(e, w, WriteTemp(p, fs[p]));
      TempFilesReachable(e, w.(fs := w.fs[p := fs[p]]), fs, todo - {p});
    }
  }

  lemma LeftoversReachable(e: Env, w: World, fs: map<Path, Bytes>, tempDir: string)
    requires Reachable(e, w) && tempDir != e.storageDir && SameOutsideDir(w.fs, fs, tempDir)
    ensures Reachable(e, w.(fs := fs))
  {
    hide Reachable;
    ReachableStep(e, w, EraseTemp(tempDir));
    TempFilesReachable(e, w.(fs := WithoutDir(w.fs, tempDir)), fs, set p | p in fs && p.dir == tempDir);
  }

  /** Nothing changed outside the temp directory, the file being resolved aside. */
  ghost predicate SameOutside(before: map<Path, Bytes>, after: map<Path, Bytes>, tempDir: string, filePath: Path) {
    forall p: Path :: p.dir != tempDir && p != filePath ==> (p in after <==> p in before) && (p in after ==> after[p] == before[p])
  }

  class BackupServer {
    const e: Env
    var fs: map<Path, Bytes>
    var remote: map<Location, Bytes>
    var driveNext: nat
    var rows: map<Id, Row>
    var settings: Option<Settings>
    ghost var everCurrent: set<string>
    ghost var bases: map<Id, string>
    ghost var dumps: map<Id, Bytes>
    ghost var homes: map<Id, Location>
    ghost var origins: map<Location, string>
    ghost var used: set<string>
    ghost var admitted: map<string, Bytes>
    ghost var completed: set<string>
    ghost var looks: map<string, Looks>
    ghost var deleting: set<Id>
    ghost var jobs: map<Id, Job>

    ghost function W(): World
      reads this
    {
      World(fs, remote, driveNext, rows, settings, everCurrent, bases, dumps, homes, origins, used, admitted, completed, looks, deleting, jobs)
    }

    /** The state is one a run of the machine reaches, so every claim about runs holds of it. */
    ghost predicate Valid()
      reads this
    {
      EnvOk(e) && Reachable(e, W())
    }

    /** This job has this dump and stands here. */
    ghost predicate At(id: Id, d: Dump, stage: Stage)
      reads this
    {
      id in jobs && jobs[id] == Working(d, stage)
    }

    constructor (e: Env)
      requires EnvOk(e)
      ensures Valid() && this.e == e && W() == EMPTY
    {
      this.e := e;
      fs, remote, driveNext, rows, settings := map[], map[], 0, map[], None;
      everCurrent, bases, dumps, homes, origins, used, admitted, completed, looks, deleting, jobs :=
        {}, map[], map[], map[], map[], {}, map[], {}, map[], {}, map[];
      new;
      assert Run(e, EMPTY, []) && After(e, EMPTY, []) == EMPTY;
    }

    /** The stored state has moved on as action `a` says; the books follow. */
    ghost method Advance(w: World, a: Action)
      requires EnvOk(e) && Reachable(e, w) && Enabled(e, w, a)
      requires SameStored(Apply(e, w, a))
      modifies this
      ensures W() == Apply(e, w, a) && Valid()
    {
      hide Apply, Enabled, Reachable, EnvOk;
      ReachableStep(e, w, a);
      FollowRecords(Apply(e, w, a));
      FollowNames(Apply(e, w, a));
    }

    ghost predicate SameStored(w: World)
      reads this
    {
      fs == w.fs && remote == w.remote && driveNext == w.driveNext && rows == w.rows && settings == w.settings
    }

    ghost method FollowRecords(w: World)
      modifies this`everCurrent, this`bases, this`dumps, this`homes, this`origins
      ensures everCurrent == w.everCurrent && bases == w.bases && dumps == w.dumps && homes == w.homes && origins == w.origins
    {
      everCurrent, bases, dumps, homes, origins := w.everCurrent, w.bases, w.dumps, w.homes, w.origins;
    }

    ghost method FollowNames(w: World)
      modifies this`used, this`admitted, this`completed, this`looks, this`deleting, this`jobs
      ensures used == w.used && admitted == w.admitted && completed == w.completed
      ensures looks == w.looks && deleting == w.deleting && jobs == w.jobs
    {
      used, admitted, completed, looks, deleting, jobs := w.used, w.admitted, w.completed, w.looks, w.deleting, w.jobs;
    }

    /** The same for an action that only moves a job on. */
    ghost method Move(w: World, a: Action)
      requires EnvOk(e) && Reachable(e, w) && Enabled(e, w, a) && IsMove(a)
      requires remote == w.remote && driveNext == w.driveNext && rows == w.rows && settings == w.settings
      requires fs == Changed(e, w.fs, FileAfter(e, w, a))
      modifies this
      ensures Valid() && OnlyJob(w, W(), a.id)
      ensures fs == old(fs) && remote == w.remote && rows == w.rows && settings == w.settings
      ensures a.id in w.jobs && w.jobs[a.id].Working? && At(a.id, w.jobs[a.id].dump, StageAfter(e, w, a))
      ensures looks == LooksAfter(w, a)
    {
      MoveEffect(e, w, a);
      hide Apply, Reachable, EnvOk, Enabled, IsMove, StageAfter, FileAfter, Changed, LooksAfter, OnlyJob;
      Advance(w, a);
    }

    // ── Settings ──

    static method CopyStore(stored: Store, req: UploadRequest) returns (data: Store)
      ensures data == UpdatedStore(stored, req)
    {
      data := stored;
      if req.bucket.Some? { data := data.(bucket := req.bucket.value); }
      if req.region.Some? { data := data.(region := req.region.value); }
      if req.endpoint.Some? { data := data.(endpoint := req.endpoint.value); }
    }

    static method CopyLogin(stored: DriveLogin, req: UploadRequest) returns (data: DriveLogin)
      ensures data == UpdatedLogin(stored, req)
    {
      data := stored;
      if req.clientId.Some? { data := data.(clientId := req.clientId.value); }
      if req.clientSecret != "" && req.clientSecret != SECRET_MASK { data := data.(clientSecret := req.clientSecret); }
      if req.refreshToken != "" && req.refreshToken != SECRET_MASK { data := data.(refreshToken := req.refreshToken); }
    }

    /** The fields of a request that are copied, and the secrets that are replaced when given. */
    static method CopyPlainFields(stored: UploadConfig, req: UploadRequest) returns (data: UploadConfig)
      ensures data == UpdatedUpload(stored, req)
    {
      hide UpdatedStore, UpdatedLogin;
      data := stored;
      if req.provider.Some? { data := data.(provider := req.provider.value); }
      var store := CopyStore(stored.store, req);
      data := data.(store := store);
      if req.prefix.Some? { data := data.(prefix := req.prefix.value); }
      if req.deleteLocal.Some? { data := data.(deleteLocal := req.deleteLocal.value); }
      if req.accessKeyId != "" && req.accessKeyId != SECRET_MASK { data := data.(accessKeyId := req.accessKeyId); }
      if req.secretAccessKey != "" && req.secretAccessKey != SECRET_MASK { data := data.(secretAccessKey := req.secretAccessKey); }
      var login := CopyLogin(stored.login, req);
      data := data.(login := login);
    }

    /** upsertStorageSettings up to the write: the row it would store, or the refusal. */
    static method BuildSettings(stored: Option<Settings>, req: SettingsRequest) returns (r: Result<Settings, Refusal>)
      ensures r == Updated(stored, req)
    {
      var existing := if stored.Some? then stored.value else DEFAULTS;
      var upload := CopyPlainFields(existing.upload, req.upload);
      var data := existing.(upload := upload);
      var current := existing.passphrase;
      var given := req.passphrase != "" && req.passphrase != SECRET_MASK;
      var changing := given && current.Some? && current.value != req.passphrase;
      if changing {
        if req.currentPassphrase == "" || current.value != req.currentPassphrase {
          return Err(CurrentPassphraseRequired);
        }
        data := data.(history := data.history + [current.value], passphrase := Some(req.passphrase));
      } else if given {
        data := data.(passphrase := Some(req.passphrase));
      }
      if req.encryptionEnabled.Some? {
        if req.encryptionEnabled.value && data.passphrase.None? {
          return Err(PassphraseRequired);
        }
        data := data.(encryptionEnabled := req.encryptionEnabled.value);
      }
      r := Ok(data);
    }

    method UpsertStorageSettings(req: SettingsRequest) returns (refused: Option<Refusal>)
      requires Valid()
      modifies this
      ensures Valid() && W() == Apply(e, old(W()), SaveSettings(req))
      ensures refused == (match Updated(old(settings), req) case Ok(_) => None case Err(r) => Some(r))
      ensures refused.Some? ==> W() == old(W())
    {
      hide Reachable, EnvOk, Updated;
      ghost var w := W();
      var next := BuildSettings(settings, req);
      refused := if next.Err? then Some(next.error) else None;
      if next.Ok? { settings := Some(next.value); }
      Advance(w, SaveSettings(req));
    }

    // ── Rows ──

    method TriggerBackup(id: Id)
      requires Valid() && id !in rows
      modifies this
      ensures Valid() && W() == Apply(e, old(W()), Trigger(id))
      ensures rows == old(rows)[id := Row(Pending, "pending", None, None)]
    {
      hide Reachable, EnvOk;
      ghost var w := W();
      rows := rows[id := Row(Pending, "pending", None, None)];
      Advance(w, Trigger(id));
    }

    method DeleteRemoteCopy(id: Id, breaks: bool)
      requires Valid() && id in rows
      modifies this
      ensures Valid() && W() == Apply(e, old(W()), if breaks then BeginDelete(id) else DeleteRemote(id))
    {
      hide Reachable, EnvOk, Located, Apply, RemoteDeleted, RowsChanged;
      ghost var w := W();
      if breaks {
        RowsIs(e, w, BeginDelete(id));
        Advance(w, BeginDelete(id));
      } else {
        var at := if rows[id].remote.Some? then Located(e, settings, rows[id].remote.value) else None;
        if at.Some? { remote := remote - {at.value}; }
        RemoteIs(e, w, DeleteRemote(id));
        RemovedObject(w, id);
        Advance(w, DeleteRemote(id));
      }
    }

    lemma RemovedObject(w: World, id: Id)
      requires id in w.rows
      ensures RemoteDeleted(e, w, id).remote == WithoutObject(w.remote, DeletionTarget(e, w.settings, w.rows[id]))
      ensures var at := DeletionTarget(e, w.settings, w.rows[id]);
              WithoutObject(w.remote, at) == if at.Some? then w.remote - {at.value} else w.remote
      ensures DeletionTarget(e, w.settings, w.rows[id]) == if w.rows[id].remote.Some? then Located(e, w.settings, w.rows[id].remote.value) else None
    {
      hide Located;
    }

    lemma RemovedFile(w: World, id: Id)
      requires id in w.rows
      ensures LocalDeleted(w, id).fs == if w.rows[id].filePath.Some? then w.fs - {w.rows[id].filePath.value} else w.fs
    {
    }

    method DeleteLocalCopy(id: Id, breaks: bool)
      requires Valid() && id in rows
      modifies this
      ensures Valid() && W() == Apply(e, old(W()), if breaks then BeginDelete(id) else DeleteLocal(id))
    {
      hide Reachable, EnvOk, StartsWith, Apply, LocalDeleted, RowsChanged;
      ghost var w := W();
      if breaks {
        RowsIs(e, w, BeginDelete(id));
        Advance(w, BeginDelete(id));
      } else {
        if rows[id].filePath.Some? {
          var path := rows[id].filePath.value;
          RowIsInside(w, id);
          // Only inside the backup directory or the temp directory: the path is a stored value
          if StartsWith(Text(path), e.storageDir + "/") || StartsWith(Text(path), e.tmpDir + "/") {
            fs := fs - {path};
          }
        }
        LocalIs(e, w, DeleteLocal(id));
        RemovedFile(w, id);
        Advance(w, DeleteLocal(id));
      }
    }

    lemma RowIsInside(w: World, id: Id)
      requires EnvOk(e) && Reachable(e, w) && id in w.rows && w.rows[id].filePath.Some?
      ensures StartsWith(Text(w.rows[id].filePath.value), e.storageDir + "/")
    {
      ReachableInv(e, w);
      RowFacts(e, w, id);
    }

    /** deleteBackupArtifact: both halves are best effort; the object goes exactly when the settings reach it. */
    method DeleteBackupArtifact(id: Id, remoteBreaks: bool, localBreaks: bool)
      requires Valid() && id in rows
      modifies this
      ensures Valid() && deleting == old(deleting) + {id}
      ensures remote == if !remoteBreaks && old(rows)[id].remote.Some? && id in old(homes) && Reaches(e, old(settings), old(homes)[id])
                        then old(remote) - {old(homes)[id]} else old(remote)
      ensures fs == if old(rows)[id].filePath.Some? && !localBreaks then old(fs) - {old(rows)[id].filePath.value} else old(fs)
      ensures rows == old(rows) && settings == old(settings) && driveNext == old(driveNext)
      ensures OthersRan(old(W()), W()) && Spared(e, old(W()), W())
    {
      hide Reachable, EnvOk, OthersRan, Spared, Apply, DeletionTarget, WithoutObject, RowsChanged, RemoteDeleted, LocalDeleted, Reaches;
      ghost var w := W();
      DeleteRemoteCopy(id, remoteBreaks);
      HalfDeleted(w, id, remoteBreaks, true);
      OwnObjectGoes(w, id);
      ghost var w1 := W();
      DeleteLocalCopy(id, localBreaks);
      HalfDeleted(w1, id, localBreaks, false);
      RanChains(e, w, w1, W());
    }

    lemma OwnObjectGoes(w: World, id: Id)
      requires EnvOk(e) && Reachable(e, w) && id in w.rows
      ensures WithoutObject(w.remote, DeletionTarget(e, w.settings, w.rows[id])) ==
              if w.rows[id].remote.Some? && id in w.homes && Reaches(e, w.settings, w.homes[id]) then w.remote - {w.homes[id]} else w.remote
    {
      hide Reachable, EnvOk, Reaches, Located;
      ReachableInv(e, w);
      RemoteDeletionRemoves(e, w, id);
    }

    lemma HalfDeleted(w: World, id: Id, breaks: bool, remotely: bool)
      requires EnvOk(e) && Reachable(e, w) && id in w.rows
      ensures var a := if breaks then BeginDelete(id) else if remotely then DeleteRemote(id) else DeleteLocal(id);
              Enabled(e, w, a) && OthersRan(w, Apply(e, w, a)) && Spared(e, w, Apply(e, w, a)) && Dropped(w, Apply(e, w, a), a)
    {
      var a := if breaks then BeginDelete(id) else if remotely then DeleteRemote(id) else DeleteLocal(id);
      hide Reachable, EnvOk, OthersRan, Spared, Apply, Dropped;
      ForeignSpares(e, w, a);
      if breaks { RowsIs(e, w, a); BegunDropped(w, id); } else if remotely { RemoteIs(e, w, a); RemoteDropped(w, id); } else { LocalIs(e, w, a); LocalDropped(w, id); }
    }

    /** What one half of a deletion takes away. */
    ghost predicate Dropped(w: World, w': World, a: Action)
      requires (a.BeginDelete? || a.DeleteRemote? || a.DeleteLocal?) && a.id in w.rows
    {
      && w'.deleting == w.deleting + {a.id} && w'.rows == w.rows && w'.settings == w.settings && w'.driveNext == w.driveNext
      && w'.remote == (if a.DeleteRemote? then WithoutObject(w.remote, DeletionTarget(e, w.settings, w.rows[a.id])) else w.remote)
      && w'.fs == (if a.DeleteLocal? && w.rows[a.id].filePath.Some? then w.fs - {w.rows[a.id].filePath.value} else w.fs)
    }

    lemma BegunDropped(w: World, id: Id)
      requires id in w.rows
      ensures Dropped(w, RowsChanged(w, BeginDelete(id)), BeginDelete(id))
    {
    }

    lemma RemoteDropped(w: World, id: Id)
      requires id in w.rows
      ensures Dropped(w, RemoteDeleted(e, w, id), DeleteRemote(id))
    {
      hide DeletionTarget, WithoutObject;
    }

    lemma LocalDropped(w: World, id: Id)
      requires id in w.rows
      ensures Dropped(w, LocalDeleted(w, id), DeleteLocal(id))
    {
    }

    method DeleteBackupRow(id: Id)
      requires Valid() && id in rows
      modifies this
      ensures Valid() && W() == Apply(e, old(W()), DeleteRow(id))
    {
      hide Reachable, EnvOk;
      ghost var w := W();
      rows := rows - {id};
      Advance(w, DeleteRow(id));
    }

    /** What a resolver does in its temp directory. */
    method WriteTempFile(p: Path, bytes: Bytes)
      requires Valid() && p.dir != e.storageDir
      modifies this
      ensures Valid() && W() == Apply(e, old(W()), WriteTemp(p, bytes))
    {
      hide Reachable, EnvOk;
      ghost var w := W();
      fs := fs[p := bytes];
      Advance(w, WriteTemp(p, bytes));
    }

    method RemoveTempDir(dir: string)
      requires Valid() && dir != e.storageDir
      modifies this
      ensures Valid() && W() == Apply(e, old(W()), EraseTemp(dir))
    {
      hide Reachable, EnvOk, Apply, WithoutDir;
      ghost var w := W();
      fs := WithoutDir(fs, dir);
      TempIs(e, w, EraseTemp(dir));
      Advance(w, EraseTemp(dir));
    }

    /** One other request, or one step of it. */
    method OneRequest()
      requires Valid()
      modifies this
      ensures Valid() && OthersRan(old(W()), W()) && Spared(e, old(W()), W())
    {
      hide Reachable, EnvOk, OthersRan, Spared, Apply;
      ghost var w := W();
      var id: Id, kind: nat, breaks: bool := *, *, *;
      var req: SettingsRequest, p: Path, bytes: Bytes := *, *, *;
      if kind == 0 {
        ForeignSpares(e, w, SaveSettings(req));
        var _ := UpsertStorageSettings(req);
      } else if kind == 1 && p.dir != e.storageDir {
        ForeignSpares(e, w, WriteTemp(p, bytes));
        WriteTempFile(p, bytes);
      } else if kind == 2 && p.dir != e.storageDir {
        ForeignSpares(e, w, EraseTemp(p.dir));
        RemoveTempDir(p.dir);
      } else if id !in rows {
        ForeignSpares(e, w, Trigger(id));
        TriggerBackup(id);
      } else if kind == 3 {
        ForeignSpares(e, w, if breaks then BeginDelete(id) else DeleteRemote(id));
        DeleteRemoteCopy(id, breaks);
      } else if kind == 4 {
        ForeignSpares(e, w, if breaks then BeginDelete(id) else DeleteLocal(id));
        DeleteLocalCopy(id, breaks);
      } else if kind == 5 {
        ForeignSpares(e, w, DeleteRow(id));
        DeleteBackupRow(id);
      } else {
        NothingRan(e, w);
      }
    }

    /** Other requests' steps, in any number and order, while the job waits. */
    method Yield()
      requires Valid()
      modifies this
      ensures Valid() && OthersRan(old(W()), W()) && Spared(e, old(W()), W())
    {
      hide Reachable, EnvOk, OthersRan, Spared;
      var steps: nat := *;
      NothingRan(e, W());
      while steps > 0
        invariant Valid() && OthersRan(old(W()), W()) && Spared(e, old(W()), W())
      {
        ghost var w := W();
        OneRequest();
        RanChains(e, old(W()), w, W());
        steps := steps - 1;
      }
    }

    // ── Encryption ──
    /** encryptBackupFile: header, then ciphertext, then tag, unless the attempt goes wrong. */
    method EncryptBackupFile(src: Path, dest: Path, pass: string, a: Attempt) returns (threw: bool)
      requires src in fs && src != dest
      modifies this`fs
      ensures fs == old(fs)[dest := OnDisk(e.g, a, pass, old(fs)[src])]
      ensures threw <==> a.Breaks?
    {
      if a.Breaks? {
        fs := fs[dest := a.partial];
        return true;
      }
      if a.Corrupts? {
        fs := fs[dest := a.bytes];
        return false;
      }
      fs := fs[dest := MAGIC + a.salt + a.iv];
      var c := e.g.seal(pass, a.salt, a.iv, fs[src]);
      fs := fs[dest := fs[dest] + c.ciphertext];
      fs := fs[dest := fs[dest] + c.tag];
      threw := false;
    }

    /**
     * decryptBackupFile: reads header, tag and ciphertext by offset. A wrong tag leaves a partial
     * copy; writing onto the file being read truncates it first.
     */
    method DecryptBackupFile(src: Path, dest: Path, pass: string) returns (failed: Option<CryptoError>)
      requires src in fs
      modifies this`fs
      ensures forall p :: p != dest ==> (p in fs <==> p in old(fs)) && (p in fs ==> fs[p] == old(fs)[p])
      ensures dest in old(fs) ==> dest in fs
      ensures src == dest ==> failed.Some? && (fs == old(fs) || fs == old(fs)[dest := []])
      ensures src != dest ==>
                match Unseal(e.g, old(fs)[src], pass)
                case Ok(plain) => failed == None && fs == old(fs)[dest := plain]
                case Err(error) => failed == Some(error) && (error != AuthFailed ==> fs == old(fs))
    {
      var file := fs[src];
      var size := |file|;
      if size < HEADER_LEN + TAG_LEN {
        return Some(TooSmall);
      }
      var header := file[..HEADER_LEN];
      assert |header| == HEADER_LEN == |MAGIC| + SALT_LEN + IV_LEN;
      if header[..|MAGIC|] != MAGIC {
        return Some(NotEncrypted);
      }
      var tag: Tag := file[size - TAG_LEN..];
      var salt: Salt := header[|MAGIC|..|MAGIC| + SALT_LEN];
      var iv: Iv := header[|MAGIC| + SALT_LEN..];
      assert header[..|MAGIC|] == file[..|MAGIC|];
      assert salt == file[|MAGIC|..|MAGIC| + SALT_LEN];
      assert iv == file[|MAGIC| + SALT_LEN..HEADER_LEN];
      var start, end := HEADER_LEN, size - TAG_LEN - 1;
      if start > end {
        return Some(EmptyRange);
      }
      if src == dest {
        fs := fs[dest := []];
        return Some(AuthFailed);
      }
      var plain := e.g.open(pass, salt, iv, Sealed(file[start..end + 1], tag));
      if plain.None? {
        var partial: Bytes := *;
        fs := fs[dest := partial];
        return Some(AuthFailed);
      }
      fs := fs[dest := plain.value];
      failed := None;
    }

    /** The catch of an attempt: the encrypted file goes, if it can. */
    method GiveUpAttempt(id: Id, d: Dump, pass: string, attempt: nat, step: Step, stays: bool)
      requires Valid() && At(id, d, Sealing(pass, attempt, step))
      modifies this
      ensures Valid() && OnlyJob(old(W()), W(), id)
      ensures At(id, d, if attempt == 1 then Sealing(pass, 2, Fresh) else Secured(d.name))
    {
      hide Reachable, EnvOk, StageAfter, FileAfter, Changed, Apply, Enabled, OnlyJob;
      ghost var w := W();
      GiveUpIs(e, w, id, stays);
      ChangedIs(e, fs, d.name + ENC, []);
      if !stays {
        fs := fs - {EncPath(e, d)};
      }
      Move(w, GiveUp(id, stays));
    }

    /** The first part of an attempt: the encrypted file. */
    method WriteEncrypted(id: Id, d: Dump, pass: string, attempt: nat, a: Attempt) returns (threw: bool)
      requires Valid() && At(id, d, Sealing(pass, attempt, Fresh))
      modifies this
      ensures Valid() && OnlyJob(old(W()), W(), id) && At(id, d, Sealing(pass, attempt, Written))
      ensures EncPath(e, d) in fs && fs[EncPath(e, d)] == OnDisk(e.g, a, pass, d.bytes)
      ensures threw <==> a.Breaks?
    {
      ghost var w := W();
      JobStands(e, w, id, d, Sealing(pass, attempt, Fresh));
      hide Reachable, EnvOk, OnDisk, Standing, Apply, Enabled, OnlyJob, StageAfter, FileAfter, Changed;
      threw := EncryptBackupFile(Path(e.storageDir, d.name), EncPath(e, d), pass, a);
      EncryptIs(e, w, id, fs[EncPath(e, d)]);
      ChangedIs(e, w.fs, d.name + ENC, fs[EncPath(e, d)]);
      Move(w, Encrypt(id, fs[EncPath(e, d)]));
    }

    /** The second: it decrypts back into a copy, or fails and leaves what it may of one. */
    method CopyBack(id: Id, d: Dump, pass: string, attempt: nat) returns (copied: bool)
      requires Valid() && At(id, d, Sealing(pass, attempt, Written)) && EncPath(e, d) in fs
      modifies this
      ensures Valid() && OnlyJob(old(W()), W(), id)
      ensures copied <==> Unseal(e.g, old(fs)[EncPath(e, d)], pass).Ok?
      ensures if copied then At(id, d, Sealing(pass, attempt, Copied)) else At(id, d, Sealing(pass, attempt, Spoiled))
      ensures copied ==> CopyPath(e, d) in fs && Unseal(e.g, old(fs)[EncPath(e, d)], pass) == Ok(fs[CopyPath(e, d)])
    {
      hide Reachable, EnvOk, Unseal, StageAfter, FileAfter, Changed, Apply, Enabled, OnlyJob;
      ghost var w := W();
      DumpFiles(d.name);
      var enc, copy := EncPath(e, d), CopyPath(e, d);
      var failed := DecryptBackupFile(enc, copy, pass);
      copied := failed.None?;
      if copied {
        DecryptBackIs(e, w, id, None);
        ChangedIs(e, w.fs, d.name + ENC + VERIFY, fs[copy]);
        Move(w, DecryptBack(id, None));
      } else {
        ghost var left := if copy in fs then Some(fs[copy]) else None;
        assert fs == if left.Some? then w.fs[copy := left.value] else w.fs;
        DecryptBackIs(e, w, id, left);
        ChangedIs(e, w.fs, d.name + ENC + VERIFY, if left.Some? then left.value else []);
        Move(w, DecryptBack(id, left));
      }
    }

    /** The third: compare hashes, drop the copy. */
    method CompareHashes(id: Id, d: Dump, pass: string, attempt: nat, plainHash: string) returns (same: bool)
      requires Valid() && At(id, d, Sealing(pass, attempt, Copied)) && CopyPath(e, d) in fs && plainHash == e.hash(d.bytes)
      modifies this
      ensures Valid() && OnlyJob(old(W()), W(), id)
      ensures same <==> old(fs)[CopyPath(e, d)] == d.bytes
      ensures At(id, d, if same then Verified(pass) else Sealing(pass, attempt, Spoiled))
    {
      ghost var w := W();
      same := e.hash(fs[CopyPath(e, d)]) == plainHash;
      assert same <==> fs[CopyPath(e, d)] == d.bytes;
      hide Reachable, EnvOk, StageAfter, FileAfter, Changed, Apply, Enabled, OnlyJob;
      CompareIs(e, w, id);
      ChangedIs(e, fs, d.name + ENC + VERIFY, []);
      fs := fs - {CopyPath(e, d)};
      Move(w, Compare(id));
    }

    lemma WaitedFor(w0: World, w: World, w': World, id: Id)
      requires OnlyJob(w0, w, id) && OthersRan(w, w')
      ensures OnlyJob(w0, w', id) && w'.jobs == w.jobs
    {
    }

    /** The body of one attempt: encrypt, decrypt back, compare hashes. It counts only if the file decrypts to the dump. */
    method TryEncrypt(id: Id, d: Dump, pass: string, attempt: nat, plainHash: string, t: Try) returns (verified: bool)
      requires Valid() && At(id, d, Sealing(pass, attempt, Fresh)) && plainHash == e.hash(d.bytes)
      modifies this
      ensures Valid() && OnlyJob(old(W()), W(), id)
      ensures verified <==> Verifies(e.g, t.what, pass, d.bytes)
      ensures At(id, d, if verified then Verified(pass) else if attempt == 1 then Sealing(pass, 2, Fresh) else Secured(d.name))
    {
      JobStands(e, W(), id, d, Sealing(pass, attempt, Fresh));
      DumpFiles(d.name);
      hide Reachable, EnvOk, Unseal, OnDisk, Holding, FileOf, EngineName, OthersRan, Spared;
      ghost var w0, w := W(), W();
      verified := false;
      var threw := WriteEncrypted(id, d, pass, attempt, t.what);
      w := W();
      if threw {
        GiveUpAttempt(id, d, pass, attempt, Written, t.stays);
        OnlyJobChains(w0, w, W(), id);
        return;
      }
      Yield();
      SparedFile(e, w, W(), d, d.name + ENC);
      WaitedFor(w0, w, W(), id);
      w := W();
      var copied := CopyBack(id, d, pass, attempt);
      OnlyJobChains(w0, w, W(), id);
      w := W();
      if !copied || t.what.VerifyBreaks? {
        GiveUpAttempt(id, d, pass, attempt, if copied then Copied else Spoiled, t.stays);
        OnlyJobChains(w0, w, W(), id);
        return;
      }
      Yield();
      SparedFile(e, w, W(), d, d.name + ENC + VERIFY);
      WaitedFor(w0, w, W(), id);
      w := W();
      verified := CompareHashes(id, d, pass, attempt, plainHash);
      OnlyJobChains(w0, w, W(), id);
      if !verified {
        w := W();
        GiveUpAttempt(id, d, pass, attempt, Spoiled, t.stays);
        OnlyJobChains(w0, w, W(), id);
      }
    }

    /** Step 1.5 of the worker: at most two attempts. */
    method EncryptAtRest(id: Id, d: Dump, pass: string, first: Try, second: Try) returns (encryptedOk: bool)
      requires Valid() && At(id, d, Sealing(pass, 1, Fresh))
      modifies this
      ensures Valid() && OnlyJob(old(W()), W(), id)
      ensures encryptedOk <==> Verifies(e.g, first.what, pass, d.bytes) || Verifies(e.g, second.what, pass, d.bytes)
      ensures At(id, d, if encryptedOk then Verified(pass) else Secured(d.name))
    {
      ghost var w0 := W();
      JobStands(e, w0, id, d, Sealing(pass, 1, Fresh));
      hide Reachable, EnvOk, Unseal, OnDisk, Holding, Verifies;
      var plainHash := e.hash(fs[Path(e.storageDir, d.name)]);
      encryptedOk := false;
      var attempt := 1;
      while attempt <= 2 && !encryptedOk
        invariant 1 <= attempt <= 3
        invariant Valid() && OnlyJob(w0, W(), id)
        invariant encryptedOk <==> || (attempt > 1 && Verifies(e.g, first.what, pass, d.bytes))
                                   || (attempt > 2 && Verifies(e.g, second.what, pass, d.bytes))
        invariant At(id, d, if encryptedOk then Verified(pass) else if attempt <= 2 then Sealing(pass, attempt, Fresh) else Secured(d.name))
      {
        ghost var w := W();
        encryptedOk := TryEncrypt(id, d, pass, attempt, plainHash, if attempt == 1 then first else second);
        OnlyJobChains(w0, w, W(), id);
        attempt := attempt + 1;
      }
    }

    /** After the second look at the settings: the object is stored, and only then the local copy goes. */
    method PutAndTidy(id: Id, d: Dump, name: string, target: Target, deleteLocal: bool, script: Script)
      returns (record: Option<Record>, ghost at: Option<Location>)
      requires Valid() && At(id, d, Aimed(name, target, deleteLocal))
      modifies this
      ensures Valid() && OnlyJob(old(W()), W(), id) && At(id, d, Shipped(name, at)) && looks == old(looks)
      ensures record == if at.Some? then Some(RecordOf(at.value)) else None
      ensures if script.upload == Uploads then at.Some? && HitsTarget(at.value, target) else at == None
      ensures Path(e.storageDir, name) in fs <==> !(at.Some? && deleteLocal && !script.unlinkBreaks)
    {
      ghost var w0 := W();
      JobStands(e, w0, id, d, Aimed(name, target, deleteLocal));
      DumpFiles(d.name);
      hide Reachable, EnvOk, Apply, Holding, StageAfter, FileAfter, Changed, OthersRan, Spared, Enabled, OnlyJob, FileOf, CopyOnDisk;
      if script.upload == UploadBreaks {
        AbandonUpload(id, d, name);
        return None, None;
      }
      var loc := PutObject(id, d, name, target, deleteLocal);
      ghost var w := W();
      Yield();
      SparedFile(e, w, W(), d, name);
      RanSame(w, W());
      WaitedFor(w0, w, W(), id);
      w := W();
      if script.upload == ReplyLost {
        AbandonUpload(id, d, name);
        OnlyJobChains(w0, w, W(), id);
        return None, None;
      }
      UnlinkLocal(id, d, name, loc, deleteLocal, script.unlinkBreaks);
      OnlyJobChains(w0, w, W(), id);
      record, at := Some(RecordOf(loc)), Some(loc);
    }

    /** An upload that throws: the artifact stays local. */
    method AbandonUpload(id: Id, d: Dump, name: string)
      requires Valid() && IsWorking(W(), id) && jobs[id].dump == d && (jobs[id].stage.Aimed? || jobs[id].stage.Uploaded?) && jobs[id].stage.name == name
      modifies this
      ensures Valid() && OnlyJob(old(W()), W(), id) && At(id, d, Shipped(name, None)) && fs == old(fs) && looks == old(looks)
    {
      hide Reachable, EnvOk, Apply, StageAfter, FileAfter, Changed, Enabled, OnlyJob;
      ghost var w := W();
      LoseIs(e, w, id);
      ChangedIs(e, fs, name, []);
      Move(w, LoseUpload(id));
    }

    method UnlinkLocal(id: Id, d: Dump, name: string, loc: Location, deleteLocal: bool, breaks: bool)
      requires Valid() && At(id, d, Uploaded(name, loc, deleteLocal))
      modifies this
      ensures Valid() && OnlyJob(old(W()), W(), id) && At(id, d, Shipped(name, Some(loc))) && looks == old(looks)
      ensures fs == if deleteLocal && !breaks then old(fs) - {Path(e.storageDir, name)} else old(fs)
    {
      hide Reachable, EnvOk, Apply, StageAfter, FileAfter, Changed, Enabled, OnlyJob;
      ghost var w := W();
      UnlinkIs(e, w, id, breaks);
      ChangedIs(e, fs, name, []);
      if deleteLocal && !breaks {
        fs := fs - {Path(e.storageDir, name)};
      }
      Move(w, Unlink(id, breaks));
    }

    method PutObject(id: Id, d: Dump, name: string, target: Target, deleteLocal: bool) returns (loc: Location)
      requires Valid() && At(id, d, Aimed(name, target, deleteLocal)) && Path(e.storageDir, name) in fs
      modifies this
      ensures Valid() && OnlyJob(old(W()), W(), id) && At(id, d, Uploaded(name, loc, deleteLocal))
      ensures loc == LocationOf(target, old(driveNext)) && fs == old(fs) && looks == old(looks)
      ensures remote == old(remote)[loc := old(fs)[Path(e.storageDir, name)]]
    {
      ghost var w := W();
      hide Reachable, EnvOk, Apply;
      loc := match target case ToS3(store, key) => S3Object(store, key) case ToDrive(account) => DriveFile(account, driveNext);
      remote := remote[loc := fs[Path(e.storageDir, name)]];
      if loc.DriveFile? { driveNext := driveNext + 1; }
      PutIs(e, w, Put(id));
      Advance(w, Put(id));
    }

    lemma SkippedStaysLocal(w: World, id: Id, d: Dump, name: string)
      requires EnvOk(e) && Reachable(e, w)
      ensures id in w.jobs && w.jobs[id] == Working(d, Shipped(name, None)) ==> Path(e.storageDir, name) in w.fs
    {
      hide Reachable, EnvOk;
      if id in w.jobs && w.jobs[id] == Working(d, Shipped(name, None)) { JobStands(e, w, id, d, Shipped(name, None)); }
    }

    /** uploadToS3: all settings are read again, and an incomplete set skips the upload. */
    method UploadToS3(id: Id, d: Dump, name: string, was: bool, script: Script)
      returns (record: Option<Record>, ghost at: Option<Location>, aim: Option<Settings>)
      requires Valid() && At(id, d, Routed(name, S3, was))
      modifies this
      ensures Valid() && OnlyJob(old(W()), W(), id) && At(id, d, Shipped(name, at))
      ensures record == if at.Some? then Some(RecordOf(at.value)) else None
      ensures ShipsTo(e, at, AimOf(e, Routed(name, S3, was), aim), script.upload)
      ensures d.name in old(looks) ==> looks == old(looks)[d.name := old(looks)[d.name].(aim := aim)]
      ensures Path(e.storageDir, name) in fs <==> !(at.Some? && aim.Some? && aim.value.upload.deleteLocal && !script.unlinkBreaks)
    {
      hide Reachable, EnvOk, Apply, StageAfter, FileAfter, Changed, Enabled, OnlyJob;
      ghost var w := W();
      aim := settings;
      record, at := None, None;
      AimIs(e, w, id);
      ChangedIs(e, fs, name, []);
      Move(w, Aim(id));
      ghost var w1 := W();
      SkippedStaysLocal(w1, id, d, name);
      if settings.None? || settings.value.upload.provider != S3 { return; }
      var s := settings.value.upload;
      if s.store.bucket == "" || s.store.region == "" || s.accessKeyId == "" || s.secretAccessKey == "" { return; }
      record, at := PutAndTidy(id, d, name, ToS3(s.store, S3Key(s.prefix, name)), s.deleteLocal, script);
      OnlyJobChains(w, w1, W(), id);
    }

    /** uploadToGdrive: only the login is read again. */
    method UploadToGdrive(id: Id, d: Dump, name: string, deleteLocal: bool, script: Script)
      returns (record: Option<Record>, ghost at: Option<Location>, aim: Option<Settings>)
      requires Valid() && At(id, d, Routed(name, GoogleDrive, deleteLocal))
      modifies this
      ensures Valid() && OnlyJob(old(W()), W(), id) && At(id, d, Shipped(name, at))
      ensures record == if at.Some? then Some(RecordOf(at.value)) else None
      ensures ShipsTo(e, at, AimOf(e, Routed(name, GoogleDrive, deleteLocal), aim), script.upload)
      ensures d.name in old(looks) ==> looks == old(looks)[d.name := old(looks)[d.name].(aim := aim)]
      ensures Path(e.storageDir, name) in fs <==> !(at.Some? && deleteLocal && !script.unlinkBreaks)
    {
      hide Reachable, EnvOk, Apply, StageAfter, FileAfter, Changed, Enabled, OnlyJob;
      ghost var w := W();
      aim := settings;
      record, at := None, None;
      AimIs(e, w, id);
      ChangedIs(e, fs, name, []);
      Move(w, Aim(id));
      ghost var w1 := W();
      SkippedStaysLocal(w1, id, d, name);
      if settings.None? { return; }
      var login := settings.value.upload.login;
      if login.clientId == "" || login.clientSecret == "" || login.refreshToken == "" { return; }
      record, at := PutAndTidy(id, d, name, ToDrive(e.account(login)), deleteLocal, script);
      OnlyJobChains(w, w1, W(), id);
    }

    /** The first look at the settings chooses the provider. */
    method RouteUpload(id: Id, d: Dump, name: string) returns (route: Option<Settings>)
      requires Valid() && At(id, d, Secured(name))
      modifies this
      ensures Valid() && OnlyJob(old(W()), W(), id) && At(id, d, RouteOf(name, route)) && route == old(settings)
      ensures d.name in old(looks) ==> looks == old(looks)[d.name := old(looks)[d.name].(route := route)]
    {
      hide Reachable, EnvOk, Apply, StageAfter, FileAfter, Changed, Enabled, OnlyJob, RouteOf;
      ghost var w := W();
      route := settings;
      RouteIs(e, w, id);
      ChangedIs(e, fs, name, []);
      Move(w, Route(id));
    }

    /** uploadBackupFile: the provider is chosen on one look at the settings, the rest on another. */
    method UploadBackupFile(id: Id, d: Dump, name: string, script: Script)
      returns (record: Option<Record>, ghost at: Option<Location>, route: Option<Settings>, aim: Option<Settings>)
      requires Valid() && At(id, d, Secured(name))
      modifies this
      ensures Valid() && OnlyJob(old(W()), W(), id) && At(id, d, Shipped(name, at))
      ensures record == if at.Some? then Some(RecordOf(at.value)) else None
      ensures RecordedRemote(e, record, name, route, aim, script.upload)
      ensures Path(e.storageDir, name) in fs <==> !(record.Some? && LocalGoes(route, aim) && !script.unlinkBreaks)
      ensures d.name in looks && looks[d.name].route == route && looks[d.name].aim == aim
    {
      ghost var w0 := W();
      SecuredLooks(e, w0, id, d, name);
      hide Reachable, EnvOk, AimOf, OthersRan, Spared, OnlyJob, RecordedRemote;
      record, at, aim := None, None, None;
      route := RouteUpload(id, d, name);
      if route.Some? && route.value.upload.provider != LocalOnly {
        ghost var w := W();
        record, at, aim := UploadRouted(id, d, name, route, script);
        OnlyJobChains(w0, w, W(), id);
      } else {
        UnroutedIsLocal(e, name, route, aim, script.upload);
        SkippedStaysLocal(W(), id, d, name);
      }
    }

    /** With a provider chosen: wait, look again, upload. */
    method UploadRouted(id: Id, d: Dump, name: string, route: Option<Settings>, script: Script)
      returns (record: Option<Record>, ghost at: Option<Location>, aim: Option<Settings>)
      requires Valid() && route.Some? && route.value.upload.provider != LocalOnly
      requires At(id, d, Routed(name, route.value.upload.provider, route.value.upload.deleteLocal)) && d.name in looks
      modifies this
      ensures Valid() && OnlyJob(old(W()), W(), id) && At(id, d, Shipped(name, at))
      ensures record == if at.Some? then Some(RecordOf(at.value)) else None
      ensures RecordedRemote(e, record, name, route, aim, script.upload)
      ensures Path(e.storageDir, name) in fs <==> !(record.Some? && LocalGoes(route, aim) && !script.unlinkBreaks)
      ensures looks == old(looks)[d.name := old(looks)[d.name].(aim := aim)]
    {
      hide Reachable, EnvOk, AimOf, OthersRan, Spared, OnlyJob, RecordedRemote;
      var s := route.value.upload;
      ghost var w0 := W();
      OnlyJobSelf(w0, id);
      Yield();
      WaitedFor(w0, w0, W(), id);
      RanSame(w0, W());
      ghost var w := W();
      if s.provider == S3 {
        record, at, aim := UploadToS3(id, d, name, s.deleteLocal, script);
      } else {
        record, at, aim := UploadToGdrive(id, d, name, s.deleteLocal, script);
      }
      AimedIsRecorded(e, name, route, s.deleteLocal, aim, at, script.upload);
      ShippedWithAim(e, name, route, s.deleteLocal, aim, at, script.upload);
      OnlyJobChains(w0, w, W(), id);
    }

    /** What the last lines of a job do to its row. */
    method FailJob(id: Id)
      requires Valid() && id in jobs
      modifies this
      ensures Valid() && W() == old(W()).(rows := rows, jobs := old(jobs) - {id})
      ensures id in rows ==> rows[id].status == Failed
      ensures rows.Keys == old(rows).Keys && forall j :: j in rows ==> rows[j] == if j == id then old(rows)[j].(status := Failed) else old(rows)[j]
    {
      hide Reachable, EnvOk, Apply;
      ghost var w := W();
      RowsIs(e, w, Action.Fail(id));
      if id in rows { rows := rows[id := rows[id].(status := Failed)]; }
      Advance(w, Action.Fail(id));
    }

    /** The choice whether to encrypt, on the settings as they are. */
    method ChooseProtection(id: Id, d: Dump) returns (seen: Option<Settings>)
      requires Valid() && At(id, d, Admitted)
      modifies this
      ensures Valid() && OnlyJob(old(W()), W(), id) && seen == old(settings)
      ensures d.name in looks && looks[d.name].seen == seen
      ensures At(id, d, match AskedPassphrase(seen) case Some(pass) => Sealing(pass, 1, Fresh) case None => Secured(d.name))
    {
      hide Reachable, EnvOk, Apply, StageAfter, FileAfter, Changed, Enabled, OnlyJob;
      ghost var w := W();
      seen := settings;
      ChooseIs(e, w, id);
      ChangedIs(e, fs, d.name, []);
      Move(w, Choose(id));
    }

    /** The plaintext goes only from a job whose encrypted file was seen to decrypt to it. */
    method RemovePlaintext(id: Id, d: Dump, pass: string)
      requires Valid() && At(id, d, Verified(pass))
      modifies this
      ensures Valid() && OnlyJob(old(W()), W(), id) && At(id, d, Secured(d.name + ENC))
      ensures Path(e.storageDir, d.name) !in fs
    {
      hide Reachable, EnvOk, Apply, StageAfter, FileAfter, Changed, Enabled, OnlyJob;
      ghost var w := W();
      RemovePlainIs(e, w, id);
      ChangedIs(e, fs, d.name, []);
      fs := fs - {Path(e.storageDir, d.name)};
      Move(w, RemovePlain(id));
    }

    /** The job has an admitted dump to look after. */
    ghost predicate Has(id: Id, d: Dump)
      reads this
    {
      id in jobs && jobs[id].Working? && jobs[id].dump == d && !jobs[id].stage.Dumped? && !jobs[id].stage.Rejected? && !jobs[id].stage.Recorded?
    }

    /** Steps 1 and 1.5: the integrity check, the settings, encryption, and the removal of the plaintext. */
    method SecureDump(id: Id, d: Dump, script: Script) returns (name: string, threw: bool, seen: Option<Settings>)
      requires Valid() && At(id, d, Admitted)
      modifies this
      ensures Valid() && OnlyJob(old(W()), W(), id) && Has(id, d)
      ensures threw <==> script.fault != RecordFails && Stops(e.g, script, d, seen)
      ensures !threw ==> name == ArtifactName(e.g, script, d, seen) && At(id, d, Secured(name))
      ensures script.fault != IntegrityReadFails && script.fault != SettingsReadFails ==> d.name in looks && looks[d.name].seen == seen
    {
      hide Reachable, EnvOk, OthersRan, Spared, OnlyJob, Verifies, ArtifactName;
      ghost var w0 := W();
      name, threw, seen := d.name, true, None;
      OnlyJobSelf(w0, id);
      if script.fault == IntegrityReadFails { return; }
      Yield();
      WaitedFor(w0, w0, W(), id);
      if script.fault == SettingsReadFails { return; }
      ghost var w := W();
      name, threw, seen := ProtectDump(id, d, script);
      OnlyJobChains(w0, w, W(), id);
      hide Stops;
    }

    /** With the settings read: encrypt if they say so. */
    method ProtectDump(id: Id, d: Dump, script: Script) returns (name: string, threw: bool, seen: Option<Settings>)
      requires Valid() && At(id, d, Admitted) && script.fault != IntegrityReadFails && script.fault != SettingsReadFails
      modifies this
      ensures Valid() && OnlyJob(old(W()), W(), id) && Has(id, d)
      ensures threw <==> script.fault != RecordFails && Stops(e.g, script, d, seen)
      ensures !threw ==> name == ArtifactName(e.g, script, d, seen) && At(id, d, Secured(name))
      ensures script.fault != IntegrityReadFails && script.fault != SettingsReadFails ==> d.name in looks && looks[d.name].seen == seen
    {
      hide Reachable, EnvOk, OnlyJob, Verifies, Stops, ArtifactName;
      ghost var w0 := W();
      seen := ChooseProtection(id, d);
      ProtectionCases(e.g, script, d, seen);
      if seen.None? || !seen.value.encryptionEnabled || seen.value.passphrase.None? {
        return d.name, false, seen;
      }
      if script.fault == PassphraseFails || script.fault == HashFails {
        return d.name, true, seen;
      }
      ghost var w := W();
      name, threw := SealDump(id, d, seen.value.passphrase.value, script);
      SeenStays(w, W(), id, d.name);
      OnlyJobChains(w0, w, W(), id);
    }

    lemma OnlyJobSelf(w: World, id: Id)
      ensures OnlyJob(w, w, id)
    {
    }

    method SealDump(id: Id, d: Dump, pass: string, script: Script) returns (name: string, threw: bool)
      requires Valid() && At(id, d, Sealing(pass, 1, Fresh))
      modifies this
      ensures Valid() && OnlyJob(old(W()), W(), id) && Has(id, d)
      ensures var sealed := Verifies(e.g, script.first.what, pass, d.bytes) || Verifies(e.g, script.second.what, pass, d.bytes);
              && (threw <==> sealed && script.fault == PlainStays)
              && (!threw ==> name == (if sealed then d.name + ENC else d.name) && At(id, d, Secured(name)))
    {
      hide Reachable, EnvOk, OnlyJob, Verifies;
      ghost var w0 := W();
      var encryptedOk := EncryptAtRest(id, d, pass, script.first, script.second);
      if !encryptedOk { return d.name, false; }
      if script.fault == PlainStays { return d.name, true; }
      ghost var w := W();
      RemovePlaintext(id, d, pass);
      OnlyJobChains(w0, w, W(), id);
      return d.name + ENC, false;
    }

    /** Step 3: the row says where its artifact is. */
    method RecordJob(id: Id, d: Dump, name: string, record: Option<Record>, ghost at: Option<Location>)
      requires Valid() && At(id, d, Shipped(name, at)) && id in rows
      requires record == if at.Some? then Some(RecordOf(at.value)) else None
      modifies this
      ensures Valid() && At(id, d, Stage.Recorded)
      ensures jobs.Keys == old(jobs).Keys && forall j :: j in jobs && j != id ==> jobs[j] == old(jobs)[j]
      ensures rows == old(rows)[id := Row(Completed, name, Some(Path(e.storageDir, name)), record)]
      ensures id in dumps && dumps[id] == d.bytes && id in bases && bases[id] == d.name
      ensures id in rows && Restorable(e, W(), id) && looks == old(looks)
    {
      hide Reachable, EnvOk, Apply, Restorable;
      ghost var w := W();
      RecordedIs(e, w, Complete(id));
      ReachableInv(e, w);
      CompleteOk(e, w, id);
      hide Inv;
      rows := rows[id := Row(Completed, name, Some(Path(e.storageDir, name)), record)];
      Advance(w, Complete(id));
    }

    /** Steps 2 and 3: upload, then record, unless the row is gone or the update fails. */
    method ShipAndRecord(id: Id, d: Dump, name: string, script: Script, seen: Option<Settings>) returns (outcome: Outcome)
      requires Valid() && At(id, d, Secured(name)) && d.name in looks && looks[d.name].seen == seen
      modifies this
      ensures Valid() && jobs.Keys == old(jobs).Keys && forall j :: j in jobs && j != id ==> jobs[j] == old(jobs)[j]
      ensures if script.fault == RecordFails || id !in rows then outcome == Unrecorded(d, seen) && Has(id, d)
              else outcome.Recorded? && outcome.dump == d && outcome.seen == seen && At(id, d, Stage.Recorded)
                   && JobRecorded(id, name, script.upload, outcome) && rows[id].status == Completed
      ensures outcome.Unrecorded? ==> d.name in looks && looks[d.name].seen == seen
    {
      hide Reachable, EnvOk, OthersRan, Spared, RecordedRemote, Restorable;
      ghost var w := W();
      var record, at, route, aim := UploadBackupFile(id, d, name, script);
      ghost var w1 := W();
      Yield();
      RanSame(w1, W());
      WaitedFor(w, w1, W(), id);
      if script.fault == RecordFails || id !in rows {
        return Unrecorded(d, seen);
      }
      RecordJob(id, d, name, record, at);
      outcome := Outcome.Recorded(d, rows[id], seen, route, aim);
    }

    /** A recorded job's row says where its artifact is, under the settings the job saw. */
    ghost predicate JobRecorded(id: Id, name: string, fault: UploadFault, outcome: Outcome)
      requires outcome.Recorded?
      reads this
    {
      && id in dumps && dumps[id] == outcome.dump.bytes
      && id in bases && bases[id] == outcome.dump.name
      && id in rows && rows[id] == outcome.row.(status := rows[id].status) && outcome.row.status == Completed
      && outcome.row.fileName == name && outcome.row.filePath == Some(Path(e.storageDir, name))
      && RecordedRemote(e, outcome.row.remote, name, outcome.route, outcome.aim, fault)
      && Saw(outcome.dump.name, outcome.seen, outcome.route, outcome.aim)
      && Restorable(e, W(), id)
    }

    /** These are the settings as the job with this dump name read them, at its three looks. */
    ghost predicate Saw(b: string, seen: Option<Settings>, route: Option<Settings>, aim: Option<Settings>)
      reads this
    {
      b in looks && looks[b].seen == seen && looks[b].route == route && looks[b].aim == aim
    }

    /** The worker from the quota check on: recorded, or failed with a copy of the dump still stored. */
    method FinishJob(id: Id, d: Dump, script: Script) returns (outcome: Outcome)
      requires Valid() && At(id, d, Admitted)
      modifies this
      ensures Valid() && jobs == old(jobs) - {id}
      ensures outcome.Unrecorded? || outcome.Recorded?
      ensures outcome.dump == d
      ensures outcome.Recorded? ==>
                && !Stops(e.g, script, d, outcome.seen)
                && JobRecorded(id, ArtifactName(e.g, script, d, outcome.seen), script.upload, outcome)
                && rows[id].status == (if script.fault == PublishFails then Failed else Completed)
      ensures outcome.Unrecorded? ==> CopyStored(e, W(), d)
      ensures outcome.Unrecorded? ==> id !in rows || (rows[id].status == Failed && Stops(e.g, script, d, outcome.seen))
      ensures outcome.Unrecorded? && script.fault != IntegrityReadFails && script.fault != SettingsReadFails ==>
                d.name in looks && looks[d.name].seen == outcome.seen
      // encryption as the settings ask: sealed when an attempt verifies, and then no plaintext is left
      ensures outcome.Recorded? ==>
                && outcome.row.fileName == (match outcome.seen
                                            case Some(Settings(_, true, Some(pass), _)) =>
                                              if Verifies(e.g, script.first.what, pass, d.bytes) || Verifies(e.g, script.second.what, pass, d.bytes)
                                              then d.name + ENC else d.name
                                            case _ => d.name)
                && (outcome.row.fileName == d.name + ENC ==> Path(e.storageDir, d.name) !in fs)
    {
      hide Reachable, EnvOk, OthersRan, Spared, Stops, ArtifactName, JobRecorded, CopyStored;
      StopsAtRecord(e.g, script, d);
      ghost var w0 := W();
      var name, threw, seen := SecureDump(id, d, script);
      ghost var w := W();
      if threw {
        AbandonJob(id, d);
        return Unrecorded(d, seen);
      }
      Yield();
      RanSame(w, W());
      NameIsAsAsked(script, d, seen);
      StopsEarly(e.g, script, d, seen);
      outcome := ShipAndClose(id, d, name, script, seen);
    }

    /** The second half: ship, record, and the end either way. */
    method ShipAndClose(id: Id, d: Dump, name: string, script: Script, seen: Option<Settings>) returns (outcome: Outcome)
      requires Valid() && At(id, d, Secured(name)) && d.name in looks && looks[d.name].seen == seen
      modifies this
      ensures Valid() && jobs == old(jobs) - {id}
      ensures outcome == Unrecorded(d, seen) || (outcome.Recorded? && outcome.dump == d && outcome.seen == seen && script.fault != RecordFails)
      ensures outcome.Recorded? ==>
                && JobRecorded(id, name, script.upload, outcome)
                && rows[id].status == (if script.fault == PublishFails then Failed else Completed)
                && outcome.row.fileName == name && (name == d.name + ENC ==> Path(e.storageDir, d.name) !in fs)
      ensures outcome.Unrecorded? ==> CopyStored(e, W(), d) && d.name in looks && looks[d.name].seen == seen
      ensures outcome.Unrecorded? ==> id !in rows || (rows[id].status == Failed && script.fault == RecordFails)
    {
      hide Reachable, EnvOk, CopyStored, RecordedRemote, Restorable;
      outcome := ShipAndRecord(id, d, name, script, seen);
      if outcome.Unrecorded? {
        AbandonJob(id, d);
      } else {
        CloseJob(id, d, name, script, outcome);
        NoPlaintextLeft(W(), id, d, name);
      }
    }

    lemma NameIsAsAsked(script: Script, d: Dump, seen: Option<Settings>)
      ensures ArtifactName(e.g, script, d, seen) ==
              match seen
              case Some(Settings(_, true, Some(pass), _)) =>
                if Verifies(e.g, script.first.what, pass, d.bytes) || Verifies(e.g, script.second.what, pass, d.bytes) then d.name + ENC else d.name
              case _ => d.name
    {
      hide Verifies;
    }

    lemma NoPlaintextLeft(w: World, id: Id, d: Dump, name: string)
      requires EnvOk(e) && Reachable(e, w) && id in w.rows && w.rows[id].filePath.Some? && w.rows[id].fileName == name
      requires id in w.bases && w.bases[id] == d.name
      ensures name == d.name + ENC ==> Path(e.storageDir, d.name) !in w.fs
    {
      hide Reachable, EnvOk;
      ReachableChoices(e, w);
      assert RowAsAsked(e, w, id);
    }

    /** A job that ends before its row is recorded: the row becomes FAILED, the copy stays. */
    method AbandonJob(id: Id, d: Dump)
      requires Valid() && Has(id, d)
      modifies this
      ensures Valid() && jobs == old(jobs) - {id} && CopyStored(e, W(), d) && looks == old(looks)
      ensures rows.Keys == old(rows).Keys && (id in rows ==> rows[id].status == Failed)
    {
      JobStands(e, W(), id, d, jobs[id].stage);
      hide Reachable, EnvOk, Holding, CopyStored;
      FailJob(id);
      AdmittedHasCopy(e, W(), d);
    }

    /** After the record: the publish may still fail, and then the row does. */
    method CloseJob(id: Id, d: Dump, name: string, script: Script, outcome: Outcome)
      requires Valid() && At(id, d, Stage.Recorded) && outcome.Recorded? && JobRecorded(id, name, script.upload, outcome)
      requires rows[id].status == Completed
      modifies this
      ensures Valid() && jobs == old(jobs) - {id} && JobRecorded(id, name, script.upload, outcome)
      ensures id in rows && rows[id].status == (if script.fault == PublishFails then Failed else Completed)
    {
      hide Reachable, EnvOk, RecordedRemote, Apply;
      ghost var w := W();
      if script.fault == PublishFails {
        FailJob(id);
      } else {
        RowsIs(e, w, Leave(id));
        Advance(w, Leave(id));
      }
      SameArtifact(e, w, W(), id);
    }

    /** The engine's dump appears under a new name. */
    method StoreDump(id: Id, d: Dump)
      requires Valid() && id in jobs && jobs[id].Begun? && EngineName(d.name) && d.name !in used
      modifies this
      ensures Valid() && jobs == old(jobs)[id := Working(d, Dumped)] && rows == old(rows) && used == old(used) + {d.name}
    {
      hide Reachable, EnvOk, Apply, EngineName;
      ghost var w := W();
      fs := fs[Path(e.storageDir, d.name) := d.bytes];
      WrittenIs(e, w, WriteDump(id, d));
      Advance(w, WriteDump(id, d));
    }

    /** Over quota: the dump is discarded. */
    method DiscardDump(id: Id, d: Dump)
      requires Valid() && At(id, d, Dumped)
      modifies this
      ensures Valid() && jobs == old(jobs)[id := Working(d, Rejected)] && rows == old(rows)
      ensures Path(e.storageDir, d.name) !in fs
    {
      hide Reachable, EnvOk, Apply, StageAfter, FileAfter, Changed, Enabled;
      ghost var w := W();
      RejectIs(e, w, id);
      ChangedIs(e, fs, d.name, []);
      fs := fs - {Path(e.storageDir, d.name)};
      Move(w, Reject(id));
    }

    ghost method AdmitDump(id: Id, d: Dump)
      requires Valid() && At(id, d, Dumped)
      modifies this
      ensures Valid() && jobs == old(jobs)[id := Working(d, Admitted)]
    {
      hide Reachable, EnvOk, Apply;
      AdmitIs(e, W(), Admit(id));
      Advance(W(), Admit(id));
    }

    method StartJob(id: Id)
      requires Valid() && id in rows && id !in jobs
      modifies this
      ensures Valid() && jobs == old(jobs)[id := Begun] && rows == old(rows)[id := old(rows)[id].(status := Running)] && used == old(used)
    {
      hide Reachable, EnvOk, Apply;
      ghost var w := W();
      RowsIs(e, w, Action.Start(id));
      rows := rows[id := rows[id].(status := Running)];
      Advance(w, Action.Start(id));
    }

    /** The worker's job body. Other requests run at every await. */
    method RunBackupJob(id: Id, script: Script) returns (outcome: Outcome)
      requires Valid() && id !in jobs
      requires script.dump.Some? ==> EngineName(script.dump.value.name) && script.dump.value.name !in used
      modifies this
      ensures Valid() && jobs == old(jobs)
      ensures outcome == RowMissing <==> id !in old(rows)
      ensures id in old(rows) ==> (outcome == DumpFailed <==> script.dump.None?)
      ensures id in old(rows) && script.dump.Some? ==>
                && (outcome == NotChecked <==> script.fault == QuotaReadFails)
                && (outcome == OverQuota <==> script.fault != QuotaReadFails && script.overQuota)
      ensures outcome == OverQuota ==> Path(e.storageDir, script.dump.value.name) !in fs
      ensures outcome == DumpFailed || outcome == NotChecked || outcome == OverQuota ==> id in rows ==> rows[id].status == Failed
      // past the quota check a copy of the dump is stored, however the job ends
      ensures outcome.Unrecorded? ==> script.dump == Some(outcome.dump) && CopyStored(e, W(), outcome.dump)
      // and it ends unrecorded only when its row was deleted or one of its own steps threw
      ensures outcome.Unrecorded? ==> id !in rows || (rows[id].status == Failed && Stops(e.g, script, outcome.dump, outcome.seen))
      ensures outcome.Recorded? ==>
                && script.dump == Some(outcome.dump) && !Stops(e.g, script, outcome.dump, outcome.seen)
                && JobRecorded(id, ArtifactName(e.g, script, outcome.dump, outcome.seen), script.upload, outcome)
                && rows[id].status == (if script.fault == PublishFails then Failed else Completed)
      ensures outcome.Unrecorded? && script.fault != IntegrityReadFails && script.fault != SettingsReadFails ==>
                outcome.dump.name in looks && looks[outcome.dump.name].seen == outcome.seen
      // encryption as the settings ask: sealed when an attempt verifies, and then no plaintext is left
      ensures outcome.Recorded? ==>
                && outcome.row.fileName == (match outcome.seen
                                            case Some(Settings(_, true, Some(pass), _)) =>
                                              if Verifies(e.g, script.first.what, pass, outcome.dump.bytes) || Verifies(e.g, script.second.what, pass, outcome.dump.bytes)
                                              then outcome.dump.name + ENC else outcome.dump.name
                                            case _ => outcome.dump.name)
                && (outcome.row.fileName == outcome.dump.name + ENC ==> Path(e.storageDir, outcome.dump.name) !in fs)
    {
      hide Reachable, EnvOk, OthersRan, Spared, Stops, ArtifactName, JobRecorded, CopyStored, EngineName, OnlyJob;
      if id !in rows {
        return RowMissing;
      }
      StartJob(id);
      ghost var w := W();
      Yield();
      RanSame(w, W());
      if script.dump.None? {
        FailJob(id);
        return DumpFailed;
      }
      StoreDump(id, script.dump.value);
      outcome := CheckDump(id, script.dump.value, script);
    }

    /** Step 0, the quota check, on a dump that is on disk; and then the rest. */
    method CheckDump(id: Id, d: Dump, script: Script) returns (outcome: Outcome)
      requires Valid() && At(id, d, Dumped) && script.dump == Some(d)
      modifies this
      ensures Valid() && jobs == old(jobs) - {id}
      ensures outcome == NotChecked <==> script.fault == QuotaReadFails
      ensures outcome == OverQuota <==> script.fault != QuotaReadFails && script.overQuota
      ensures outcome == NotChecked || outcome == OverQuota || outcome.Unrecorded? || outcome.Recorded?
      ensures outcome == OverQuota ==> Path(e.storageDir, d.name) !in fs
      ensures outcome == NotChecked || outcome == OverQuota ==> id in rows ==> rows[id].status == Failed
      ensures outcome.Unrecorded? ==> outcome.dump == d && CopyStored(e, W(), d)
      ensures outcome.Unrecorded? && script.fault != IntegrityReadFails && script.fault != SettingsReadFails ==>
                d.name in looks && looks[d.name].seen == outcome.seen
      // encryption as the settings ask: sealed when an attempt verifies, and then no plaintext is left
      ensures outcome.Recorded? ==>
                && outcome.row.fileName == (match outcome.seen
                                            case Some(Settings(_, true, Some(pass), _)) =>
                                              if Verifies(e.g, script.first.what, pass, d.bytes) || Verifies(e.g, script.second.what, pass, d.bytes)
                                              then d.name + ENC else d.name
                                            case _ => d.name)
                && (outcome.row.fileName == d.name + ENC ==> Path(e.storageDir, d.name) !in fs)
      ensures outcome.Unrecorded? ==> id !in rows || (rows[id].status == Failed && Stops(e.g, script, d, outcome.seen))
      ensures outcome.Recorded? ==>
                && outcome.dump == d && !Stops(e.g, script, d, outcome.seen)
                && JobRecorded(id, ArtifactName(e.g, script, d, outcome.seen), script.upload, outcome)
                && rows[id].status == (if script.fault == PublishFails then Failed else Completed)
    {
      hide Reachable, EnvOk, OthersRan, Spared, Stops, ArtifactName, JobRecorded, CopyStored;
      ghost var w := W();
      Yield();
      RanSame(w, W());
      if script.fault == QuotaReadFails {
        FailJob(id);
        return NotChecked;
      }
      if script.overQuota {
        DiscardDump(id, d);
        FailJob(id);
        return OverQuota;
      }
      AdmitDump(id, d);
      outcome := FinishJob(id, d, script);
    }

    // ── Resolution ──

    /** maybeDecrypt: the first passphrase that opens the file wins; a temp copy of the .enc is dropped. */
    method MaybeDecrypt(filePath: Path, tempDir: string, expectEncrypted: bool) returns (r: Result<Resolved, ResolveError>)
      requires filePath in fs
      modifies this`fs
      ensures var file := old(fs)[filePath];
              var plainPath := Path(tempDir, StripEnc(filePath.name));
              match Opened(e.g, file, expectEncrypted, plainPath == filePath, Candidates(settings))
              case Ok(bytes) =>
                && r == Ok(Resolved(if IsEncryptedFile(file) then plainPath else filePath,
                                    IsEncryptedFile(file) || StartsWith(Text(filePath), tempDir)))
                && r.value.localPath in fs && fs[r.value.localPath] == bytes
              case Err(error) => r == Err(error)
      ensures SameOutside(old(fs), fs, tempDir, filePath)
      ensures filePath.dir != tempDir ==>
                && (filePath in fs <==> !(r.Ok? && IsEncryptedFile(old(fs)[filePath]) && StartsWith(Text(filePath), e.tmpDir)))
                && (filePath in fs ==> fs[filePath] == old(fs)[filePath])
    {
      hide Unseal, IsEncryptedFile, StartsWith, StripEnc, Candidates;
      var file := fs[filePath];
      if !IsEncryptedFile(file) {
        if expectEncrypted {
          return Err(RefusedPlain);
        }
        return Ok(Resolved(filePath, StartsWith(Text(filePath), tempDir)));
      }
      var candidates := Candidates(settings);
      if candidates == [] {
        return Err(NoPassphrase);
      }
      var plainPath := Path(tempDir, StripEnc(filePath.name));
      var decrypted := false;
      var i := 0;
      while i < |candidates| && !decrypted
        invariant 0 <= i <= |candidates|
        invariant filePath in fs && (filePath == plainPath || fs[filePath] == file)
        invariant SameOutside(old(fs), fs, tempDir, filePath)
        invariant filePath == plainPath ==> !decrypted
        invariant filePath != plainPath && !decrypted ==> DecryptWith(e.g, file, candidates) == DecryptWith(e.g, file, candidates[i..])
        invariant decrypted ==> plainPath in fs && DecryptWith(e.g, file, candidates) == Ok(fs[plainPath])
      {
        var failed := DecryptBackupFile(filePath, plainPath, candidates[i]);
        decrypted := failed.None?;
        i := i + 1;
      }
      if !decrypted {
        return Err(NoneOpens);
      }
      if StartsWith(Text(filePath), e.tmpDir) {
        fs := fs - {filePath};
      }
      r := Ok(Resolved(plainPath, true));
    }

    /**
     * ensureLocalBackupFile. `tempDir` is the new directory mkdtemp makes; `reachable` says whether
     * a download goes through.
     */
    method EnsureLocalBackupFile(row: Row, tempDir: string, reachable: bool) returns (r: Result<Resolved, ResolveError>)
      requires FreshTempDir(tempDir)
      modifies this`fs
      ensures var spec := ResolvedBytes(e, old(fs), remote, settings, row);
              if FromDisk(old(fs), row) || reachable || row.remote.None? || Located(e, settings, row.remote.value).None? then
                match spec
                case Ok(bytes) => r.Ok? && r.value.localPath in fs && fs[r.value.localPath] == bytes
                case Err(error) => r == Err(error)
              else r == Err(DownloadFailed)
      ensures r.Ok? && r.value.downloaded ==> r.value.localPath.dir == tempDir
      ensures r.Ok? && !r.value.downloaded ==> fs == old(fs)
      // outside the temp directory at most the resolved artifact itself goes, and only from under the temp path
      ensures forall p: Path :: p.dir != tempDir && !(FromDisk(old(fs), row) && Some(p) == row.filePath) ==> (p in fs <==> p in old(fs)) && (p in fs ==> fs[p] == old(fs)[p])
      ensures FromDisk(old(fs), row) ==>
                var p := row.filePath.value;
                && (p in fs <==> !(r.Ok? && IsEncryptedFile(old(fs)[p]) && StartsWith(Text(p), e.tmpDir)))
                && (p in fs ==> fs[p] == old(fs)[p])
    {
      hide Opened, IsEncryptedFile, StartsWith, Located, DownloadName, IsEncryptedName;
      var expectEncrypted := IsEncryptedName(row.fileName) || (row.filePath.Some? && IsEncryptedName(row.filePath.value.name));
      if row.filePath.Some? && row.filePath.value in fs {
        r := OpenLocal(row.filePath.value, tempDir, expectEncrypted);
        return;
      }
      if row.remote.None? {
        return Err(NotFound);
      }
      var at := Located(e, settings, row.remote.value);
      if at.None? {
        return Err(NotConfigured);
      }
      if !reachable || at.value !in remote {
        return Err(DownloadFailed);
      }
      r := OpenDownloaded(remote[at.value], DownloadName(row.fileName), tempDir, expectEncrypted);
    }

    /** The artifact is on disk. */
    method OpenLocal(filePath: Path, tempDir: string, expectEncrypted: bool) returns (r: Result<Resolved, ResolveError>)
      requires FreshTempDir(tempDir) && filePath in fs
      modifies this`fs
      ensures match Opened(e.g, old(fs)[filePath], expectEncrypted, false, Candidates(settings))
              case Ok(bytes) => r.Ok? && r.value.localPath in fs && fs[r.value.localPath] == bytes
              case Err(error) => r == Err(error)
      ensures r.Ok? && r.value.downloaded ==> r.value.localPath.dir == tempDir
      ensures r.Ok? && !r.value.downloaded ==> fs == old(fs)
      ensures SameOutside(old(fs), fs, tempDir, filePath)
      ensures filePath in fs <==> !(r.Ok? && IsEncryptedFile(old(fs)[filePath]) && StartsWith(Text(filePath), e.tmpDir))
      ensures filePath in fs ==> fs[filePath] == old(fs)[filePath]
    {
      hide DecryptWith, IsEncryptedFile, StartsWith, Candidates;
      if IsEncryptedFile(fs[filePath]) {
        r := MaybeDecrypt(filePath, tempDir, expectEncrypted);
        return;
      }
      if expectEncrypted {
        return Err(RefusedPlain);
      }
      return Ok(Resolved(filePath, false));
    }

    /** It was downloaded into the temp directory, which goes again when it does not open. */
    method OpenDownloaded(bytes: Bytes, name: string, tempDir: string, expectEncrypted: bool) returns (r: Result<Resolved, ResolveError>)
      requires FreshTempDir(tempDir)
      modifies this`fs
      ensures match Opened(e.g, bytes, expectEncrypted, StripEnc(name) == name, Candidates(settings))
              case Ok(plain) => r.Ok? && r.value.localPath in fs && fs[r.value.localPath] == plain
              case Err(error) => r == Err(error)
      ensures r.Ok? ==> r.value.downloaded && r.value.localPath.dir == tempDir
      ensures SameOutsideDir(old(fs), fs, tempDir)
    {
      var destPath := Path(tempDir, name);
      InsideItsDir(destPath);
      hide Opened, IsEncryptedFile, StartsWith, Candidates, StripEnc;
      fs := fs[destPath := bytes];
      r := MaybeDecrypt(destPath, tempDir, expectEncrypted);
      if r.Err? {
        CleanupTempFile(destPath);
      }
    }

    lemma InsideItsDir(p: Path)
      ensures StartsWith(Text(p), p.dir)
    {
    }

    ghost predicate FreshTempDir(tempDir: string)
      reads this
    {
      StartsWith(tempDir, e.tmpDir) && tempDir != e.storageDir && forall p :: p in fs ==> p.dir != tempDir
    }

    method CleanupTempFile(tempPath: Path)
      modifies this`fs
      ensures fs == WithoutDir(old(fs), tempPath.dir)
    {
      fs := WithoutDir(fs, tempPath.dir);
    }

    /** What every consumer does: resolve, read, clean up. It leaves the stored files as they were. */
    method ReadBackup(row: Row, tempDir: string, reachable: bool) returns (r: Result<Bytes, ResolveError>)
      requires OutsideTmp(e) && FreshTempDir(tempDir)
      requires row.filePath.Some? ==> row.filePath.value.dir == e.storageDir
      modifies this`fs
      ensures FromDisk(old(fs), row) || reachable ==> r == ResolvedBytes(e, old(fs), remote, settings, row)
      ensures r.Ok? ==> r == ResolvedBytes(e, old(fs), remote, settings, row)
      ensures r.Ok? ==> fs == old(fs)
      ensures SameOutsideDir(old(fs), fs, tempDir)
    {
      ghost var before := fs;
      hide ResolvedBytes, IsEncryptedFile;
      var resolved := EnsureLocalBackupFile(row, tempDir, reachable);
      ghost var fs1 := fs;
      assert FromDisk(before, row) ==> !StartsWith(Text(row.filePath.value), e.tmpDir) by {
        if FromDisk(before, row) { assert row.filePath.value == Path(e.storageDir, row.filePath.value.name); }
      }
      assert SameOutsideDir(before, fs1, tempDir);
      if resolved.Err? {
        return Err(resolved.error);
      }
      r := Ok(fs[resolved.value.localPath]);
      if resolved.value.downloaded {
        CleanupTempFile(resolved.value.localPath);
        CleanupRestores(before, fs1, tempDir);
      }
    }

    /**
     * A live backup gives exactly its dump when it is resolvable and nothing when it is not; the
     * stored files are afterwards what they were, and every other backup stays as resolvable as it was.
     */
    method UseBackup(id: Id, tempDir: string, reachable: bool) returns (r: Result<Bytes, ResolveError>)
      requires Valid() && OutsideTmp(e) && Live(W(), id) && FreshTempDir(tempDir)
      modifies this`fs
      ensures Valid() && SameOutsideDir(old(fs), fs, tempDir)
      ensures r.Ok? ==> fs == old(fs)
      ensures id in dumps
      ensures FromDisk(old(fs), rows[id]) || reachable ==> (r == Ok(dumps[id]) <==> old(Resolvable(e, W(), id)))
      ensures r == Ok(dumps[id]) ==> old(Resolvable(e, W(), id))
    {
      ghost var w := W();
      ReachableInv(e, w);
      LiveBackupResolves(e, w, id);
      ArtifactPlaced(e, w, id);
      hide Inv, ResolvedBytes, IsEncryptedFile, IsEncryptedName, SameOutsideDir, Reachable, EnvOk, Resolvable, Live;
      r := ReadBackup(rows[id], tempDir, reachable);
      LeftoversReachable(e, w, fs, tempDir);
    }
  }
}
