/**
 * Runs that show the conditions of ArtifactResolver.dfy are met and missed: a job that completes
 * locally, with a dump that resolves unless it begins with the magic; and one that ships its only
 * copy, which resolves until the bucket in the settings changes, and again once it is changed back.
 */
module BackupWitness {
  import opened Prelude
  import opened BackupCrypto
  import opened BackupStore
  import opened BackupInvariant
  import opened ArtifactResolver

  /** A job on its way, in a reachable state. */
  ghost predicate Going(e: Env, w: World, id: Id, d: Dump, stage: Stage, settings: Option<Settings>) {
    && Reachable(e, w) && id in w.rows && id in w.jobs && w.jobs[id] == Working(d, stage)
    && w.settings == settings && id !in w.deleting
    && Path(e.storageDir, d.name) in w.fs && w.fs[Path(e.storageDir, d.name)] == d.bytes
  }

  /** A server with settings, and nothing else yet. */
  ghost predicate Untried(e: Env, w: World, settings: Option<Settings>) {
    && Reachable(e, w) && w.rows == map[] && w.jobs == map[] && w.used == {} && w.bases == map[] && w.deleting == {}
    && w.settings == settings
  }

  lemma EmptyIsReachable(e: Env)
    ensures Untried(e, EMPTY, None)
  {
    assert Run(e, EMPTY, []) && After(e, EMPTY, []) == EMPTY;
  }

  lemma SaveFirst(e: Env, req: SettingsRequest) returns (w: World)
    requires Updated(None, req).Ok?
    ensures Untried(e, w, Some(Updated(None, req).value))
  {
    EmptyIsReachable(e);
    hide Reachable, Updated;
    w := Apply(e, EMPTY, SaveSettings(req));
    ReachableStep(e, EMPTY, SaveSettings(req));
  }

  lemma Begin(e: Env, w: World, settings: Option<Settings>, id: Id) returns (w': World)
    requires Untried(e, w, settings)
    ensures Reachable(e, w') && w'.settings == settings && id in w'.rows && w'.jobs == map[id := Begun] && w'.used == {} && w'.deleting == {}
  {
    hide Reachable;
    var w1 := Apply(e, w, Trigger(id));
    ReachableStep(e, w, Trigger(id));
    w' := Apply(e, w1, Start(id));
    ReachableStep(e, w1, Start(id));
  }

  lemma DumpAndAdmit(e: Env, w: World, id: Id, d: Dump) returns (w': World)
    requires Reachable(e, w) && id in w.rows && w.jobs == map[id := Begun] && w.used == {} && w.deleting == {} && EngineName(d.name)
    ensures Going(e, w', id, d, Admitted, w.settings)
  {
    hide Reachable, EngineName;
    var w1 := Apply(e, w, WriteDump(id, d));
    ReachableStep(e, w, WriteDump(id, d));
    w' := Apply(e, w1, Admit(id));
    ReachableStep(e, w1, Admit(id));
  }

  /** The moves that leave the disk alone. */
  lemma MoveOn(e: Env, w: World, id: Id, d: Dump, stage: Stage, settings: Option<Settings>, a: Action) returns (w': World)
    requires Going(e, w, id, d, stage, settings) && Enabled(e, w, a) && IsMove(a) && a.id == id
    requires FileAfter(e, w, a) == Keep
    ensures Going(e, w', id, d, StageAfter(e, w, a), settings) && w'.remote == w.remote && w'.driveNext == w.driveNext && w'.fs == w.fs
  {
    w' := Apply(e, w, a);
    MoveIs(e, w, a);
    ReachableStep(e, w, a);
    hide Apply, Reachable, StageAfter, Enabled, FileAfter;
  }

  /** From the admission on, with encryption off. */
  lemma PlainSecured(e: Env, w: World, id: Id, d: Dump, settings: Option<Settings>) returns (w': World)
    requires Going(e, w, id, d, Admitted, settings) && AskedPassphrase(settings) == None
    ensures Going(e, w', id, d, Secured(d.name), settings)
  {
    hide Reachable;
    w' := MoveOn(e, w, id, d, Admitted, settings, Choose(id));
  }

  /** The row a job records: live, in place, and with the dump's own bytes behind it. */
  lemma Finish(e: Env, w: World, id: Id, d: Dump, name: string, at: Option<Location>) returns (w': World)
    requires Reachable(e, w) && id in w.rows && id in w.jobs && w.jobs[id] == Working(d, Shipped(name, at)) && id !in w.deleting
    ensures Reachable(e, w') && Live(w', id) && w'.fs == w.fs && w'.remote == w.remote && w'.settings == w.settings
    ensures w'.rows[id] == CompletedRow(e, Shipped(name, at)) && id in w'.dumps && w'.dumps[id] == d.bytes
    ensures at.Some? ==> id in w'.homes && w'.homes[id] == at.value
  {
    hide Reachable;
    w' := Apply(e, w, Complete(id));
    ReachableStep(e, w, Complete(id));
  }

  lemma LocalJobRuns(e: Env, id: Id, d: Dump) returns (w: World)
    requires EngineName(d.name)
    ensures Reachable(e, w) && Live(w, id) && id in w.dumps && w.dumps[id] == d.bytes && w.settings == None
    ensures w.rows[id].fileName == d.name && w.rows[id].filePath == Some(Path(e.storageDir, d.name))
    ensures Path(e.storageDir, d.name) in w.fs && w.fs[Path(e.storageDir, d.name)] == d.bytes
  {
    EmptyIsReachable(e);
    hide Reachable, EngineName, Apply;
    w := Begin(e, EMPTY, None, id);
    w := DumpAndAdmit(e, w, id, d);
    w := PlainSecured(e, w, id, d, None);
    w := MoveOn(e, w, id, d, Secured(d.name), None, Route(id));
    w := Finish(e, w, id, d, d.name, None);
  }

  /** A dump stored plain that begins with the magic is live in some run, and does not resolve. */
  lemma MagicDumpIsRefused(e: Env, id: Id, d: Dump) returns (w: World)
    requires EngineName(d.name) && IsEncryptedFile(d.bytes)
    ensures Reachable(e, w) && Live(w, id) && id in w.dumps && w.dumps[id] == d.bytes
    ensures ResolvedBytes(e, w.fs, w.remote, w.settings, w.rows[id]) == Err(NoPassphrase)
  {
    w := LocalJobRuns(e, id, d);
    hide Reachable;
    assert !IsEncryptedName(d.name);
  }

  // ── The bucket ──

  /** S3 with everything it needs, deleting local copies, no encryption. */
  predicate ShipsToS3(s: Settings) {
    s.upload.provider.S3? && S3CanUpload(s.upload) && s.upload.deleteLocal && !s.encryptionEnabled
  }

  ghost predicate OnlyInS3(e: Env, w: World, id: Id, s: Settings, d: Dump) {
    var loc := S3Object(s.upload.store, S3Key(s.upload.prefix, d.name));
    && Reachable(e, w) && Live(w, id) && id in w.dumps && w.dumps[id] == d.bytes
    && w.rows[id] == CompletedRow(e, Shipped(d.name, Some(loc)))
    && Path(e.storageDir, d.name) !in w.fs && id in w.homes && w.homes[id] == loc && loc in w.remote && w.remote[loc] == d.bytes
    && w.settings == Some(s)
  }

  lemma PutAndUnlink(e: Env, w: World, id: Id, d: Dump, s: Settings, target: Target) returns (w': World, loc: Location)
    requires Going(e, w, id, d, Aimed(d.name, target, true), Some(s))
    ensures loc == LocationOf(target, w.driveNext)
    ensures Reachable(e, w') && id in w'.rows && id in w'.jobs && w'.jobs[id] == Working(d, Shipped(d.name, Some(loc)))
    ensures w'.settings == Some(s) && id !in w'.deleting && Path(e.storageDir, d.name) !in w'.fs
    ensures loc in w'.remote && w'.remote[loc] == d.bytes
  {
    hide Reachable, S3Key;
    loc := LocationOf(target, w.driveNext);
    var w1 := Apply(e, w, Put(id));
    PutIs(e, w, Put(id));
    ReachableStep(e, w, Put(id));
    w' := Apply(e, w1, Unlink(id, false));
    MoveIs(e, w1, Unlink(id, false));
    ReachableStep(e, w1, Unlink(id, false));
  }

  lemma Ship(e: Env, w0: World, id: Id, d: Dump, s: Settings) returns (w: World)
    requires ShipsToS3(s) && Going(e, w0, id, d, Secured(d.name), Some(s))
    ensures OnlyInS3(e, w, id, s, d)
  {
    hide Reachable, Apply, S3Key, Live;
    w := MoveOn(e, w0, id, d, Secured(d.name), Some(s), Route(id));
    w := MoveOn(e, w, id, d, Routed(d.name, S3, true), Some(s), Aim(id));
    var loc;
    w, loc := PutAndUnlink(e, w, id, d, s, ToS3(s.upload.store, S3Key(s.upload.prefix, d.name)));
    w := Finish(e, w, id, d, d.name, Some(loc));
  }

  lemma ShipToDrive(e: Env, w0: World, id: Id, d: Dump, s: Settings) returns (w: World)
    requires s.upload.provider.GoogleDrive? && s.upload.deleteLocal && Going(e, w0, id, d, Secured(d.name), Some(s))
    requires s.upload.login.clientId != "" && s.upload.login.clientSecret != "" && s.upload.login.refreshToken != ""
    ensures Reachable(e, w) && Live(w, id) && id in w.dumps && w.dumps[id] == d.bytes && w.settings == Some(s)
    ensures w.rows[id].fileName == d.name && w.rows[id].filePath == Some(Path(e.storageDir, d.name)) && Path(e.storageDir, d.name) !in w.fs
    ensures w.rows[id].remote.Some? && id in w.homes && w.homes[id].DriveFile? && w.homes[id].account == e.account(s.upload.login)
  {
    hide Reachable, Apply, Live;
    w := MoveOn(e, w0, id, d, Secured(d.name), Some(s), Route(id));
    w := MoveOn(e, w, id, d, Routed(d.name, GoogleDrive, true), Some(s), Aim(id));
    var loc;
    w, loc := PutAndUnlink(e, w, id, d, s, ToDrive(e.account(s.upload.login)));
    w := Finish(e, w, id, d, d.name, Some(loc));
  }

  /** The run exists in which a backup whose only copy is in Drive resolves. */
  lemma DriveBackupResolves(e: Env, id: Id, d: Dump, req: SettingsRequest) returns (w: World)
    requires EnvOk(e) && EngineName(d.name) && !IsEncryptedFile(d.bytes) && Updated(None, req).Ok?
    requires var s := Updated(None, req).value;
             && s.upload.provider.GoogleDrive? && s.upload.deleteLocal && !s.encryptionEnabled
             && s.upload.login.clientId != "" && s.upload.login.clientSecret != "" && s.upload.login.refreshToken != ""
    ensures Reachable(e, w) && Live(w, id) && Path(e.storageDir, d.name) !in w.fs
    ensures ResolvedBytes(e, w.fs, w.remote, w.settings, w.rows[id]) == Ok(d.bytes)
  {
    var s := Updated(None, req).value;
    assert !IsEncryptedName(d.name);
    hide Reachable, EngineName, Apply, Updated, Going, ResolvedBytes, IsEncryptedName, IsEncryptedFile, EnvOk;
    w := SaveFirst(e, req);
    w := Begin(e, w, Some(s), id);
    w := DumpAndAdmit(e, w, id, d);
    w := PlainSecured(e, w, id, d, Some(s));
    w := ShipToDrive(e, w, id, d, s);
    ReachableInv(e, w);
    LiveBackupResolves(e, w, id);
    hide Inv;
  }

  lemma ShippedJobRuns(e: Env, id: Id, d: Dump, req: SettingsRequest) returns (w: World)
    requires EngineName(d.name) && Updated(None, req).Ok? && ShipsToS3(Updated(None, req).value)
    ensures OnlyInS3(e, w, id, Updated(None, req).value, d)
  {
    var s := Updated(None, req).value;
    assert AskedPassphrase(Some(s)) == None;
    hide Reachable, EngineName, Apply, Updated, OnlyInS3, Going, ShipsToS3, AskedPassphrase;
    w := SaveFirst(e, req);
    hide Untried;
    w := Begin(e, w, Some(s), id);
    w := DumpAndAdmit(e, w, id, d);
    w := PlainSecured(e, w, id, d, Some(s));
    w := Ship(e, w, id, d, s);
  }

  /** Saving other upload settings, and nothing else. */
  lemma ResaveBucket(e: Env, w: World, id: Id, s: Settings, d: Dump, req: SettingsRequest) returns (w': World)
    requires OnlyInS3(e, w, id, s, d) && Updated(Some(s), req).Ok?
    ensures w' == w.(settings := Some(Updated(Some(s), req).value), everCurrent := w'.everCurrent) && Reachable(e, w')
  {
    hide Reachable, Updated;
    w' := Apply(e, w, SaveSettings(req));
    ReachableStep(e, w, SaveSettings(req));
  }

  /**
   * The run exists in which a live backup resolves, stops resolving when the bucket in the
   * settings changes, and resolves again when the bucket is set back.
   */
  lemma BucketChangeHidesBackup(e: Env, id: Id, d: Dump, req: SettingsRequest, away: SettingsRequest, back: SettingsRequest)
    returns (w: World, w1: World, w2: World)
    requires EnvOk(e) && EngineName(d.name) && !IsEncryptedFile(d.bytes)
    requires Updated(None, req).Ok? && ShipsToS3(Updated(None, req).value)
    requires Updated(Some(Updated(None, req).value), away).Ok?
    requires var there := Updated(Some(Updated(None, req).value), away).value;
             && there.upload.store != Updated(None, req).value.upload.store
             && Updated(Some(there), back).Ok? && Updated(Some(there), back).value.upload == Updated(None, req).value.upload
    ensures Reachable(e, w) && Live(w, id) && ResolvedBytes(e, w.fs, w.remote, w.settings, w.rows[id]) == Ok(d.bytes)
    ensures Reachable(e, w1) && Live(w1, id) && w1.rows == w.rows && w1.remote == w.remote && w1.fs == w.fs
    ensures ResolvedBytes(e, w1.fs, w1.remote, w1.settings, w1.rows[id]).Err?
    ensures Reachable(e, w2) && Live(w2, id) && ResolvedBytes(e, w2.fs, w2.remote, w2.settings, w2.rows[id]) == Ok(d.bytes)
  {
    var s := Updated(None, req).value;
    var there := Updated(Some(s), away).value;
    hide Reachable, EnvOk, Apply, Updated, S3Key, ResolvedBytes;
    w := ShippedJobRuns(e, id, d, req);
    InBucketResolves(e, w, id, s, d);
    w1 := ResaveBucket(e, w, id, s, d, away);
    OtherBucketFails(e, w1, id, s, d);
    ReachableStep(e, w1, SaveSettings(back));
    w2 := Apply(e, w1, SaveSettings(back));
    SavedAgain(e, w1, back);
    InBucketResolves(e, w2, id, Updated(Some(there), back).value, d);
  }

  lemma SavedAgain(e: Env, w: World, req: SettingsRequest)
    requires Updated(w.settings, req).Ok?
    ensures var w' := Apply(e, w, SaveSettings(req)); w' == w.(settings := Some(Updated(w.settings, req).value), everCurrent := w'.everCurrent)
  {
    SavedIs(e, w, SaveSettings(req));
    hide Updated, Apply;
  }

  lemma InBucketResolves(e: Env, w: World, id: Id, s: Settings, d: Dump)
    requires OnlyInS3(e, w, id, s, d) && S3CanDownload(s.upload) && EngineName(d.name) && !IsEncryptedFile(d.bytes)
    ensures ResolvedBytes(e, w.fs, w.remote, w.settings, w.rows[id]) == Ok(d.bytes)
  {
    hide Reachable, S3Key, IsEncryptedFile;
    assert !IsEncryptedName(d.name);
  }

  /** Somewhere else there is no such object: by the invariant, in no run. */
  lemma OtherBucketFails(e: Env, w: World, id: Id, s: Settings, d: Dump)
    requires EnvOk(e) && Reachable(e, w) && Live(w, id) && id in w.homes && w.homes[id] == S3Object(s.upload.store, S3Key(s.upload.prefix, d.name))
    requires w.rows[id] == CompletedRow(e, Shipped(d.name, Some(w.homes[id]))) && Path(e.storageDir, d.name) !in w.fs
    requires w.settings.Some? && w.settings.value.upload.store != s.upload.store
    ensures ResolvedBytes(e, w.fs, w.remote, w.settings, w.rows[id]).Err?
  {
    ReachableInv(e, w);
    OnlyOwnObject(e, w, id);
    hide Reachable, Inv, EnvOk, S3Key, Opened;
  }
}
