/**
 * What one user's backups leave behind: files on disk, objects in remote storage, rows in the
 * database and the settings; and the jobs that work on them, each at its place in the worker's
 * program. Every change is an atomic `Action`, guarded only by that place; `Inv` is what all of
 * them keep. The class in BackupServer.dfy carries the actions out.
 */
module BackupStore {
  import opened Prelude
  import opened BackupCrypto

  type Id = nat

  datatype Path = Path(dir: string, name: string)

  function Text(p: Path): string {
    p.dir + "/" + p.name
  }

  /** An object store: bucket, region and endpoint together. Empty text is an unset field. */
  datatype Store = Store(bucket: string, region: string, endpoint: string)

  datatype DriveLogin = DriveLogin(clientId: string, clientSecret: string, refreshToken: string)

  /** Where an object is. Drive numbers its files over all accounts. */
  datatype Location = S3Object(store: Store, key: string) | DriveFile(account: string, file: nat)

  /** What a row remembers of that: neither the bucket nor the account. */
  datatype Record = S3Record(key: string) | DriveRecord(file: nat)

  function RecordOf(loc: Location): Record {
    match loc
    case S3Object(_, key) => S3Record(key)
    case DriveFile(_, file) => DriveRecord(file)
  }

  datatype Provider = LocalOnly | S3 | GoogleDrive

  datatype UploadConfig = UploadConfig(
    provider: Provider, store: Store, accessKeyId: string, secretAccessKey: string,
    login: DriveLogin, prefix: string, deleteLocal: bool)

  datatype Settings = Settings(upload: UploadConfig, encryptionEnabled: bool, passphrase: Option<string>, history: seq<string>)

  datatype Status = Pending | Running | Completed | Failed

  datatype Row = Row(status: Status, fileName: string, filePath: Option<Path>, remote: Option<Record>)

  /** The cipher, the file hash, whose account a Drive login opens, and the two directories: fixed while the server runs. */
  datatype Env = Env(g: Gcm, hash: Bytes -> string, account: DriveLogin -> string, storageDir: string, tmpDir: string)

  datatype Dump = Dump(name: string, bytes: Bytes)

  // ── A job, from one await to the next ──

  datatype Target = ToS3(store: Store, key: string) | ToDrive(account: string)

  /** Within one encryption attempt. `Spoiled`: a step threw or the hashes differ. */
  datatype Step = Fresh | Written | Copied | Spoiled

  datatype Stage =
    | Dumped
    | Rejected
    | Admitted
    | Sealing(pass: string, attempt: nat, step: Step)
    | Verified(pass: string)
    | Secured(name: string)
    | Routed(name: string, provider: Provider, deleteLocal: bool)
    | Aimed(name: string, target: Target, deleteLocal: bool)
    | Uploaded(name: string, loc: Location, deleteLocal: bool)
    | Shipped(name: string, at: Option<Location>)
    | Recorded

  datatype Job = Begun | Working(dump: Dump, stage: Stage)

  /** A job's three looks at the settings, once taken, and how many of its encryption attempts it gave up. */
  datatype Looks = Looks(seen: Option<Settings>, givenUp: nat, route: Option<Settings>, aim: Option<Settings>)

  /**
   * The stored state and the running jobs, with what nobody stores but the claims speak of: every
   * passphrase that was ever current; the engine's file name, the dump and the object's place
   * behind a row's last completed run; the dump name behind every object ever put; the dump names
   * used, admitted by the quota check, and completed; the looks each job took at the settings; the
   * rows whose artifact deletion has begun.
   */
  datatype World = World(
    fs: map<Path, Bytes>, remote: map<Location, Bytes>, driveNext: nat, rows: map<Id, Row>,
    settings: Option<Settings>,
    everCurrent: set<string>, bases: map<Id, string>, dumps: map<Id, Bytes>, homes: map<Id, Location>,
    origins: map<Location, string>, used: set<string>, admitted: map<string, Bytes>, completed: set<string>,
    looks: map<string, Looks>, deleting: set<Id>, jobs: map<Id, Job>)

  ghost predicate EnvOk(e: Env) {
    && GcmLaws(e.g)
    && (forall a, b :: e.hash(a) == e.hash(b) ==> a == b)
  }

  /** No file of the backup directory has a path that begins with the temp directory's. */
  ghost predicate OutsideTmp(e: Env) {
    forall name :: !StartsWith(Text(Path(e.storageDir, name)), e.tmpDir)
  }

  // ── What settings ask for ──

  /** The passphrase the settings ask to encrypt with, if they ask. */
  function AskedPassphrase(s: Option<Settings>): Option<string> {
    match s
    case Some(Settings(_, true, passphrase, _)) => passphrase
    case _ => None
  }

  /** Whether these settings reach the place an object was put: its bucket, or its account. */
  predicate Reaches(e: Env, s: Option<Settings>, home: Location) {
    match (s, home)
    case (Some(Settings(c, _, _, _)), S3Object(store, _)) =>
      c.store == store && store.bucket != "" && c.accessKeyId != "" && c.secretAccessKey != ""
    case (Some(Settings(c, _, _, _)), DriveFile(account, _)) =>
      e.account(c.login) == account && c.login.clientId != "" && c.login.clientSecret != "" && c.login.refreshToken != ""
    case _ => false
  }

  /** Where an upload under these two looks at the settings belongs: a bucket and key, or an account. */
  predicate Belongs(e: Env, name: string, route: Option<Settings>, aim: Option<Settings>, home: Location) {
    match (route, aim)
    case (Some(r), Some(a)) =>
      (match home
       case S3Object(store, key) =>
         && r.upload.provider == S3 && a.upload.provider == S3 && a.upload.store == store
         && store.bucket != "" && store.region != "" && a.upload.accessKeyId != "" && a.upload.secretAccessKey != ""
         && IsKey(key, a.upload.prefix, name)
       case DriveFile(account, _) =>
         && r.upload.provider == GoogleDrive && e.account(a.upload.login) == account
         && a.upload.login.clientId != "" && a.upload.login.clientSecret != "" && a.upload.login.refreshToken != "")
    case _ => false
  }

  /** A file name in the folder a prefix names, with or without its closing slash. */
  predicate IsKey(key: string, prefix: string, name: string) {
    if prefix == "" then key == name
    else if prefix[|prefix| - 1] == '/' then key == prefix + name
    else key == prefix + "/" + name
  }

  // ── Names ──

  const ENC := ".enc"
  const VERIFY := ".verify"

  predicate NoSlash(s: string) {
    '/' !in s
  }

  /** What an engine calls its dump: one path component, not ending like the worker's own files. */
  predicate EngineName(b: string) {
    NoSlash(b) && !EndsWith(b, ENC) && !EndsWith(b, ENC + VERIFY)
  }

  /** The files a job with this dump name may touch in the backup directory. */
  predicate FileOf(b: string, name: string) {
    name == b || name == b + ENC || name == b + ENC + VERIFY
  }

  lemma SuffixCancels(x: string, y: string, suffix: string)
    requires x + suffix == y + suffix
    ensures x == y
  {
    assert |x| == |y|;
    assert x == (x + suffix)[..|x|] && y == (y + suffix)[..|y|];
  }

  lemma SuffixShows(x: string, suffix: string)
    ensures EndsWith(x + suffix, suffix)
  {
  }

  /** Two dump names share no file. */
  lemma FilesDisjoint(b: string, c: string, name: string)
    requires EngineName(b) && EngineName(c) && FileOf(b, name) && FileOf(c, name)
    ensures b == c
  {
    SuffixShows(b, ENC);
    SuffixShows(c, ENC);
    SuffixShows(b, ENC + VERIFY);
    SuffixShows(c, ENC + VERIFY);
    assert forall x: string :: x + ENC + VERIFY == x + (ENC + VERIFY);
    if name == b + ENC && name == c + ENC {
      SuffixCancels(b, c, ENC);
    } else if name == b + ENC + VERIFY && name == c + ENC + VERIFY {
      SuffixCancels(b, c, ENC + VERIFY);
    } else if EndsWith(name, ENC) && EndsWith(name, ENC + VERIFY) {
      LastOf(name, ENC);
      LastOf(name, ENC + VERIFY);
    }
  }

  lemma LastOf(name: string, suffix: string)
    requires suffix != "" && EndsWith(name, suffix)
    ensures name != "" && name[|name| - 1] == suffix[|suffix| - 1]
  {
  }

  /** The S3 key of a file name under the configured prefix, one trailing slash of it dropped. */
  function S3Key(prefix: string, name: string): string {
    if prefix == "" then name else Trimmed(prefix) + "/" + name
  }

  function Trimmed(prefix: string): string {
    if prefix != "" && prefix[|prefix| - 1] == '/' then prefix[..|prefix| - 1] else prefix
  }

  lemma S3KeyIs(prefix: string, name: string)
    ensures forall key :: key == S3Key(prefix, name) <==> IsKey(key, prefix, name)
  {
    if prefix != "" && prefix[|prefix| - 1] == '/' {
      assert prefix == prefix[..|prefix| - 1] + "/";
    }
  }

  lemma PrefixedKeyHasSlash(prefix: string, name: string)
    ensures prefix != "" ==> !NoSlash(S3Key(prefix, name))
  {
    if prefix != "" {
      assert S3Key(prefix, name)[|Trimmed(prefix)|] == '/';
    }
  }

  lemma AfterLastSlash(p: string, n: string, q: string, m: string)
    requires NoSlash(n) && NoSlash(m) && p + "/" + n == q + "/" + m
    ensures n == m
  {
    var s := p + "/" + n;
    assert s[|p|] == '/' && s[|q|] == '/' by { assert s == q + "/" + m; }
    assert forall i :: |p| < i < |s| ==> s[i] == n[i - |p| - 1];
    assert forall i :: |q| < i < |s| ==> s[i] == m[i - |q| - 1] by { assert s == q + "/" + m; }
    assert |p| == |q|;
    assert s[|p| + 1..] == n && s[|q| + 1..] == m by { assert s == q + "/" + m; }
  }

  /** Whatever the prefixes are, two keys agree only if they are keys of the same file name. */
  lemma S3KeyNamesFile(prefix: string, name: string, prefix': string, name': string)
    requires NoSlash(name) && NoSlash(name') && S3Key(prefix, name) == S3Key(prefix', name')
    ensures name == name'
  {
    PrefixedKeyHasSlash(prefix, name);
    PrefixedKeyHasSlash(prefix', name');
    if prefix != "" && prefix' != "" {
      AfterLastSlash(Trimmed(prefix), name, Trimmed(prefix'), name');
    }
  }

  /** A key under which a job with this dump name may have stored its artifact. */
  ghost predicate KeyOf(key: string, b: string) {
    exists prefix, name :: FileOf(b, name) && key == S3Key(prefix, name)
  }

  lemma FileNoSlash(b: string, name: string)
    requires EngineName(b) && FileOf(b, name)
    ensures NoSlash(name)
  {
  }

  lemma KeyOfOne(key: string, b: string, c: string)
    requires EngineName(b) && EngineName(c) && KeyOf(key, b) && KeyOf(key, c)
    ensures b == c
  {
    var p, n :| FileOf(b, n) && key == S3Key(p, n);
    var q, m :| FileOf(c, m) && key == S3Key(q, m);
    hide S3Key, EngineName, FileOf, NoSlash;
    FileNoSlash(b, n);
    FileNoSlash(c, m);
    S3KeyNamesFile(p, n, q, m);
    FilesDisjoint(b, c, n);
  }

  // ── Settings ──

  function Candidates(settings: Option<Settings>): seq<string> {
    match settings
    case None => []
    case Some(s) => (if s.passphrase.Some? then [s.passphrase.value] else []) + s.history
  }

  ghost function Keys(settings: Option<Settings>): set<string> {
    set k | k in Candidates(settings)
  }

  /** The mask the settings page shows in place of a stored secret. */
  const SECRET_MASK := "\U{2022}\U{2022}\U{2022}\U{2022}\U{2022}\U{2022}\U{2022}\U{2022}"

  /** A settings request; an absent field is None, absent text is empty. */
  datatype UploadRequest = UploadRequest(
    provider: Option<Provider>, bucket: Option<string>, region: Option<string>, endpoint: Option<string>,
    accessKeyId: string, secretAccessKey: string,
    clientId: Option<string>, clientSecret: string, refreshToken: string,
    prefix: Option<string>, deleteLocal: Option<bool>)

  datatype SettingsRequest = SettingsRequest(
    upload: UploadRequest, encryptionEnabled: Option<bool>, passphrase: string, currentPassphrase: string)

  datatype Refusal = CurrentPassphraseRequired | PassphraseRequired

  const DEFAULTS := Settings(
    UploadConfig(LocalOnly, Store("", "", ""), "", "", DriveLogin("", "", ""), "", false), false, None, [])

  predicate SetsPassphrase(req: SettingsRequest) {
    req.passphrase != "" && req.passphrase != SECRET_MASK
  }

  predicate ChangesPassphrase(prior: Settings, req: SettingsRequest) {
    SetsPassphrase(req) && prior.passphrase.Some? && prior.passphrase.value != req.passphrase
  }

  function Or<T>(o: Option<T>, default: T): T {
    if o.Some? then o.value else default
  }

  /** A secret is replaced only by text that is neither empty nor the mask. */
  function Secret(stored: string, given: string): string {
    if given != "" && given != SECRET_MASK then given else stored
  }

  function UpdatedStore(prior: Store, req: UploadRequest): Store {
    Store(Or(req.bucket, prior.bucket), Or(req.region, prior.region), Or(req.endpoint, prior.endpoint))
  }

  function UpdatedLogin(prior: DriveLogin, req: UploadRequest): DriveLogin {
    DriveLogin(Or(req.clientId, prior.clientId), Secret(prior.clientSecret, req.clientSecret), Secret(prior.refreshToken, req.refreshToken))
  }

  function UpdatedUpload(prior: UploadConfig, req: UploadRequest): UploadConfig {
    UploadConfig(
      Or(req.provider, prior.provider), UpdatedStore(prior.store, req),
      Secret(prior.accessKeyId, req.accessKeyId), Secret(prior.secretAccessKey, req.secretAccessKey),
      UpdatedLogin(prior.login, req), Or(req.prefix, prior.prefix), Or(req.deleteLocal, prior.deleteLocal))
  }

  // ── Reaching remote storage under the current settings ──

  predicate S3CanUpload(c: UploadConfig) {
    c.store.bucket != "" && c.store.region != "" && c.accessKeyId != "" && c.secretAccessKey != ""
  }

  /** A download or deletion does not ask for the region. */
  predicate S3CanDownload(c: UploadConfig) {
    c.store.bucket != "" && c.accessKeyId != "" && c.secretAccessKey != ""
  }

  predicate DriveReady(c: UploadConfig) {
    c.login.clientId != "" && c.login.clientSecret != "" && c.login.refreshToken != ""
  }

  /** Where downloads and deletions look for a record: in the bucket or account configured now. */
  function Located(e: Env, settings: Option<Settings>, record: Record): Option<Location> {
    match settings
    case None => None
    case Some(s) =>
      match record
      case S3Record(key) => if S3CanDownload(s.upload) then Some(S3Object(s.upload.store, key)) else None
      case DriveRecord(file) => if DriveReady(s.upload) then Some(DriveFile(e.account(s.upload.login), file)) else None
  }

  /** upsertStorageSettings on a stored (or default) settings row. */
  function Updated(stored: Option<Settings>, req: SettingsRequest): Result<Settings, Refusal> {
    var prior := Or(stored, DEFAULTS);
    if ChangesPassphrase(prior, req) && (req.currentPassphrase == "" || prior.passphrase.value != req.currentPassphrase) then
      Err(CurrentPassphraseRequired)
    else
      var history := if ChangesPassphrase(prior, req) then prior.history + [prior.passphrase.value] else prior.history;
      var pass := if SetsPassphrase(req) then Some(req.passphrase) else prior.passphrase;
      if req.encryptionEnabled == Some(true) && pass.None? then Err(PassphraseRequired)
      else Ok(Settings(UpdatedUpload(prior.upload, req.upload), Or(req.encryptionEnabled, prior.encryptionEnabled), pass, history))
  }

  /** A copied field is what was asked for, or stays. */
  predicate Copies<T(==)>(stored: T, asked: Option<T>, now: T) {
    match asked
    case Some(v) => now == v
    case None => now == stored
  }

  /** A secret is replaced by real text only: neither nothing nor the mask does anything to it. */
  predicate Replaces(stored: string, asked: string, now: string) {
    if asked == "" || asked == "\U{2022}\U{2022}\U{2022}\U{2022}\U{2022}\U{2022}\U{2022}\U{2022}" then now == stored else now == asked
  }

  /** An accepted request changes each field to what it asks of that field, and no other. */
  lemma UpdateIsFieldwise(prior: Settings, req: SettingsRequest)
    requires Updated(Some(prior), req).Ok?
    ensures var now := Updated(Some(prior), req).value;
            && Copies(prior.upload.provider, req.upload.provider, now.upload.provider)
            && Copies(prior.upload.store.bucket, req.upload.bucket, now.upload.store.bucket)
            && Copies(prior.upload.store.region, req.upload.region, now.upload.store.region)
            && Copies(prior.upload.store.endpoint, req.upload.endpoint, now.upload.store.endpoint)
            && Replaces(prior.upload.accessKeyId, req.upload.accessKeyId, now.upload.accessKeyId)
            && Replaces(prior.upload.secretAccessKey, req.upload.secretAccessKey, now.upload.secretAccessKey)
            && Copies(prior.upload.login.clientId, req.upload.clientId, now.upload.login.clientId)
            && Replaces(prior.upload.login.clientSecret, req.upload.clientSecret, now.upload.login.clientSecret)
            && Replaces(prior.upload.login.refreshToken, req.upload.refreshToken, now.upload.login.refreshToken)
            && Copies(prior.upload.prefix, req.upload.prefix, now.upload.prefix)
            && Copies(prior.upload.deleteLocal, req.upload.deleteLocal, now.upload.deleteLocal)
            && Copies(prior.encryptionEnabled, req.encryptionEnabled, now.encryptionEnabled)
            && (now.passphrase == prior.passphrase || now.passphrase == Some(req.passphrase))
            && Replaces(Or(prior.passphrase, ""), req.passphrase, Or(now.passphrase, ""))
            && now.history == (if prior.passphrase.Some? && now.passphrase != prior.passphrase
                               then prior.history + [prior.passphrase.value] else prior.history)
  {
  }

  /** A request is refused exactly for a changed passphrase without the stored one, or encryption without any. */
  lemma RefusedExactly(prior: Settings, req: SettingsRequest)
    ensures var given := req.passphrase != "" && req.passphrase != SECRET_MASK;
            && (Updated(Some(prior), req) == Err(CurrentPassphraseRequired) <==>
                  && given && prior.passphrase.Some? && prior.passphrase.value != req.passphrase
                  && (req.currentPassphrase == "" || req.currentPassphrase != prior.passphrase.value))
            && (Updated(Some(prior), req) == Err(PassphraseRequired) <==>
                  req.encryptionEnabled == Some(true) && prior.passphrase.None? && !given)
  {
  }

  /** A first request starts from a server without settings: local storage, nothing encrypted, no secrets. */
  lemma FirstUpdate(req: SettingsRequest)
    ensures Updated(None, req) == Updated(Some(Settings(
              UploadConfig(LocalOnly, Store("", "", ""), "", "", DriveLogin("", "", ""), "", false), false, None, [])), req)
  {
  }

  /** A settings change never forgets a passphrase, and adds at most the new one. */
  lemma UpdateKeepsPassphrases(stored: Option<Settings>, req: SettingsRequest)
    requires Updated(stored, req).Ok?
    ensures var s := Updated(stored, req).value;
            Keys(Some(s)) == Keys(stored) + (if SetsPassphrase(req) then {req.passphrase} else {})
  {
    var s := Updated(stored, req).value;
    var prior := Or(stored, DEFAULTS);
    forall k ensures k in Candidates(Some(s)) <==> k in Candidates(stored) || (SetsPassphrase(req) && k == req.passphrase) {
      if ChangesPassphrase(prior, req) {
        assert s.history[|prior.history|] == prior.passphrase.value;
        assert forall h :: h in s.history <==> h in prior.history || h == prior.passphrase.value;
      }
    }
  }

  /** The stored passphrase changes only for a caller who gives the stored one, which then is in the history. */
  lemma RotationNeedsCurrent(prior: Settings, req: SettingsRequest)
    requires prior.passphrase.Some? && Updated(Some(prior), req).Ok?
    ensures var s := Updated(Some(prior), req).value;
            && s.passphrase.Some?
            && (s.passphrase != prior.passphrase ==>
                  req.currentPassphrase == prior.passphrase.value && prior.passphrase.value in s.history)
  {
    var s := Updated(Some(prior), req).value;
    if s.passphrase != prior.passphrase {
      assert s.history[|prior.history|] == prior.passphrase.value;
    }
  }

  // ── Invariant ──

  /** The stored bytes, under this file name, are the dump or decrypt to it with one of `keys`. */
  ghost predicate Holds(g: Gcm, file: Bytes, name: string, dump: Bytes, keys: set<string>) {
    if IsEncryptedName(name) then exists k :: k in keys && Unseal(g, file, k) == Ok(dump)
    else file == dump
  }

  /** A completed backup nobody has begun to delete. */
  ghost predicate Live(w: World, id: Id) {
    id in w.rows && w.rows[id].status == Completed && id !in w.deleting
  }

  /** Its artifact is on disk or where its run put it, and every copy holds the dump. */
  ghost predicate Restorable(e: Env, w: World, id: Id)
    requires id in w.rows
  {
    var r := w.rows[id];
    && id in w.dumps && id in w.bases
    && r.filePath == Some(Path(e.storageDir, r.fileName))
    && (r.filePath.value in w.fs ==> Holds(e.g, w.fs[r.filePath.value], r.fileName, w.dumps[id], w.everCurrent))
    && (r.remote.Some? ==>
          && id in w.homes && w.homes[id] in w.remote
          && Holds(e.g, w.remote[w.homes[id]], r.fileName, w.dumps[id], w.everCurrent))
    && (r.filePath.value in w.fs || r.remote.Some?)
  }

  ghost predicate CopyOnDisk(e: Env, w: World, d: Dump, name: string) {
    Path(e.storageDir, name) in w.fs && Holds(e.g, w.fs[Path(e.storageDir, name)], name, d.bytes, w.everCurrent)
  }

  ghost predicate CopyRemote(e: Env, w: World, d: Dump, name: string, loc: Location) {
    && loc in w.remote && loc in w.origins && w.origins[loc] == d.name
    && Holds(e.g, w.remote[loc], name, d.bytes, w.everCurrent)
  }

  /** A copy of the dump is stored: on disk under the job's name or as an object it put. */
  ghost predicate CopyStored(e: Env, w: World, d: Dump) {
    || CopyOnDisk(e, w, d, d.name) || CopyOnDisk(e, w, d, d.name + ENC)
    || exists loc :: CopyRemote(e, w, d, d.name, loc) || CopyRemote(e, w, d, d.name + ENC, loc)
  }

  ghost predicate PlainThere(e: Env, w: World, d: Dump) {
    Path(e.storageDir, d.name) in w.fs && w.fs[Path(e.storageDir, d.name)] == d.bytes
  }

  ghost predicate SealedThere(e: Env, w: World, d: Dump, pass: string) {
    && pass in w.everCurrent
    && Path(e.storageDir, d.name + ENC) in w.fs
    && Unseal(e.g, w.fs[Path(e.storageDir, d.name + ENC)], pass) == Ok(d.bytes)
  }

  /** The copy decrypted back is what the encrypted file decrypts to. */
  ghost predicate CopiedBack(e: Env, w: World, d: Dump, pass: string) {
    var enc, copy := Path(e.storageDir, d.name + ENC), Path(e.storageDir, d.name + ENC + VERIFY);
    enc in w.fs && copy in w.fs && Unseal(e.g, w.fs[enc], pass) == Ok(w.fs[copy])
  }

  predicate NameOf(d: Dump, name: string) {
    name == d.name || name == d.name + ENC
  }

  /** The artifact is where a row with this name and location would say it is. */
  ghost predicate Placed(e: Env, w: World, d: Dump, name: string, at: Option<Location>) {
    && NameOf(d, name)
    && (Path(e.storageDir, name) in w.fs ==> CopyOnDisk(e, w, d, name))
    && (at.Some? ==> CopyRemote(e, w, d, name, at.value))
    && (at.None? ==> Path(e.storageDir, name) in w.fs)
  }

  ghost predicate NotPut(w: World, b: string) {
    forall loc :: loc in w.origins ==> w.origins[loc] != b
  }

  ghost predicate TargetOf(target: Target, b: string) {
    target.ToS3? ==> KeyOf(target.key, b)
  }

  /** How a dump name stands in the books at each place of a job's program. */
  ghost predicate Standing(w: World, d: Dump, stage: Stage) {
    && (!stage.Recorded? ==> d.name !in w.completed)
    && (if stage.Dumped? || stage.Rejected? then d.name !in w.admitted else d.name in w.admitted && w.admitted[d.name] == d.bytes)
    && (!stage.Uploaded? && !stage.Shipped? && !stage.Recorded? ==> NotPut(w, d.name))
  }

  /** And what the job has secured by then. */
  ghost predicate Holding(e: Env, w: World, d: Dump, stage: Stage) {
    match stage
    case Dumped => PlainThere(e, w, d)
    case Rejected => true
    case Admitted => PlainThere(e, w, d)
    case Sealing(pass, _, step) =>
      && PlainThere(e, w, d) && pass in w.everCurrent
      && (step.Written? ==> Path(e.storageDir, d.name + ENC) in w.fs)
      && (step.Copied? ==> CopiedBack(e, w, d, pass))
    case Verified(pass) => PlainThere(e, w, d) && SealedThere(e, w, d, pass)
    case Secured(name) => NameOf(d, name) && CopyOnDisk(e, w, d, name)
    case Routed(name, _, _) => NameOf(d, name) && CopyOnDisk(e, w, d, name)
    case Aimed(name, target, _) => NameOf(d, name) && CopyOnDisk(e, w, d, name) && TargetOf(target, d.name)
    case Uploaded(name, loc, _) => NameOf(d, name) && CopyOnDisk(e, w, d, name) && CopyRemote(e, w, d, name, loc)
    case Shipped(name, at) => Placed(e, w, d, name, at)
    case Recorded => true
  }

  ghost predicate JobOk(e: Env, w: World, job: Job) {
    job.Working? ==> job.dump.name in w.used && Standing(w, job.dump, job.stage) && Holding(e, w, job.dump, job.stage)
  }

  ghost predicate PassphrasesOk(w: World) {
    && w.everCurrent <= Keys(w.settings)
    && (w.settings.Some? && w.settings.value.passphrase.Some? ==> w.settings.value.passphrase.value in w.everCurrent)
    && (w.settings.Some? && w.settings.value.encryptionEnabled ==> w.settings.value.passphrase.Some?)
  }

  ghost predicate NamesOk(w: World) {
    && (forall b :: b in w.used ==> EngineName(b))
    && w.completed <= w.used && w.admitted.Keys <= w.used
    && (forall id :: id in w.bases ==> w.bases[id] in w.completed)
    && (forall i, j :: i in w.bases && j in w.bases && i != j ==> w.bases[i] != w.bases[j])
    && (forall i, j :: i in w.jobs && j in w.jobs && i != j && w.jobs[i].Working? && w.jobs[j].Working? ==>
          w.jobs[i].dump.name != w.jobs[j].dump.name)
  }

  /** Each dump name put at most one object, and a record names at most one. */
  ghost predicate OriginsOk(w: World) {
    && w.remote.Keys <= w.origins.Keys
    && (forall loc :: loc in w.origins ==>
          && w.origins[loc] in w.used
          && (loc.S3Object? ==> KeyOf(loc.key, w.origins[loc]))
          && (loc.DriveFile? ==> loc.file < w.driveNext))
    && (forall l, m :: l in w.origins && m in w.origins && w.origins[l] == w.origins[m] ==> l == m)
    && (forall l, m :: l in w.origins && m in w.origins && l.DriveFile? && m.DriveFile? && l.file == m.file ==> l == m)
  }

  /** Where a row says its artifact is follows from its engine name and from where its run put it. */
  ghost predicate RowOk(e: Env, w: World, id: Id)
    requires id in w.rows
  {
    var r := w.rows[id];
    r.filePath.Some? || r.remote.Some? ==>
      && id in w.bases
      && (r.fileName == w.bases[id] || r.fileName == w.bases[id] + ENC)
      && r.filePath == Some(Path(e.storageDir, r.fileName))
      && (r.remote.Some? ==>
            && id in w.homes && w.homes[id] in w.origins && w.origins[w.homes[id]] == w.bases[id]
            && r.remote.value == RecordOf(w.homes[id]))
  }

  ghost predicate Inv(e: Env, w: World) {
    && PassphrasesOk(w) && NamesOk(w) && OriginsOk(w)
    && (forall id :: id in w.rows ==> RowOk(e, w, id))
    && (forall id :: id in w.jobs ==> JobOk(e, w, w.jobs[id]))
    && (forall id :: Live(w, id) ==> Restorable(e, w, id))
    && (forall b :: b in w.admitted && b !in w.completed ==> CopyStored(e, w, Dump(b, w.admitted[b])))
  }

  // ── Actions ──

  datatype Action =
    | Trigger(id: Id)
    | SaveSettings(req: SettingsRequest)
    // the worker, in the order of its program
    | Start(id: Id)
    | WriteDump(id: Id, dump: Dump)
    | Reject(id: Id)
    | Admit(id: Id)
    | Choose(id: Id)
    | Encrypt(id: Id, bytes: Bytes)
    | DecryptBack(id: Id, partial: Option<Bytes>)
    | Compare(id: Id)
    | GiveUp(id: Id, stays: bool)
    | RemovePlain(id: Id)
    | Route(id: Id)
    | Aim(id: Id)
    | Put(id: Id)
    | LoseUpload(id: Id)
    | Unlink(id: Id, breaks: bool)
    | Complete(id: Id)
    | Fail(id: Id)
    | Leave(id: Id)
    // deletion and resolution
    | BeginDelete(id: Id)
    | DeleteLocal(id: Id)
    | DeleteRemote(id: Id)
    | DeleteRow(id: Id)
    | WriteTemp(path: Path, bytes: Bytes)
    | EraseTemp(dir: string)

  predicate IsWorking(w: World, id: Id) {
    id in w.jobs && w.jobs[id].Working?
  }

  /** What the program allows; nothing here asks whether a copy of the dump is safe. */
  ghost predicate Enabled(e: Env, w: World, a: Action) {
    match a
    case Trigger(id) => id !in w.rows
    case SaveSettings(_) => true
    case Start(id) => id in w.rows && id !in w.jobs
    case WriteDump(id, d) => id in w.jobs && w.jobs[id].Begun? && EngineName(d.name) && d.name !in w.used
    case Reject(id) => IsWorking(w, id) && w.jobs[id].stage.Dumped?
    case Admit(id) => IsWorking(w, id) && w.jobs[id].stage.Dumped?
    case Choose(id) => IsWorking(w, id) && w.jobs[id].stage.Admitted?
    case Encrypt(id, _) => IsWorking(w, id) && w.jobs[id].stage.Sealing? && w.jobs[id].stage.step.Fresh?
    case DecryptBack(id, _) => IsWorking(w, id) && w.jobs[id].stage.Sealing? && w.jobs[id].stage.step.Written?
    case Compare(id) => IsWorking(w, id) && w.jobs[id].stage.Sealing? && w.jobs[id].stage.step.Copied?
    case GiveUp(id, _) => IsWorking(w, id) && w.jobs[id].stage.Sealing?
    case RemovePlain(id) => IsWorking(w, id) && w.jobs[id].stage.Verified?
    case Route(id) => IsWorking(w, id) && w.jobs[id].stage.Secured?
    case Aim(id) => IsWorking(w, id) && w.jobs[id].stage.Routed?
    case Put(id) => IsWorking(w, id) && w.jobs[id].stage.Aimed? && Path(e.storageDir, w.jobs[id].stage.name) in w.fs
    case LoseUpload(id) =>
      IsWorking(w, id) && (w.jobs[id].stage.Routed? || w.jobs[id].stage.Aimed? || w.jobs[id].stage.Uploaded?)
    case Unlink(id, _) => IsWorking(w, id) && w.jobs[id].stage.Uploaded?
    case Complete(id) => IsWorking(w, id) && w.jobs[id].stage.Shipped? && id in w.rows
    case Fail(id) => id in w.jobs
    case Leave(id) => id in w.jobs
    case BeginDelete(id) => id in w.rows
    case DeleteLocal(id) => id in w.rows
    case DeleteRemote(id) => id in w.rows
    case DeleteRow(id) => id in w.rows
    case WriteTemp(p, _) => p.dir != e.storageDir
    case EraseTemp(dir) => dir != e.storageDir
  }

  /** Where the worker's first look at the settings sends an artifact. */
  function RouteOf(name: string, s: Option<Settings>): Stage {
    if s.None? || s.value.upload.provider.LocalOnly? then Shipped(name, None)
    else Routed(name, s.value.upload.provider, s.value.upload.deleteLocal)
  }

  /** And its second look: an S3 upload reads all its settings again, a Drive upload its login. */
  function AimOf(e: Env, stage: Stage, s: Option<Settings>): Stage
    requires stage.Routed?
  {
    if s.None? then Shipped(stage.name, None)
    else
      var c := s.value.upload;
      if stage.provider.S3? then
        if c.provider.S3? && S3CanUpload(c) then Aimed(stage.name, ToS3(c.store, S3Key(c.prefix, stage.name)), c.deleteLocal)
        else Shipped(stage.name, None)
      else if DriveReady(c) then Aimed(stage.name, ToDrive(e.account(c.login)), stage.deleteLocal)
      else Shipped(stage.name, None)
  }

  function LocationOf(target: Target, driveNext: nat): Location {
    match target
    case ToS3(store, key) => S3Object(store, key)
    case ToDrive(account) => DriveFile(account, driveNext)
  }

  /** The file an encryption attempt works on, and the copy it decrypts back. */
  function EncPath(e: Env, d: Dump): Path {
    Path(e.storageDir, d.name + ENC)
  }

  function CopyPath(e: Env, d: Dump): Path {
    Path(e.storageDir, d.name + ENC + VERIFY)
  }

  /** Only files, objects, rows, jobs or deletions differ. */
  ghost predicate SameBooks(w: World, w': World) {
    && w'.settings == w.settings && w'.everCurrent == w.everCurrent
    && w'.used == w.used && w'.admitted == w.admitted && w'.completed == w.completed
    && w'.bases == w.bases && w'.dumps == w.dumps && w'.homes == w.homes
    && w'.origins == w.origins && w'.driveNext == w.driveNext
  }

  /** The actions that only move a job on, changing at most one file. */
  predicate IsMove(a: Action) {
    || a.Reject? || a.Choose? || a.Encrypt? || a.DecryptBack? || a.Compare? || a.GiveUp?
    || a.RemovePlain? || a.Route? || a.Aim? || a.LoseUpload? || a.Unlink?
  }

  /** The file a move writes or removes, and what is there afterwards; None is no file. */
  datatype FileChange = Keep | Change(name: string, bytes: Option<Bytes>)

  function Changed(e: Env, fs: map<Path, Bytes>, c: FileChange): map<Path, Bytes> {
    match c
    case Keep => fs
    case Change(name, bytes) =>
      var p := Path(e.storageDir, name);
      if bytes.Some? then fs[p := bytes.value] else fs - {p}
  }

  ghost function StageAfter(e: Env, w: World, a: Action): Stage
    requires Enabled(e, w, a) && IsMove(a)
  {
    var d, stage := w.jobs[a.id].dump, w.jobs[a.id].stage;
    match a
    case Reject(_) => Rejected
    case Choose(_) =>
      if w.settings.Some? && w.settings.value.encryptionEnabled && w.settings.value.passphrase.Some?
      then Sealing(w.settings.value.passphrase.value, 1, Fresh)
      else Secured(d.name)
    case Encrypt(_, _) => stage.(step := Written)
    case DecryptBack(_, _) => stage.(step := if DecryptsBack(e, w, d, stage.pass).Some? then Copied else Spoiled)
    // only the two hashes are compared
    case Compare(_) =>
      if CopyPath(e, d) in w.fs && e.hash(w.fs[CopyPath(e, d)]) == e.hash(d.bytes) then Verified(stage.pass) else stage.(step := Spoiled)
    case GiveUp(_, _) => if stage.attempt == 1 then Sealing(stage.pass, 2, Fresh) else Secured(d.name)
    case RemovePlain(_) => Secured(d.name + ENC)
    case Route(_) => RouteOf(stage.name, w.settings)
    case Aim(_) => AimOf(e, stage, w.settings)
    case LoseUpload(_) => Shipped(stage.name, None)
    case Unlink(_, _) => Shipped(stage.name, Some(stage.loc))
  }

  ghost function FileAfter(e: Env, w: World, a: Action): FileChange
    requires Enabled(e, w, a) && IsMove(a)
  {
    var d, stage := w.jobs[a.id].dump, w.jobs[a.id].stage;
    match a
    case Reject(_) => Change(d.name, None)
    case Encrypt(_, bytes) => Change(d.name + ENC, Some(bytes))
    // the copy, or whatever a failed attempt leaves of one
    case DecryptBack(_, partial) =>
      var back := DecryptsBack(e, w, d, stage.pass);
      if back.Some? then Change(d.name + ENC + VERIFY, back)
      else if partial.Some? then Change(d.name + ENC + VERIFY, partial) else Keep
    case Compare(_) => Change(d.name + ENC + VERIFY, None)
    case GiveUp(_, stays) => if stays then Keep else Change(d.name + ENC, None)
    case RemovePlain(_) => Change(d.name, None)
    case Unlink(_, breaks) => if stage.deleteLocal && !breaks then Change(stage.name, None) else Keep
    case _ => Keep
  }

  ghost function DecryptsBack(e: Env, w: World, d: Dump, pass: string): Option<Bytes> {
    if EncPath(e, d) in w.fs then
      match Unseal(e.g, w.fs[EncPath(e, d)], pass)
      case Ok(plain) => Some(plain)
      case Err(_) => None
    else None
  }

  /** What a job remembers of its looks at the settings. */
  ghost function LooksAfter(w: World, a: Action): map<string, Looks>
    requires IsMove(a) && IsWorking(w, a.id)
  {
    var b := w.jobs[a.id].dump.name;
    if a.Choose? then w.looks[b := Looks(w.settings, 0, None, None)]
    else if b !in w.looks then w.looks
    else
      match a
      case GiveUp(_, _) => w.looks[b := w.looks[b].(givenUp := w.looks[b].givenUp + 1)]
      case Route(_) => w.looks[b := w.looks[b].(route := w.settings)]
      case Aim(_) => w.looks[b := w.looks[b].(aim := w.settings)]
      case _ => w.looks
  }

  ghost function Moved(e: Env, w: World, id: Id, stage: Stage, change: FileChange, looks: map<string, Looks>): (w': World)
    requires IsWorking(w, id)
    ensures SameBooks(w, w') && w'.rows == w.rows && w'.remote == w.remote && w'.deleting == w.deleting
    ensures w'.jobs == w.jobs[id := Working(w.jobs[id].dump, stage)] && w'.looks == looks
  {
    w.(fs := Changed(e, w.fs, change), jobs := w.jobs[id := Working(w.jobs[id].dump, stage)], looks := looks)
  }

  /** The actions on rows and on the list of jobs alone. */
  predicate IsRowAction(a: Action) {
    a.Trigger? || a.Start? || a.Fail? || a.Leave? || a.BeginDelete? || a.DeleteRow?
  }

  function WithStatus(rows: map<Id, Row>, id: Id, status: Status): map<Id, Row> {
    if id in rows then rows[id := rows[id].(status := status)] else rows
  }

  function RowsAfter(rows: map<Id, Row>, a: Action): map<Id, Row> {
    match a
    case Trigger(id) => rows[id := Row(Pending, "pending", None, None)]
    case Start(id) => WithStatus(rows, id, Running)
    case Fail(id) => WithStatus(rows, id, Failed)
    case DeleteRow(id) => rows - {id}
    case _ => rows
  }

  function JobsAfter(jobs: map<Id, Job>, a: Action): map<Id, Job> {
    match a
    case Start(id) => jobs[id := Begun]
    case Fail(id) => jobs - {id}
    case Leave(id) => jobs - {id}
    case _ => jobs
  }

  ghost function Apply(e: Env, w: World, a: Action): World
    requires Enabled(e, w, a)
  {
    if IsMove(a) then Moved(e, w, a.id, StageAfter(e, w, a), FileAfter(e, w, a), LooksAfter(w, a))
    else if IsRowAction(a) then RowsChanged(w, a)
    else
      match a
      case SaveSettings(req) => SettingsSaved(w, req)
      case WriteDump(id, d) => DumpWritten(e, w, id, d)
      case Admit(id) => DumpAdmitted(w, id)
      case Put(id) => ObjectPut(e, w, id)
      case Complete(id) => RunRecorded(e, w, id)
      case DeleteLocal(id) => LocalDeleted(w, id)
      case DeleteRemote(id) => RemoteDeleted(e, w, id)
      case WriteTemp(p, bytes) => w.(fs := w.fs[p := bytes])
      case EraseTemp(dir) => w.(fs := WithoutDir(w.fs, dir))
  }

  function WithoutDir(fs: map<Path, Bytes>, dir: string): map<Path, Bytes> {
    map p | p in fs && p.dir != dir :: fs[p]
  }

  ghost function RowsChanged(w: World, a: Action): (w': World)
    ensures SameBooks(w, w') && w'.fs == w.fs && w'.remote == w.remote
    ensures w'.rows == RowsAfter(w.rows, a) && w'.jobs == JobsAfter(w.jobs, a) && w.deleting <= w'.deleting
    ensures w'.looks == w.looks
  {
    w.(rows := RowsAfter(w.rows, a), jobs := JobsAfter(w.jobs, a), deleting := if a.BeginDelete? then w.deleting + {a.id} else w.deleting)
  }

  ghost function SettingsSaved(w: World, req: SettingsRequest): (w': World)
    ensures w' == w.(settings := w'.settings, everCurrent := w'.everCurrent) && w.everCurrent <= w'.everCurrent
  {
    match Updated(w.settings, req)
    case Err(_) => w
    case Ok(s) => w.(settings := Some(s), everCurrent := w.everCurrent + (if s.passphrase.Some? then {s.passphrase.value} else {}))
  }

  ghost function DumpWritten(e: Env, w: World, id: Id, d: Dump): (w': World)
    ensures SameBooks(w.(used := w.used + {d.name}), w') && w'.rows == w.rows && w'.remote == w.remote && w'.deleting == w.deleting
    ensures w'.jobs == w.jobs[id := Working(d, Dumped)]
    ensures w'.looks == w.looks
  {
    w.(fs := w.fs[Path(e.storageDir, d.name) := d.bytes], used := w.used + {d.name}, jobs := w.jobs[id := Working(d, Dumped)])
  }

  ghost function DumpAdmitted(w: World, id: Id): (w': World)
    requires IsWorking(w, id)
    ensures SameBooks(w.(admitted := w.admitted[w.jobs[id].dump.name := w.jobs[id].dump.bytes]), w')
    ensures w'.rows == w.rows && w'.fs == w.fs && w'.remote == w.remote && w'.deleting == w.deleting
    ensures w'.jobs == w.jobs[id := Working(w.jobs[id].dump, Admitted)]
    ensures w'.looks == w.looks
  {
    var d := w.jobs[id].dump;
    w.(jobs := w.jobs[id := Working(d, Admitted)], admitted := w.admitted[d.name := d.bytes])
  }

  ghost function ObjectPut(e: Env, w: World, id: Id): (w': World)
    requires IsWorking(w, id) && w.jobs[id].stage.Aimed? && Path(e.storageDir, w.jobs[id].stage.name) in w.fs
    ensures SameBooks(w.(origins := w'.origins, driveNext := w'.driveNext), w') && w'.rows == w.rows && w'.fs == w.fs && w'.deleting == w.deleting
    ensures w'.jobs.Keys == w.jobs.Keys + {id} && w'.jobs[id].Working? && w'.jobs[id].dump == w.jobs[id].dump
    ensures forall j :: j in w.jobs && j != id ==> w'.jobs[j] == w.jobs[j]
    ensures w'.looks == w.looks
  {
    var d, stage := w.jobs[id].dump, w.jobs[id].stage;
    var loc := LocationOf(stage.target, w.driveNext);
    w.(jobs := w.jobs[id := Working(d, Uploaded(stage.name, loc, stage.deleteLocal))],
       remote := w.remote[loc := w.fs[Path(e.storageDir, stage.name)]],
       origins := w.origins[loc := d.name],
       driveNext := if loc.DriveFile? then w.driveNext + 1 else w.driveNext)
  }

  ghost function RunRecorded(e: Env, w: World, id: Id): (w': World)
    requires IsWorking(w, id) && w.jobs[id].stage.Shipped?
    ensures w'.settings == w.settings && w'.everCurrent == w.everCurrent && w'.used == w.used && w'.admitted == w.admitted
    ensures w'.origins == w.origins && w'.driveNext == w.driveNext && w'.fs == w.fs && w'.remote == w.remote && w'.deleting == w.deleting
    ensures w'.jobs == w.jobs[id := Working(w.jobs[id].dump, Recorded)]
    ensures w'.looks == w.looks
  {
    var d, stage := w.jobs[id].dump, w.jobs[id].stage;
    w.(jobs := w.jobs[id := Working(d, Recorded)],
       rows := w.rows[id := CompletedRow(e, stage)],
       bases := w.bases[id := d.name], dumps := w.dumps[id := d.bytes],
       homes := if stage.at.Some? then w.homes[id := stage.at.value] else w.homes,
       completed := w.completed + {d.name})
  }

  ghost function LocalDeleted(w: World, id: Id): (w': World)
    requires id in w.rows
    ensures SameBooks(w, w') && w'.rows == w.rows && w'.remote == w.remote && w'.jobs == w.jobs
    ensures w'.deleting == w.deleting + {id}
    ensures w'.looks == w.looks
  {
    w.(deleting := w.deleting + {id}, fs := if w.rows[id].filePath.Some? then w.fs - {w.rows[id].filePath.value} else w.fs)
  }

  /** The object a deletion asks remote storage to drop, if the settings let it ask. */
  function DeletionTarget(e: Env, settings: Option<Settings>, row: Row): Option<Location> {
    if row.remote.Some? then Located(e, settings, row.remote.value) else None
  }

  function WithoutObject(remote: map<Location, Bytes>, at: Option<Location>): (r: map<Location, Bytes>)
    ensures r.Keys <= remote.Keys
  {
    if at.Some? then remote - {at.value} else remote
  }

  ghost function RemoteDeleted(e: Env, w: World, id: Id): (w': World)
    requires id in w.rows
    ensures SameBooks(w, w') && w'.rows == w.rows && w'.fs == w.fs && w'.jobs == w.jobs && w'.remote.Keys <= w.remote.Keys
    ensures w'.deleting == w.deleting + {id}
    ensures w'.looks == w.looks
  {
    w.(deleting := w.deleting + {id}, remote := WithoutObject(w.remote, DeletionTarget(e, w.settings, w.rows[id])))
  }

  /** The row a finished job leaves: the file name, the local path, and the object's key or id. */
  function CompletedRow(e: Env, stage: Stage): Row
    requires stage.Shipped?
  {
    Row(Completed, stage.name, Some(Path(e.storageDir, stage.name)), if stage.at.Some? then Some(RecordOf(stage.at.value)) else None)
  }

  // ── What an action leaves alone ──

  /** Nothing of this dump name's files, objects and standing changed. */
  ghost predicate Untouched(e: Env, w: World, w': World, b: string) {
    && (forall name :: FileOf(b, name) ==>
          var p := Path(e.storageDir, name); (p in w.fs <==> p in w'.fs) && (p in w.fs ==> w'.fs[p] == w.fs[p]))
    && (forall loc :: loc in w.origins && w.origins[loc] == b ==>
          && loc in w'.origins && w'.origins[loc] == b
          && (loc in w.remote <==> loc in w'.remote) && (loc in w.remote ==> w'.remote[loc] == w.remote[loc]))
    && (forall loc :: loc in w'.origins && w'.origins[loc] == b ==> loc in w.origins && w.origins[loc] == b)
    && (b in w.completed <==> b in w'.completed)
    && (b in w.admitted <==> b in w'.admitted) && (b in w.admitted ==> w'.admitted[b] == w.admitted[b])
    && (b in w.used ==> b in w'.used)
    && w.everCurrent <= w'.everCurrent
  }

  predicate IsJobAction(a: Action) {
    IsMove(a) || a.WriteDump? || a.Admit? || a.Put? || a.Complete?
  }

  /** The one dump name an action is about, if any. */
  ghost function Touched(w: World, a: Action): set<string> {
    if a.WriteDump? then {a.dump.name}
    else if IsJobAction(a) then (if IsWorking(w, a.id) then {w.jobs[a.id].dump.name} else {})
    else if (a.DeleteLocal? || a.DeleteRemote?) && a.id in w.bases then {w.bases[a.id]}
    else {}
  }

  lemma HoldsGrows(g: Gcm, file: Bytes, name: string, dump: Bytes, keys: set<string>, more: set<string>)
    requires Holds(g, file, name, dump, keys) && keys <= more
    ensures Holds(g, file, name, dump, more)
  {
  }

  /** Two objects with one record are one object. */
  lemma RecordsApart(w: World, l: Location, m: Location)
    requires NamesOk(w) && OriginsOk(w) && l in w.origins && m in w.origins && RecordOf(l) == RecordOf(m)
    ensures l == m
  {
    if l.S3Object? { KeyOfOne(l.key, w.origins[l], w.origins[m]); }
  }
}
