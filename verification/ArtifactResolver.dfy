/**
 * What a stored backup resolves to (ensureLocalBackupFile and maybeDecrypt of
 * storage.service.ts), and the main claim about it: at every point of every run, exactly
 * when a live backup resolves to its dump.
 */
module ArtifactResolver {
  import opened Prelude
  import opened BackupCrypto
  import opened BackupStore
  import opened BackupInvariant
  import opened BackupChoices

  datatype ResolveError = NotFound | NotConfigured | DownloadFailed | RefusedPlain | NoPassphrase | NoneOpens

  /** The first candidate that opens the file decides. */
  function DecryptWith(g: Gcm, file: Bytes, candidates: seq<string>): Result<Bytes, ResolveError> {
    if candidates == [] then Err(NoneOpens)
    else
      var r := Unseal(g, file, candidates[0]);
      if r.Ok? then Ok(r.value) else DecryptWith(g, file, candidates[1..])
  }

  /**
   * The contents maybeDecrypt hands out. `inPlace`: the decrypted copy would be written
   * over the file being read.
   */
  function Opened(g: Gcm, file: Bytes, expectEncrypted: bool, inPlace: bool, candidates: seq<string>): Result<Bytes, ResolveError> {
    if !IsEncryptedFile(file) then (if expectEncrypted then Err(RefusedPlain) else Ok(file))
    else if candidates == [] then Err(NoPassphrase)
    else if inPlace then Err(NoneOpens)
    else DecryptWith(g, file, candidates)
  }

  /** The name a downloaded artifact gets inside its temp directory. */
  function DownloadName(fileName: string): string {
    if '.' in fileName then fileName else fileName + ".dump"
  }

  function StripEnc(name: string): string {
    if EndsWith(name, ENC) then name[..|name| - |ENC|] else name
  }

  predicate ExpectEncrypted(row: Row) {
    IsEncryptedName(row.fileName) || (row.filePath.Some? && IsEncryptedName(row.filePath.value.name))
  }

  /** ensureLocalBackupFile, with remote storage answering: the bytes at the path it returns. */
  function ResolvedBytes(e: Env, fs: map<Path, Bytes>, remote: map<Location, Bytes>, settings: Option<Settings>, row: Row)
    : Result<Bytes, ResolveError>
  {
    if row.filePath.Some? && row.filePath.value in fs then
      Opened(e.g, fs[row.filePath.value], ExpectEncrypted(row), false, Candidates(settings))
    else if row.remote.None? then Err(NotFound)
    else
      var at := Located(e, settings, row.remote.value);
      if at.None? then Err(NotConfigured)
      else if at.value !in remote then Err(DownloadFailed)
      else
        var name := DownloadName(row.fileName);
        Opened(e.g, remote[at.value], ExpectEncrypted(row), StripEnc(name) == name, Candidates(settings))
  }

  // ── Trying passphrases ──

  /** No candidate opens the file to another text before one opens it to this. */
  ghost predicate NoneEarlier(g: Gcm, file: Bytes, candidates: seq<string>, plain: Bytes) {
    forall i :: 0 <= i < |candidates| && Unseal(g, file, candidates[i]).Ok? && Unseal(g, file, candidates[i]) != Ok(plain) ==>
      exists j :: 0 <= j < i && Unseal(g, file, candidates[j]) == Ok(plain)
  }

  /** With the right passphrase among the candidates, wherever it stands, this is what it takes to find it. */
  lemma {:induction false} RightPassphraseFound(g: Gcm, file: Bytes, candidates: seq<string>, k: string, plain: Bytes)
    requires k in candidates && Unseal(g, file, k) == Ok(plain)
    ensures DecryptWith(g, file, candidates) == Ok(plain) <==> NoneEarlier(g, file, candidates, plain)
  {
    hide Unseal;
    var first, rest := Unseal(g, file, candidates[0]), candidates[1..];
    if first.Err? {
      RightPassphraseFound(g, file, rest, k, plain);
      NoneEarlierShifts(g, file, candidates, plain);
    } else if first != Ok(plain) {
      assert !NoneEarlier(g, file, candidates, plain);
    }
  }

  lemma NoneEarlierShifts(g: Gcm, file: Bytes, candidates: seq<string>, plain: Bytes)
    requires candidates != [] && Unseal(g, file, candidates[0]).Err?
    ensures NoneEarlier(g, file, candidates, plain) <==> NoneEarlier(g, file, candidates[1..], plain)
  {
    hide Unseal;
    var rest := candidates[1..];
    assert forall i :: 0 <= i < |rest| ==> rest[i] == candidates[i + 1];
    if NoneEarlier(g, file, candidates, plain) {
      forall i | 0 <= i < |rest| && Unseal(g, file, rest[i]).Ok? && Unseal(g, file, rest[i]) != Ok(plain)
        ensures exists j :: 0 <= j < i && Unseal(g, file, rest[j]) == Ok(plain)
      {
        assert candidates[i + 1] == rest[i];
        var j :| 0 <= j < i + 1 && Unseal(g, file, candidates[j]) == Ok(plain);
        assert rest[j - 1] == candidates[j];
      }
    }
    if NoneEarlier(g, file, rest, plain) {
      forall i | 0 <= i < |candidates| && Unseal(g, file, candidates[i]).Ok? && Unseal(g, file, candidates[i]) != Ok(plain)
        ensures exists j :: 0 <= j < i && Unseal(g, file, candidates[j]) == Ok(plain)
      {
        assert candidates[i] == rest[i - 1];
        var j :| 0 <= j < i - 1 && Unseal(g, file, rest[j]) == Ok(plain);
        assert candidates[j + 1] == rest[j];
      }
    }
  }

  /** A cipher that tells the remembered passphrases apart never has a wrong one answer first. */
  lemma CommittingMeansNoneEarlier(g: Gcm, file: Bytes, candidates: seq<string>, k: string, plain: Bytes)
    requires GcmLaws(g) && CommittingOn(g, (set c | c in candidates))
    requires k in candidates && Unseal(g, file, k) == Ok(plain)
    ensures NoneEarlier(g, file, candidates, plain)
  {
    forall i | 0 <= i < |candidates| ensures Unseal(g, file, candidates[i]).Ok? ==> Unseal(g, file, candidates[i]) == Ok(plain) {
      if candidates[i] != k {
        OtherPassphraseFails(g, (set c | c in candidates), file, k, candidates[i], plain);
      }
    }
    hide Unseal;
  }

  lemma {:induction false} DecryptedIsShorter(g: Gcm, file: Bytes, candidates: seq<string>)
    requires GcmLaws(g)
    ensures DecryptWith(g, file, candidates).Ok? ==> |DecryptWith(g, file, candidates).value| < |file|
  {
    if candidates != [] {
      if Unseal(g, file, candidates[0]).Ok? { UnsealLength(g, file, candidates[0]); }
      DecryptedIsShorter(g, file, candidates[1..]);
    }
  }

  lemma EncNameIsStripped(name: string)
    requires IsEncryptedName(name)
    ensures '.' in name && StripEnc(DownloadName(name)) != DownloadName(name)
  {
    assert name[|name| - |ENC|..][0] == '.';
    assert name[|name| - |ENC|] == '.';
  }

  // ── A live backup ──

  /** Its local file is there, or the settings reach the place its object was put. */
  predicate AtHand(e: Env, w: World, id: Id)
    requires id in w.rows
  {
    var r := w.rows[id];
    || (r.filePath.Some? && r.filePath.value in w.fs)
    || (r.remote.Some? && id in w.homes && Reaches(e, w.settings, w.homes[id]))
  }

  /** The copy a resolution would read. */
  function StoredCopy(w: World, id: Id): Bytes
    requires id in w.rows
  {
    var r := w.rows[id];
    if r.filePath.Some? && r.filePath.value in w.fs then w.fs[r.filePath.value]
    else if id in w.homes && w.homes[id] in w.remote then w.remote[w.homes[id]]
    else []
  }

  /** What the bytes of a copy must be like, given the name it is stored under. */
  ghost predicate Readable(g: Gcm, file: Bytes, name: string, dump: Bytes, candidates: seq<string>) {
    if IsEncryptedName(name) then NoneEarlier(g, file, candidates, dump) else !IsEncryptedFile(dump)
  }

  lemma HeldFileOpens(g: Gcm, file: Bytes, name: string, dump: Bytes, settings: Option<Settings>, inPlace: bool)
    requires GcmLaws(g) && Holds(g, file, name, dump, Keys(settings))
    requires IsEncryptedName(name) ==> !inPlace
    ensures Opened(g, file, IsEncryptedName(name), inPlace, Candidates(settings)) == Ok(dump)
            <==> Readable(g, file, name, dump, Candidates(settings))
  {
    if IsEncryptedName(name) {
      var k :| k in Keys(settings) && Unseal(g, file, k) == Ok(dump);
      UnsealLength(g, file, k);
      RightPassphraseFound(g, file, Candidates(settings), k, dump);
    } else {
      DecryptedIsShorter(g, file, Candidates(settings));
    }
  }

  /** Where downloads look there is nothing but the backup's own object, if that. */
  lemma OnlyOwnObject(e: Env, w: World, id: Id)
    requires Inv(e, w) && id in w.rows && w.rows[id].remote.Some?
    ensures var at := Located(e, w.settings, w.rows[id].remote.value);
            at.Some? && at.value in w.remote ==> id in w.homes && at.value == w.homes[id]
  {
    DeletedObject(e, w, id);
    InvNames(e, w);
    hide Inv, Located;
  }

  /** Downloads and deletions look in the right place exactly when the settings reach it. */
  lemma LocatedWhenReached(e: Env, settings: Option<Settings>, home: Location)
    ensures Located(e, settings, RecordOf(home)) == Some(home) <==> Reaches(e, settings, home)
  {
  }

  lemma RecordIsHome(e: Env, w: World, id: Id)
    requires Inv(e, w) && id in w.rows && w.rows[id].remote.Some?
    ensures id in w.homes && w.rows[id].remote.value == RecordOf(w.homes[id])
  {
    RowFacts(e, w, id);
  }

  lemma DeletionAsksFor(e: Env, w: World, id: Id)
    requires id in w.rows
    ensures RemoteDeleted(e, w, id).remote == WithoutObject(w.remote, DeletionTarget(e, w.settings, w.rows[id]))
    ensures DeletionTarget(e, w.settings, w.rows[id]) ==
            if w.rows[id].remote.Some? then Located(e, w.settings, w.rows[id].remote.value) else None
  {
    hide Located, WithoutObject;
  }

  lemma WithoutAbsent(remote: map<Location, Bytes>, at: Option<Location>)
    requires at.Some? ==> at.value !in remote
    ensures WithoutObject(remote, at) == remote
  {
  }

  /** A remote deletion removes exactly the row's own object when the settings reach it, and nothing otherwise. */
  lemma RemoteDeletionRemoves(e: Env, w: World, id: Id)
    requires Inv(e, w) && id in w.rows
    ensures RemoteDeleted(e, w, id).remote ==
            if w.rows[id].remote.Some? && id in w.homes && Reaches(e, w.settings, w.homes[id]) then w.remote - {w.homes[id]} else w.remote
  {
    DeletionAsksFor(e, w, id);
    hide Inv, Located, Reaches, RemoteDeleted, DeletionTarget;
    var at := DeletionTarget(e, w.settings, w.rows[id]);
    if w.rows[id].remote.Some? {
      RecordIsHome(e, w, id);
      LocatedWhenReached(e, w.settings, w.homes[id]);
      OnlyOwnObject(e, w, id);
      if !Reaches(e, w.settings, w.homes[id]) { WithoutAbsent(w.remote, at); }
    }
  }

  lemma LiveFacts(e: Env, w: World, id: Id)
    requires Inv(e, w) && Live(w, id)
    ensures Restorable(e, w, id) && w.everCurrent <= Keys(w.settings)
    ensures w.rows[id].filePath == Some(Path(e.storageDir, w.rows[id].fileName))
  {
  }

  /** All that has to hold for a live backup to come back as its dump. */
  ghost predicate Resolvable(e: Env, w: World, id: Id)
    requires id in w.rows && id in w.dumps
  {
    AtHand(e, w, id) && Readable(e.g, StoredCopy(w, id), w.rows[id].fileName, w.dumps[id], Candidates(w.settings))
  }

  lemma LocalResolves(e: Env, w: World, id: Id)
    requires EnvOk(e) && Inv(e, w) && Live(w, id) && w.rows[id].filePath.Some? && w.rows[id].filePath.value in w.fs
    ensures id in w.dumps
    ensures ResolvedBytes(e, w.fs, w.remote, w.settings, w.rows[id]) == Ok(w.dumps[id]) <==> Resolvable(e, w, id)
  {
    var row := w.rows[id];
    LiveFacts(e, w, id);
    hide Inv, Unseal, Located, Reaches;
    var file := w.fs[row.filePath.value];
    HoldsGrows(e.g, file, row.fileName, w.dumps[id], w.everCurrent, Keys(w.settings));
    HeldFileOpens(e.g, file, row.fileName, w.dumps[id], w.settings, false);
    hide Opened, Readable, Holds;
  }

  lemma RemoteResolves(e: Env, w: World, id: Id)
    requires EnvOk(e) && Inv(e, w) && Live(w, id) && (w.rows[id].filePath.None? || w.rows[id].filePath.value !in w.fs)
    ensures id in w.dumps
    ensures ResolvedBytes(e, w.fs, w.remote, w.settings, w.rows[id]) == Ok(w.dumps[id]) <==> Resolvable(e, w, id)
  {
    var row := w.rows[id];
    LiveFacts(e, w, id);
    assert row.remote.Some?;
    OnlyOwnObject(e, w, id);
    RecordIsHome(e, w, id);
    LocatedWhenReached(e, w.settings, w.homes[id]);
    hide Inv, Unseal, Located, Reaches;
    if IsEncryptedName(row.fileName) { EncNameIsStripped(row.fileName); }
    var name, file := DownloadName(row.fileName), w.remote[w.homes[id]];
    HoldsGrows(e.g, file, row.fileName, w.dumps[id], w.everCurrent, Keys(w.settings));
    HeldFileOpens(e.g, file, row.fileName, w.dumps[id], w.settings, StripEnc(name) == name);
    hide Opened, Readable, Holds, IsEncryptedName, StripEnc, DownloadName;
  }

  /**
   * A live backup resolves to exactly its dump if and only if its local file is there or the
   * settings name the bucket or account it was put in, with every credential set; and, stored encrypted, no other
   * remembered passphrase answers first; or, stored plain, it does not itself begin with the magic.
   */
  lemma LiveBackupResolves(e: Env, w: World, id: Id)
    requires EnvOk(e) && Inv(e, w) && Live(w, id)
    ensures id in w.dumps
    ensures ResolvedBytes(e, w.fs, w.remote, w.settings, w.rows[id]) == Ok(w.dumps[id]) <==> Resolvable(e, w, id)
  {
    hide Inv, ResolvedBytes, Resolvable;
    if w.rows[id].filePath.Some? && w.rows[id].filePath.value in w.fs { LocalResolves(e, w, id); } else { RemoteResolves(e, w, id); }
  }

  /**
   * Whatever is on disk or in remote storage: a row recorded as encrypted never resolves to anything
   * but what one of the remembered passphrases opens from the file found; a swapped plain file is refused.
   */
  lemma EncryptedRowsAreAuthentic(e: Env, fs: map<Path, Bytes>, remote: map<Location, Bytes>, settings: Option<Settings>, row: Row, bytes: Bytes)
    requires IsEncryptedName(row.fileName) && ResolvedBytes(e, fs, remote, settings, row) == Ok(bytes)
    ensures exists file, k :: k in Candidates(settings) && Unseal(e.g, file, k) == Ok(bytes)
              && (if row.filePath.Some? && row.filePath.value in fs then file == fs[row.filePath.value]
                  else exists at :: at in remote && file == remote[at])
  {
    hide Unseal, Located;
    var file := if row.filePath.Some? && row.filePath.value in fs then fs[row.filePath.value]
                else remote[Located(e, settings, row.remote.value).value];
    DecryptedBySome(e.g, file, Candidates(settings), bytes);
  }

  lemma {:induction false} DecryptedBySome(g: Gcm, file: Bytes, candidates: seq<string>, plain: Bytes)
    requires DecryptWith(g, file, candidates) == Ok(plain)
    ensures exists k :: k in candidates && Unseal(g, file, k) == Ok(plain)
  {
    hide Unseal;
    if Unseal(g, file, candidates[0]).Ok? {
      assert candidates[0] in candidates;
    } else {
      DecryptedBySome(g, file, candidates[1..], plain);
    }
  }

  /** The passphrases are tried in this order: the current one, then the history. */
  lemma CurrentIsTriedFirst(s: Settings)
    ensures s.passphrase.Some? ==> Candidates(Some(s))[0] == s.passphrase.value
    ensures forall i :: 0 <= i < |s.history| ==>
              Candidates(Some(s))[i + if s.passphrase.Some? then 1 else 0] == s.history[i]
    ensures |Candidates(Some(s))| == |s.history| + if s.passphrase.Some? then 1 else 0
  {
  }

  // ── Runs ──

  ghost predicate Run(e: Env, w: World, actions: seq<Action>)
    decreases actions
  {
    actions == [] || (Enabled(e, w, actions[0]) && Run(e, Apply(e, w, actions[0]), actions[1..]))
  }

  ghost function After(e: Env, w: World, actions: seq<Action>): World
    requires Run(e, w, actions)
    decreases actions
  {
    if actions == [] then w else After(e, Apply(e, w, actions[0]), actions[1..])
  }

  const EMPTY: World :=
    World(map[], map[], 0, map[], None, {}, map[], map[], map[], map[], {}, map[], {}, map[], {}, map[])

  /** Some run from the empty server ends here. */
  ghost predicate Reachable(e: Env, w: World) {
    exists actions :: Run(e, EMPTY, actions) && After(e, EMPTY, actions) == w
  }

  lemma EmptyInv(e: Env)
    ensures Inv(e, EMPTY) && Choices(e, EMPTY)
  {
  }

  lemma {:induction false} EveryRunKeepsInv(e: Env, w: World, actions: seq<Action>)
    requires EnvOk(e) && Inv(e, w) && Run(e, w, actions)
    ensures Inv(e, After(e, w, actions))
    decreases actions
  {
    hide Inv, EnvOk, Enabled, Apply;
    if actions != [] {
      ApplyKeepsInv(e, w, actions[0]);
      EveryRunKeepsInv(e, Apply(e, w, actions[0]), actions[1..]);
    }
  }

  /** Runs of the whole system are closed under one more action. */
  lemma {:induction false} OneMore(e: Env, w: World, actions: seq<Action>, a: Action)
    requires Run(e, w, actions) && Enabled(e, After(e, w, actions), a)
    ensures Run(e, w, actions + [a]) && After(e, w, actions + [a]) == Apply(e, After(e, w, actions), a)
    decreases actions
  {
    hide Enabled, Apply;
    if actions == [] {
      assert actions + [a] == [a] && [a][1..] == [];
      assert Run(e, Apply(e, w, a), []);
    } else {
      OneMore(e, Apply(e, w, actions[0]), actions[1..], a);
      assert (actions + [a])[1..] == actions[1..] + [a];
    }
  }

  lemma ReachableInv(e: Env, w: World)
    requires EnvOk(e) && Reachable(e, w)
    ensures Inv(e, w)
  {
    hide Inv, EnvOk;
    var actions :| Run(e, EMPTY, actions) && After(e, EMPTY, actions) == w;
    EmptyInv(e);
    EveryRunKeepsInv(e, EMPTY, actions);
  }

  lemma ReachableChoices(e: Env, w: World)
    requires EnvOk(e) && Reachable(e, w)
    ensures Choices(e, w)
  {
    hide Inv, EnvOk, Choices;
    var actions :| Run(e, EMPTY, actions) && After(e, EMPTY, actions) == w;
    EmptyInv(e);
    EveryRunKeepsChoices(e, EMPTY, actions);
  }

  lemma ReachableStep(e: Env, w: World, a: Action)
    requires Reachable(e, w) && Enabled(e, w, a)
    ensures Reachable(e, Apply(e, w, a))
  {
    hide Enabled, Apply;
    var actions :| Run(e, EMPTY, actions) && After(e, EMPTY, actions) == w;
    OneMore(e, EMPTY, actions, a);
  }

  /**
   * From an empty server, after any interleaving of any number of jobs at any stage, settings
   * changes of every kind, passphrase rotations, resolutions and deletions.
   */
  lemma EveryRunResolves(e: Env, actions: seq<Action>, id: Id)
    requires EnvOk(e) && Run(e, EMPTY, actions) && Live(After(e, EMPTY, actions), id)
    ensures var w := After(e, EMPTY, actions);
            id in w.dumps && (ResolvedBytes(e, w.fs, w.remote, w.settings, w.rows[id]) == Ok(w.dumps[id]) <==> Resolvable(e, w, id))
  {
    EmptyInv(e);
    hide Inv, EnvOk, Enabled, Apply, Resolvable, ResolvedBytes;
    EveryRunKeepsInv(e, EMPTY, actions);
    LiveBackupResolves(e, After(e, EMPTY, actions), id);
  }

  /**
   * Nothing recoverable is lost: at every point of every run, a dump that passed the quota check
   * and whose run is not recorded yet (or never will be) has a stored copy that is the dump or
   * decrypts to it with a remembered passphrase.
   */
  lemma EveryRunKeepsCopies(e: Env, actions: seq<Action>, b: string)
    requires EnvOk(e) && Run(e, EMPTY, actions)
    requires b in After(e, EMPTY, actions).admitted && b !in After(e, EMPTY, actions).completed
    ensures var w := After(e, EMPTY, actions);
            CopyStored(e, w, Dump(b, w.admitted[b])) && w.everCurrent <= Keys(w.settings)
  {
    EmptyInv(e);
    hide EnvOk, Enabled, Apply, CopyStored;
    EveryRunKeepsInv(e, EMPTY, actions);
  }

  lemma {:induction false} EveryRunKeepsChoices(e: Env, w: World, actions: seq<Action>)
    requires EnvOk(e) && Inv(e, w) && Choices(e, w) && Run(e, w, actions)
    ensures Choices(e, After(e, w, actions))
    decreases actions
  {
    hide Inv, EnvOk, Enabled, Apply, Choices;
    if actions != [] {
      ApplyKeepsInv(e, w, actions[0]);
      ApplyKeepsChoices(e, w, actions[0]);
      EveryRunKeepsChoices(e, Apply(e, w, actions[0]), actions[1..]);
    }
  }

  /**
   * In every run, a dump recorded under its encrypted name was asked to be encrypted by the settings
   * its job saw, and its plaintext file is gone; one recorded under its plain name was not asked to
   * be, or both attempts were given up.
   */
  lemma EveryRunEncryptsAsAsked(e: Env, actions: seq<Action>, id: Id)
    requires EnvOk(e) && Run(e, EMPTY, actions)
    requires id in After(e, EMPTY, actions).rows && After(e, EMPTY, actions).rows[id].filePath.Some?
    ensures var w := After(e, EMPTY, actions);
            && id in w.bases && w.bases[id] in w.looks
            && var b, name := w.bases[id], w.rows[id].fileName;
            && (name == b || name == b + ENC)
            && (name == b + ENC ==> AskedPassphrase(w.looks[b].seen).Some? && Path(e.storageDir, b) !in w.fs)
            && (name == b ==> AskedPassphrase(w.looks[b].seen).None? || w.looks[b].givenUp == 2)
  {
    EmptyInv(e);
    hide Inv, EnvOk, Enabled, Apply;
    EveryRunKeepsChoices(e, EMPTY, actions);
    assert RowAsAsked(e, After(e, EMPTY, actions), id);
  }

  /** And an object a row refers to was put where the settings its job saw say: bucket and key, or account. */
  lemma EveryRunShipsWhereAsked(e: Env, actions: seq<Action>, id: Id)
    requires EnvOk(e) && Run(e, EMPTY, actions)
    requires id in After(e, EMPTY, actions).rows && After(e, EMPTY, actions).rows[id].remote.Some?
    ensures var w := After(e, EMPTY, actions);
            && id in w.bases && w.bases[id] in w.looks && id in w.homes
            && var looks := w.looks[w.bases[id]];
            Belongs(e, w.rows[id].fileName, looks.route, looks.aim, w.homes[id])
  {
    EmptyInv(e);
    hide EnvOk, Enabled, Apply, Belongs;
    EveryRunKeepsInv(e, EMPTY, actions);
    RowFacts(e, After(e, EMPTY, actions), id);
    EveryRunKeepsChoices(e, EMPTY, actions);
    assert RowAsAsked(e, After(e, EMPTY, actions), id);
  }

  /** Every passphrase that was ever current can still be tried, at every point of every run. */
  lemma EveryRunRemembersPassphrases(e: Env, before: seq<Action>, after: seq<Action>)
    requires EnvOk(e) && Run(e, EMPTY, before) && Run(e, After(e, EMPTY, before), after)
    ensures var w := After(e, EMPTY, before);
            w.settings.Some? && w.settings.value.passphrase.Some? ==>
              w.settings.value.passphrase.value in Candidates(After(e, w, after).settings)
  {
    EmptyInv(e);
    hide EnvOk, Enabled, Apply;
    EveryRunKeepsInv(e, EMPTY, before);
    var w := After(e, EMPTY, before);
    EveryRunKeepsInv(e, w, after);
    EverCurrentGrows(e, w, after);
  }

  lemma ActionRemembers(e: Env, w: World, a: Action)
    requires Enabled(e, w, a)
    ensures w.everCurrent <= Apply(e, w, a).everCurrent
  {
    if !a.SaveSettings? { SettingsKept(e, w, a); }
    hide SettingsSaved;
  }

  lemma {:induction false} EverCurrentGrows(e: Env, w: World, actions: seq<Action>)
    requires Run(e, w, actions)
    ensures w.everCurrent <= After(e, w, actions).everCurrent
    decreases actions
  {
    hide Apply, Enabled;
    if actions != [] {
      ActionRemembers(e, w, actions[0]);
      EverCurrentGrows(e, Apply(e, w, actions[0]), actions[1..]);
    }
  }
}
