/**
 * That jobs do what the settings ask: which dumps are encrypted, with which passphrase, and where
 * artifacts are shipped. A second invariant beside that of BackupInvariant.dfy, over the looks each
 * job took at the settings.
 */
module BackupChoices {
  import opened Prelude
  import opened BackupCrypto
  import opened BackupStore
  import opened BackupInvariant

  /**
   * An artifact under its encrypted name was asked for, and its plaintext is gone; one under its
   * plain name was not asked to be encrypted, or both attempts were given up.
   */
  ghost predicate Protected(e: Env, w: World, b: string, name: string) {
    && b in w.looks
    && (name == b || name == b + ENC)
    && if name == b + ENC then AskedPassphrase(w.looks[b].seen).Some? && Path(e.storageDir, b) !in w.fs
       else AskedPassphrase(w.looks[b].seen).None? || w.looks[b].givenUp == 2
  }

  ghost predicate ShippedAsAsked(e: Env, w: World, b: string, name: string, home: Location) {
    b in w.looks && Belongs(e, name, w.looks[b].route, w.looks[b].aim, home)
  }

  /** What each stage of a job owes to the settings it saw. */
  ghost predicate AsAsked(e: Env, w: World, d: Dump, stage: Stage) {
    match stage
    case Sealing(pass, attempt, _) =>
      && d.name in w.looks && AskedPassphrase(w.looks[d.name].seen) == Some(pass)
      && (attempt == 1 || attempt == 2) && w.looks[d.name].givenUp == attempt - 1
      && w.looks[d.name].route == None == w.looks[d.name].aim
    case Verified(pass) =>
      && d.name in w.looks && AskedPassphrase(w.looks[d.name].seen) == Some(pass)
      && w.looks[d.name].route == None == w.looks[d.name].aim
    case Secured(name) => Protected(e, w, d.name, name) && w.looks[d.name].route == None == w.looks[d.name].aim
    case Routed(name, provider, _) =>
      && Protected(e, w, d.name, name) && provider != LocalOnly
      && w.looks[d.name].route.Some? && w.looks[d.name].route.value.upload.provider == provider && w.looks[d.name].aim == None
    case Aimed(name, target, _) =>
      && Protected(e, w, d.name, name) && forall n: nat :: ShippedAsAsked(e, w, d.name, name, LocationOf(target, n))
    case Uploaded(name, loc, _) => Protected(e, w, d.name, name) && ShippedAsAsked(e, w, d.name, name, loc)
    case Shipped(name, at) => Protected(e, w, d.name, name) && (at.Some? ==> ShippedAsAsked(e, w, d.name, name, at.value))
    case Recorded => true
    case _ => d.name !in w.looks
  }

  ghost predicate RowAsAsked(e: Env, w: World, id: Id)
    requires id in w.rows
  {
    var r := w.rows[id];
    r.filePath.Some? ==>
      && id in w.bases && Protected(e, w, w.bases[id], r.fileName)
      && (r.remote.Some? ==> id in w.homes && ShippedAsAsked(e, w, w.bases[id], r.fileName, w.homes[id]))
  }

  ghost predicate Choices(e: Env, w: World) {
    && w.looks.Keys <= w.used
    && (forall id :: id in w.jobs && w.jobs[id].Working? ==> AsAsked(e, w, w.jobs[id].dump, w.jobs[id].stage))
    && (forall id :: id in w.rows ==> RowAsAsked(e, w, id))
  }

  // ── What stays of other dumps ──

  /** This dump name's looks are as they were, and a plaintext that was gone is gone. */
  ghost predicate SameChoice(e: Env, w: World, w': World, b: string) {
    && (b in w.looks <==> b in w'.looks) && (b in w.looks ==> w'.looks[b] == w.looks[b])
    && (Path(e.storageDir, b) !in w.fs ==> Path(e.storageDir, b) !in w'.fs)
  }

  lemma LooksKept(e: Env, w: World, a: Action, b: string)
    requires Enabled(e, w, a) && (IsMove(a) ==> b != w.jobs[a.id].dump.name)
    ensures b in w.looks <==> b in Apply(e, w, a).looks
    ensures b in w.looks ==> Apply(e, w, a).looks[b] == w.looks[b]
  {
    hide Moved, RowsChanged, SettingsSaved, DumpWritten, DumpAdmitted, ObjectPut, RunRecorded, LocalDeleted, RemoteDeleted, StageAfter, FileAfter, WithoutDir;
  }

  /** Looks are taken by running jobs only. */
  lemma LooksUsed(e: Env, w: World, a: Action)
    requires Inv(e, w) && Enabled(e, w, a) && w.looks.Keys <= w.used
    ensures Apply(e, w, a).looks.Keys <= Apply(e, w, a).used
  {
    hide Inv, Apply, StageAfter, FileAfter;
    UsedAfter(e, w, a);
    if IsMove(a) {
      EnabledWorking(e, w, a);
      JobFacts(e, w, a.id);
      OwnLooks(e, w, a);
      hide Enabled, Standing, Holding;
    } else {
      forall b | b in Apply(e, w, a).looks ensures b in w.looks { LooksKept(e, w, a, b); }
    }
  }

  lemma DeletionKeepsAbsent(e: Env, w: World, a: Action, p: Path)
    requires Enabled(e, w, a) && (a.DeleteLocal? || a.DeleteRemote?) && p !in w.fs
    ensures p !in Apply(e, w, a).fs
  {
    hide Apply, RemoteDeleted;
    if a.DeleteLocal? { LocalIs(e, w, a); } else { RemoteIs(e, w, a); }
  }

  lemma OtherChoice(e: Env, w: World, a: Action, b: string)
    requires Inv(e, w) && Enabled(e, w, a) && b in w.used && (IsJobAction(a) ==> b !in Touched(w, a))
    requires IsMove(a) ==> IsWorking(w, a.id)
    ensures SameChoice(e, w, Apply(e, w, a), b)
  {
    hide Inv, Apply, Enabled, Untouched;
    LooksKept(e, w, a, b);
    if a.DeleteLocal? || a.DeleteRemote? {
      if Path(e.storageDir, b) !in w.fs { DeletionKeepsAbsent(e, w, a, Path(e.storageDir, b)); }
    } else {
      ActionUntouched(e, w, a, b);
      KeepsFile(e, w, Apply(e, w, a), b, b);
    }
  }

  lemma StageStays(e: Env, w: World, w': World, d: Dump, stage: Stage)
    requires AsAsked(e, w, d, stage) && SameChoice(e, w, w', d.name)
    ensures AsAsked(e, w', d, stage)
  {
    hide Belongs;
  }

  lemma RowStaysAsAsked(e: Env, w: World, w': World, id: Id)
    requires id in w.rows && RowAsAsked(e, w, id) && id in w'.rows && w'.rows[id] == w.rows[id].(status := w'.rows[id].status)
    requires id in w.bases ==> id in w'.bases && w'.bases[id] == w.bases[id] && SameChoice(e, w, w', w.bases[id])
    requires id in w.homes ==> id in w'.homes && w'.homes[id] == w.homes[id]
    ensures RowAsAsked(e, w', id)
  {
    hide Belongs;
  }

  // ── A job's own actions ──

  /** The first look, in the settings' own fields. */
  lemma ChooseFollowsSettings(e: Env, w: World, id: Id)
    requires Enabled(e, w, Choose(id))
    ensures var w' := Apply(e, w, Choose(id));
            var d := w.jobs[id].dump;
            && d.name in w'.looks && w'.looks[d.name] == Looks(w.settings, 0, None, None)
            && IsWorking(w', id)
            && w'.jobs[id].stage == match w.settings
                                    case Some(Settings(_, true, Some(pass), _)) => Sealing(pass, 1, Fresh)
                                    case _ => Secured(d.name)
  {
    MoveIs(e, w, Choose(id));
    hide Apply, FileAfter;
  }

  lemma OwnLooks(e: Env, w: World, a: Action)
    requires Enabled(e, w, a) && IsMove(a)
    ensures var w' := Apply(e, w, a);
            && IsWorking(w, a.id) && w'.looks == LooksAfter(w, a) && w'.fs == Changed(e, w.fs, FileAfter(e, w, a))
            && IsWorking(w', a.id) && w'.jobs[a.id].dump == w.jobs[a.id].dump && w'.jobs[a.id].stage == StageAfter(e, w, a)
  {
    MoveIs(e, w, a);
    hide Apply, StageAfter, FileAfter, LooksAfter, Changed;
  }

  lemma SealingAsAsked(e: Env, w: World, a: Action)
    requires Enabled(e, w, a) && (a.Choose? || a.Encrypt? || a.DecryptBack? || a.Compare? || a.GiveUp? || a.Reject?)
    requires AsAsked(e, w, w.jobs[a.id].dump, w.jobs[a.id].stage)
    ensures AsAsked(e, Apply(e, w, a), w.jobs[a.id].dump, StageAfter(e, w, a))
  {
    hide Apply, DecryptsBack, FileAfter, Belongs;
    OwnLooks(e, w, a);
    DumpFiles(w.jobs[a.id].dump.name);
  }

  lemma RemovePlainAsAsked(e: Env, w: World, a: Action)
    requires Enabled(e, w, a) && a.RemovePlain? && AsAsked(e, w, w.jobs[a.id].dump, w.jobs[a.id].stage)
    ensures AsAsked(e, Apply(e, w, a), w.jobs[a.id].dump, StageAfter(e, w, a))
  {
    hide Apply, Belongs;
    OwnLooks(e, w, a);
  }

  lemma RouteAsAsked(e: Env, w: World, a: Action)
    requires Enabled(e, w, a) && (a.Route? || a.LoseUpload? || a.Unlink?) && AsAsked(e, w, w.jobs[a.id].dump, w.jobs[a.id].stage)
    ensures AsAsked(e, Apply(e, w, a), w.jobs[a.id].dump, StageAfter(e, w, a))
  {
    hide Apply, Belongs;
    OwnLooks(e, w, a);
  }

  lemma AimBelongs(e: Env, route: Option<Settings>, name: string, provider: Provider, was: bool, s: Option<Settings>)
    requires route.Some? && route.value.upload.provider == provider && provider != LocalOnly
    ensures var aimed := AimOf(e, Routed(name, provider, was), s);
            aimed == Shipped(name, None)
            || (aimed.Aimed? && aimed.name == name && forall n: nat :: Belongs(e, name, route, s, LocationOf(aimed.target, n)))
  {
    if s.Some? {
      S3KeyIs(s.value.upload.prefix, name);
      hide S3Key, IsKey;
    }
  }

  /** And where these looks give an upload no place, it is not aimed at any. */
  lemma NoAimNoPlace(e: Env, route: Option<Settings>, name: string, provider: Provider, was: bool, s: Option<Settings>, home: Location)
    requires route.Some? && route.value.upload.provider == provider && provider != LocalOnly && Belongs(e, name, route, s, home)
    ensures AimOf(e, Routed(name, provider, was), s).Aimed?
  {
  }

  lemma AimAsAsked(e: Env, w: World, a: Action)
    requires Enabled(e, w, a) && a.Aim? && AsAsked(e, w, w.jobs[a.id].dump, w.jobs[a.id].stage)
    ensures AsAsked(e, Apply(e, w, a), w.jobs[a.id].dump, StageAfter(e, w, a))
  {
    hide Apply, Belongs, AimOf;
    OwnLooks(e, w, a);
    var d, stage := w.jobs[a.id].dump, w.jobs[a.id].stage;
    AimBelongs(e, w.looks[d.name].route, stage.name, stage.provider, stage.deleteLocal, w.settings);
  }

  lemma PutAsAsked(e: Env, w: World, id: Id)
    requires Enabled(e, w, Put(id)) && AsAsked(e, w, w.jobs[id].dump, w.jobs[id].stage)
    ensures var w' := Apply(e, w, Put(id)); id in w'.jobs && w'.jobs[id].Working? && AsAsked(e, w', w'.jobs[id].dump, w'.jobs[id].stage)
  {
    PutIs(e, w, Put(id));
    hide Apply;
    ObjectPutAsAsked(e, w, id);
  }

  lemma ObjectPutAsAsked(e: Env, w: World, id: Id)
    requires IsWorking(w, id) && w.jobs[id].stage.Aimed? && Path(e.storageDir, w.jobs[id].stage.name) in w.fs
    requires AsAsked(e, w, w.jobs[id].dump, w.jobs[id].stage)
    ensures var w' := ObjectPut(e, w, id); AsAsked(e, w', w'.jobs[id].dump, w'.jobs[id].stage)
  {
    hide Belongs, LocationOf;
  }

  lemma CompleteAsAsked(e: Env, w: World, id: Id)
    requires Enabled(e, w, Complete(id)) && AsAsked(e, w, w.jobs[id].dump, w.jobs[id].stage)
    ensures RowAsAsked(e, Apply(e, w, Complete(id)), id)
  {
    RecordedIs(e, w, Complete(id));
    hide Apply, Belongs;
  }

  lemma OwnJobAsAsked(e: Env, w: World, a: Action)
    requires Enabled(e, w, a) && IsJobAction(a)
    requires !a.WriteDump? ==> AsAsked(e, w, w.jobs[a.id].dump, w.jobs[a.id].stage)
    requires w.looks.Keys <= w.used
    ensures var w' := Apply(e, w, a);
            a.id in w'.jobs && w'.jobs[a.id].Working? && AsAsked(e, w', w'.jobs[a.id].dump, w'.jobs[a.id].stage)
  {
    hide Apply, AsAsked, StageAfter, DumpWritten, DumpAdmitted, RunRecorded;
    if IsMove(a) {
      OwnLooks(e, w, a);
      hide Enabled;
      if a.RemovePlain? { RemovePlainAsAsked(e, w, a); }
      else if a.Route? || a.LoseUpload? || a.Unlink? { RouteAsAsked(e, w, a); }
      else if a.Aim? { AimAsAsked(e, w, a); }
      else { SealingAsAsked(e, w, a); }
    } else if a.Put? {
      PutIs(e, w, a);
      PutAsAsked(e, w, a.id);
    } else if a.Complete? {
      RecordedIs(e, w, a);
      NothingOwed(e, Apply(e, w, a), w.jobs[a.id].dump, Recorded);
    } else if a.Admit? {
      AdmitIs(e, w, a);
      AdmitAsAsked(e, w, a.id);
    } else {
      WrittenIs(e, w, a);
      NotLookedYet(e, Apply(e, w, a), a.dump, Dumped);
    }
  }

  lemma AdmitAsAsked(e: Env, w: World, id: Id)
    requires IsWorking(w, id) && w.jobs[id].stage.Dumped? && AsAsked(e, w, w.jobs[id].dump, Dumped)
    ensures AsAsked(e, DumpAdmitted(w, id), w.jobs[id].dump, Admitted)
  {
  }

  lemma NotLookedYet(e: Env, w: World, d: Dump, stage: Stage)
    requires (stage.Dumped? || stage.Rejected? || stage.Admitted?) && d.name !in w.looks
    ensures AsAsked(e, w, d, stage)
  {
  }

  lemma NothingOwed(e: Env, w: World, d: Dump, stage: Stage)
    requires stage.Recorded?
    ensures AsAsked(e, w, d, stage)
  {
  }

  // ── All jobs and rows ──

  lemma JobChoiceKept(e: Env, w: World, a: Action, id: Id)
    requires Inv(e, w) && Choices(e, w) && Enabled(e, w, a) && IsWorking(Apply(e, w, a), id)
    ensures AsAsked(e, Apply(e, w, a), Apply(e, w, a).jobs[id].dump, Apply(e, w, a).jobs[id].stage)
  {
    hide Apply, AsAsked, RowAsAsked;
    if IsJobAction(a) && !a.WriteDump? { EnabledWorking(e, w, a); }
    if IsJobAction(a) && id == a.id {
      OwnJobAsAsked(e, w, a);
    } else {
      JobsFrom(e, w, a, id);
      var job := w.jobs[id];
      if job.stage.Recorded? {
        NothingOwed(e, Apply(e, w, a), job.dump, job.stage);
      } else {
        OtherJob(e, w, a, id);
        JobFacts(e, w, id);
        hide Inv, Choices, SameChoice;
        OtherChoice(e, w, a, job.dump.name);
        StageStays(e, w, Apply(e, w, a), job.dump, job.stage);
      }
    }
  }

  lemma RowChoiceKept(e: Env, w: World, a: Action, id: Id)
    requires Inv(e, w) && Choices(e, w) && Enabled(e, w, a) && id in Apply(e, w, a).rows
    ensures RowAsAsked(e, Apply(e, w, a), id)
  {
    hide Apply, AsAsked, RowAsAsked;
    if a.Complete? && a.id == id {
      EnabledWorking(e, w, a);
      CompleteAsAsked(e, w, id);
    } else {
      RowsFrom(e, w, a, id);
      if a.Trigger? && a.id == id {
        NewRowAsAsked(e, Apply(e, w, a), id);
      } else {
        if id in w.bases { BaseChoice(e, w, a, id); }
        hide Inv, Enabled, SameChoice;
        RowStaysAsAsked(e, w, Apply(e, w, a), id);
      }
    }
  }

  lemma NewRowAsAsked(e: Env, w: World, id: Id)
    requires id in w.rows && w.rows[id] == Row(Pending, "pending", None, None)
    ensures RowAsAsked(e, w, id)
  {
  }

  lemma BaseChoice(e: Env, w: World, a: Action, id: Id)
    requires Inv(e, w) && Enabled(e, w, a) && id in w.bases
    ensures SameChoice(e, w, Apply(e, w, a), w.bases[id])
  {
    hide Apply, SameChoice;
    InvNames(e, w);
    BaseIsUsed(w, id);
    if IsJobAction(a) {
      if !a.WriteDump? { EnabledWorking(e, w, a); }
      OtherRow(e, w, a, id);
    }
    hide Inv, Enabled;
    OtherChoice(e, w, a, w.bases[id]);
  }

  lemma BaseIsUsed(w: World, id: Id)
    requires NamesOk(w) && id in w.bases
    ensures w.bases[id] in w.used
  {
  }

  lemma ApplyKeepsChoices(e: Env, w: World, a: Action)
    requires Inv(e, w) && Choices(e, w) && Enabled(e, w, a)
    ensures Choices(e, Apply(e, w, a))
  {
    hide Inv, Apply, Enabled, AsAsked, RowAsAsked;
    var w' := Apply(e, w, a);
    LooksUsed(e, w, a);
    forall id | id in w'.jobs && w'.jobs[id].Working? ensures AsAsked(e, w', w'.jobs[id].dump, w'.jobs[id].stage) { JobChoiceKept(e, w, a, id); }
    forall id | id in w'.rows ensures RowAsAsked(e, w', id) { RowChoiceKept(e, w, a, id); }
  }
}
