// What a diagnostics document says of the surroundings it was made in: each status of each
// check as a condition on what the run read, and the result and exit code over the whole
// run (diagnostics.py).

module DiagnosticsMeaning {
  import opened Wrappers
  import opened RuntimeEvidence
  import opened DiagnosticsContract
  import opened DiagnosticsWorld
  import opened DiagnosticsTheorem

  // ---- What the run read ----

  predicate VersionSound(g: Grammar, w: World)
  {
    w.versionFile.Contents? && g.version(w.versionFile.value)
  }

  predicate RepositorySound(g: Grammar, w: World)
  {
    w.git.ToolGood? && w.repository.Some? && g.sha1(w.repository.value.0)
  }

  predicate WorkflowSound(g: Grammar, w: World)
  {
    w.workflow.Contents? && (w.workflow.value.None? || g.taskId(w.workflow.value.value))
  }

  predicate LockSound(g: Grammar, w: World)
  {
    w.lock.Contents? && ValidLock(g, w.lock.value)
  }

  predicate IndexSound(g: Grammar, w: World)
  {
    w.index.Contents? && g.labId(w.index.value)
  }

  predicate ManifestsSound(g: Grammar, w: World)
  {
    w.manifests.Contents? && w.manifests.value.Some? && ValidCatalog(g, w.manifests.value.value)
  }

  predicate CatalogSound(g: Grammar, w: World)
  {
    LockSound(g, w) && IndexSound(g, w) && ManifestsSound(g, w)
  }

  /** The lab a run is about: the selector, or the index's default. */
  function Chosen(w: World, selector: Option<Word>): Word
    requires w.index.Contents?
  {
    if selector.Some? then selector.value else w.index.value
  }

  predicate LabSound(g: Grammar, w: World, selector: Option<Word>)
  {
    CatalogSound(g, w) && Chosen(w, selector) in w.manifests.value.value.manifests
  }

  function ChosenManifest(g: Grammar, w: World, selector: Option<Word>): Manifest
    requires LabSound(g, w, selector)
  {
    w.manifests.value.value.manifests[Chosen(w, selector)]
  }

  /** The evidence file holds a supported document that validates and is safe to print. */
  predicate EvidenceSound(g: Grammar, w: World)
  {
    && w.evidence.Contents? && w.evidence.value.document.Some?
    && var d := w.evidence.value.document.value;
       && (d.kind.Pci? || d.kind.Platform?) && Accepted(d, g)
       && g.version(d.projectVersion) && g.token(d.machine) && g.token(d.image)
  }

  function EvidenceRead(g: Grammar, w: World): Document
    requires EvidenceSound(g, w)
  {
    w.evidence.value.document.value
  }

  predicate EvidencePasses(g: Grammar, w: World)
  {
    EvidenceSound(g, w) && EvidenceRead(g, w).passes && !EvidenceRead(g, w).dirty
  }

  /** The evidence was recorded for this version, this lock and the chosen lab. */
  predicate EvidenceFits(g: Grammar, w: World, selector: Option<Word>)
    requires LabSound(g, w, selector) && EvidenceSound(g, w) && VersionSound(g, w)
  {
    var d, m, c := EvidenceRead(g, w), ChosenManifest(g, w, selector), w.manifests.value.value;
    && d.sourceLock == w.lock.value.digest
    && d.projectVersion == w.versionFile.value
    && d.machine == m.machine && d.image == m.image && d.version == m.evidenceSchema
    && (d.kind.Pci? ||
        (&& d.lab == Some(Chosen(w, selector))
         && d.labIndex == Some(c.indexDigest)
         && Chosen(w, selector) in c.digests && d.labManifest == Some(c.digests[Chosen(w, selector)])))
  }

  // ---- The four statuses ----

  /** The check finds what it looks for. */
  predicate Sound(g: Grammar, w: World, selector: Option<Word>, id: CheckId)
  {
    match id
    case ProjectVersion => VersionSound(g, w)
    case RepositoryGit => RepositorySound(g, w)
    case WorkflowTask => WorkflowSound(g, w)
    case SourceLock => LockSound(g, w)
    case LabCatalog => CatalogSound(g, w)
    case LabSelection => LabSound(g, w, selector)
    case RepositoryClean => RepositorySound(g, w) && !w.repository.value.1
    case ToolGit => w.git.ToolGood?
    case ToolSsh => w.ssh.ToolGood?
    case Source(source) => w.git.ToolGood? && LockSound(g, w) && w.checkouts(source).Matches?
    case LocalConf => LabSound(g, w, selector) && w.localConf.Contents?
    case BblayersConf => LabSound(g, w, selector) && w.bblayersConf.Contents?
    case EvidenceFile => LabSound(g, w, selector) && w.evidence.Contents?
    case EvidenceDocument => LabSound(g, w, selector) && EvidenceSound(g, w)
    case EvidenceResult => LabSound(g, w, selector) && EvidencePasses(g, w)
    case EvidenceInputs =>
      && LabSound(g, w, selector) && EvidenceSound(g, w) && VersionSound(g, w)
      && EvidenceFits(g, w, selector) && EvidenceRead(g, w).kind.Platform?
    case EvidenceSubject =>
      && LabSound(g, w, selector) && EvidencePasses(g, w) && RepositorySound(g, w)
      && EvidenceRead(g, w).revision == w.repository.value.0
  }

  /** The check finds something other than what it looks for. */
  predicate Broken(g: Grammar, w: World, selector: Option<Word>, id: CheckId)
  {
    match id
    case ProjectVersion => !w.versionFile.Unreadable? && !VersionSound(g, w)
    case RepositoryGit => w.git.ToolBroken? || (w.git.ToolGood? && !RepositorySound(g, w))
    case WorkflowTask => !w.workflow.Unreadable? && !WorkflowSound(g, w)
    case SourceLock => !w.lock.Unreadable? && !LockSound(g, w)
    case LabCatalog =>
      && LockSound(g, w) && !w.index.Unreadable?
      && (!IndexSound(g, w) || (!w.manifests.Unreadable? && !ManifestsSound(g, w)))
    case ToolGit => w.git.ToolBroken?
    case ToolSsh => w.ssh.ToolBroken?
    case Source(source) =>
      && w.git.ToolGood? && LockSound(g, w)
      && (w.checkouts(source).BadDirectory? || w.checkouts(source).QueryFailed? || w.checkouts(source).Differs?)
    case LocalConf => LabSound(g, w, selector) && w.localConf.Rejected?
    case BblayersConf => LabSound(g, w, selector) && w.bblayersConf.Rejected?
    case EvidenceFile => LabSound(g, w, selector) && w.evidence.Rejected?
    case EvidenceDocument => LabSound(g, w, selector) && w.evidence.Contents? && !EvidenceSound(g, w)
    case EvidenceResult => LabSound(g, w, selector) && EvidenceSound(g, w) && !EvidencePasses(g, w)
    case EvidenceInputs =>
      LabSound(g, w, selector) && EvidenceSound(g, w) && VersionSound(g, w) && !EvidenceFits(g, w, selector)
    case _ => false
  }

  /** What the check looks for is out of reach. */
  predicate Absent(g: Grammar, w: World, selector: Option<Word>, id: CheckId)
  {
    match id
    case ProjectVersion => w.versionFile.Unreadable?
    case RepositoryGit => w.git.ToolMissing?
    case WorkflowTask => w.workflow.Unreadable?
    case SourceLock => w.lock.Unreadable?
    case LabCatalog => !LockSound(g, w) || w.index.Unreadable? || (IndexSound(g, w) && w.manifests.Unreadable?)
    case LabSelection => !CatalogSound(g, w)
    case RepositoryClean => !RepositorySound(g, w)
    case ToolGit => w.git.ToolMissing?
    case ToolSsh => w.ssh.ToolMissing?
    case Source(source) => !w.git.ToolGood? || !LockSound(g, w) || w.checkouts(source).NoDirectory?
    case LocalConf => !LabSound(g, w, selector) || w.localConf.Unreadable?
    case BblayersConf => !LabSound(g, w, selector) || w.bblayersConf.Unreadable?
    case EvidenceFile => !LabSound(g, w, selector) || w.evidence.Unreadable?
    case EvidenceDocument => !LabSound(g, w, selector) || !w.evidence.Contents?
    case EvidenceResult => !LabSound(g, w, selector) || !EvidenceSound(g, w)
    case EvidenceInputs => !LabSound(g, w, selector) || !EvidenceSound(g, w) || !VersionSound(g, w)
    case EvidenceSubject => !LabSound(g, w, selector) || !EvidencePasses(g, w) || !RepositorySound(g, w)
  }

  // ---- The account reads the surroundings that way ----

  lemma LockMeans(g: Grammar, w: World)
    ensures LockOf(g, w).Some? <==> LockSound(g, w)
    ensures LockOf(g, w).Some? ==> LockOf(g, w).value == w.lock.value
    ensures VersionOf(g, w).Some? <==> VersionSound(g, w)
    ensures VersionOf(g, w).Some? ==> VersionOf(g, w).value == w.versionFile.value
    ensures RepositoryOf(g, w).Some? <==> RepositorySound(g, w)
    ensures RepositoryOf(g, w).Some? ==> RepositoryOf(g, w) == w.repository
  {
    hide ValidLock;
  }

  lemma CatalogMeans(g: Grammar, w: World)
    ensures CatalogOf(g, w).Some? <==> CatalogSound(g, w)
    ensures CatalogOf(g, w).Some? ==> CatalogOf(g, w) == w.manifests.value
  {
    hide ValidLock, ValidCatalog;
  }

  lemma LabMeans(g: Grammar, w: World, selector: Option<Word>)
    ensures ManifestOf(g, w, selector).Some? <==> LabSound(g, w, selector)
    ensures LabSound(g, w, selector) ==>
      && LabIdOf(g, w, selector) == Some(Chosen(w, selector))
      && ManifestOf(g, w, selector).value == ChosenManifest(g, w, selector)
      && ManifestDigestOf(g, w, selector) ==
         (if Chosen(w, selector) in w.manifests.value.value.digests
          then Some(w.manifests.value.value.digests[Chosen(w, selector)]) else None)
  {
    hide ValidLock, ValidCatalog;
  }

  /** The argument error is a sound catalogue without the chosen lab. */
  lemma UnknownLabMeans(g: Grammar, w: World, selector: Option<Word>)
    ensures UnknownLab(g, w, selector) <==> CatalogSound(g, w) && !LabSound(g, w, selector)
  {
    hide ValidLock, ValidCatalog;
  }

  lemma EvidenceMeans(g: Grammar, w: World, selector: Option<Word>)
    ensures FileOf(g, w, selector).Some? <==> LabSound(g, w, selector) && w.evidence.Contents?
    ensures EvidenceOf(g, w, selector).Some? <==> LabSound(g, w, selector) && EvidenceSound(g, w)
    ensures EvidenceOf(g, w, selector).Some? ==> EvidenceOf(g, w, selector).value == EvidenceRead(g, w)
    ensures EvidenceSound(g, w) ==> w.evidence.Contents?
  {
    LabMeans(g, w, selector);
    hide ManifestOf, LabSound, Accepted;
  }

  lemma FitMeans(g: Grammar, w: World, selector: Option<Word>)
    requires LabSound(g, w, selector) && EvidenceSound(g, w) && VersionSound(g, w)
    ensures InputsMatch(g, w, selector, EvidenceRead(g, w)) <==> EvidenceFits(g, w, selector)
  {
    LockMeans(g, w);
    CatalogMeans(g, w);
    LabMeans(g, w, selector);
    EvidenceLab(g, w);
    hide LockOf, VersionOf, RepositoryOf, CatalogOf, ManifestOf, ManifestDigestOf, LabIdOf, ValidLock, ValidCatalog, Accepted;
  }

  /** Accepted platform evidence names its lab. */
  lemma EvidenceLab(g: Grammar, w: World)
    requires EvidenceSound(g, w)
    ensures EvidenceRead(g, w).kind.Platform? ==>
      && EvidenceRead(g, w).lab.Some? && EvidenceRead(g, w).labIndex.Some? && EvidenceRead(g, w).labManifest.Some?
  {
    hide PathsMatch, Tallies;
  }

  lemma PlainStatusMeans(g: Grammar, w: World, selector: Option<Word>, id: CheckId)
    requires id in {ProjectVersion, RepositoryGit, WorkflowTask, SourceLock, RepositoryClean, ToolGit, ToolSsh}
    ensures StatusOf(g, w, selector, id).Pass? <==> Sound(g, w, selector, id)
    ensures StatusOf(g, w, selector, id).Fail? <==> Broken(g, w, selector, id)
    ensures StatusOf(g, w, selector, id).Unavailable? <==> Absent(g, w, selector, id)
  {
    LockMeans(g, w);
    hide LockOf, ValidLock, VersionOf, RepositoryOf;
    match id
    case ProjectVersion =>
    case RepositoryGit =>
    case WorkflowTask =>
    case SourceLock =>
    case RepositoryClean =>
    case ToolGit =>
    case ToolSsh =>
  }

  lemma LabStatusMeans(g: Grammar, w: World, selector: Option<Word>, id: CheckId)
    requires !UnknownLab(g, w, selector)
    requires id.LabCatalog? || id.LabSelection? || id.Source? || id.LocalConf? || id.BblayersConf? || id.EvidenceFile?
    ensures StatusOf(g, w, selector, id).Pass? <==> Sound(g, w, selector, id)
    ensures StatusOf(g, w, selector, id).Fail? <==> Broken(g, w, selector, id)
    ensures StatusOf(g, w, selector, id).Unavailable? <==> Absent(g, w, selector, id)
  {
    LockMeans(g, w);
    CatalogMeans(g, w);
    LabMeans(g, w, selector);
    UnknownLabMeans(g, w, selector);
    hide LockOf, ValidLock, CatalogOf, ValidCatalog, ManifestOf, UnknownLab, VersionOf, RepositoryOf, LabIdOf, ManifestDigestOf;
    match id
    case LabCatalog =>
    case LabSelection =>
    case Source(_) =>
    case LocalConf =>
    case BblayersConf =>
    case EvidenceFile =>
  }

  lemma EvidenceStatusMeans(g: Grammar, w: World, selector: Option<Word>, id: CheckId)
    requires id.EvidenceDocument? || id.EvidenceResult? || id.EvidenceInputs? || id.EvidenceSubject?
    ensures StatusOf(g, w, selector, id).Pass? <==> Sound(g, w, selector, id)
    ensures StatusOf(g, w, selector, id).Fail? <==> Broken(g, w, selector, id)
    ensures StatusOf(g, w, selector, id).Unavailable? <==> Absent(g, w, selector, id)
  {
    LockMeans(g, w);
    EvidenceMeans(g, w, selector);
    hide LockOf, VersionOf, RepositoryOf, FileOf, EvidenceOf, LabSound, EvidenceSound, VersionSound, RepositorySound,
      EvidenceFits, InputsMatch;
    match id
    case EvidenceDocument =>
    case EvidenceResult =>
    case EvidenceInputs =>
      if LabSound(g, w, selector) && EvidenceSound(g, w) && VersionSound(g, w) {
        FitMeans(g, w, selector);
        SoundKind(g, w);
      }
    case EvidenceSubject =>
  }

  lemma SoundKind(g: Grammar, w: World)
    requires EvidenceSound(g, w)
    ensures EvidenceRead(g, w).kind.Pci? <==> !EvidenceRead(g, w).kind.Platform?
  {
    hide Accepted;
  }

  /** Each status stands for a condition on what the run read; a warning is what is left. */
  lemma StatusMeans(g: Grammar, w: World, selector: Option<Word>, id: CheckId)
    requires !UnknownLab(g, w, selector)
    ensures StatusOf(g, w, selector, id).Pass? <==> Sound(g, w, selector, id)
    ensures StatusOf(g, w, selector, id).Fail? <==> Broken(g, w, selector, id)
    ensures StatusOf(g, w, selector, id).Unavailable? <==> Absent(g, w, selector, id)
  {
    hide StatusOf, Sound, Broken, Absent, UnknownLab;
    if id.EvidenceDocument? || id.EvidenceResult? || id.EvidenceInputs? || id.EvidenceSubject? {
      EvidenceStatusMeans(g, w, selector, id);
    } else if id.LabCatalog? || id.LabSelection? || id.Source? || id.LocalConf? || id.BblayersConf? || id.EvidenceFile? {
      LabStatusMeans(g, w, selector, id);
    } else {
      PlainStatusMeans(g, w, selector, id);
    }
  }

  // ---- The result of a run ----

  /** The checks whose absence does not decide the result. */
  predicate Advisory(id: CheckId)
  {
    id.RepositoryClean? || id.EvidenceSubject?
  }

  /** The result and the exit code, over everything the command looks at: 1 exactly when
      something is broken, 3 exactly when nothing is broken and something required is out
      of reach, and otherwise 0. */
  lemma ResultMeans(g: Grammar, w: World, selector: Option<Word>, command: Command)
    requires !UnknownLab(g, w, selector)
    ensures
      var r, code := ReportOf(g, w, selector, command).result, Aggregate(ReportOf(g, w, selector, command).checks).1;
      && (r.Fail? <==> exists id :: id in Sequence(command) && Broken(g, w, selector, id))
      && (r.Unavailable? <==>
          !r.Fail? && exists id :: id in Sequence(command) && !Advisory(id) && Absent(g, w, selector, id))
      && (r.Pass? <==> forall id :: id in Sequence(command) ==> Sound(g, w, selector, id))
      && code == if r.Fail? then 1 else if r.Unavailable? then 3 else 0
  {
    hide StatusOf, Sound, Broken, Absent, UnknownLab, DataOf, Sequence;
    var ids := Sequence(command);
    var checks := ChecksOf(g, w, selector, ids);
    forall i | 0 <= i < |ids|
      ensures checks[i].status.Fail? <==> Broken(g, w, selector, ids[i])
      ensures checks[i].status.Unavailable? <==> Absent(g, w, selector, ids[i])
      ensures checks[i].status.Pass? <==> Sound(g, w, selector, ids[i])
      ensures checks[i].required <==> !Advisory(ids[i])
    {
      CheckKeeps(g, w, selector, ids[i]);
      StatusMeans(g, w, selector, ids[i]);
    }
    if Aggregate(checks).0.Fail? {
      var i :| 0 <= i < |checks| && checks[i].status.Fail?;
      assert ids[i] in ids;
    }
    if Aggregate(checks).0.Unavailable? {
      var i :| 0 <= i < |checks| && checks[i].required && checks[i].status.Unavailable?;
      assert ids[i] in ids;
    }
    forall id | id in ids && Broken(g, w, selector, id) ensures Aggregate(checks).0.Fail? {
      var i :| 0 <= i < |ids| && ids[i] == id;
      assert checks[i].status.Fail?;
    }
    forall id | id in ids && !Advisory(id) && Absent(g, w, selector, id)
      ensures Aggregate(checks).0.Fail? || Aggregate(checks).0.Unavailable? {
      var i :| 0 <= i < |ids| && ids[i] == id;
      assert checks[i].required && checks[i].status.Unavailable?;
    }
    if Aggregate(checks).0.Pass? {
      forall id | id in ids ensures Sound(g, w, selector, id) {
        var i :| 0 <= i < |ids| && ids[i] == id;
        AllPass(checks, i);
      }
    } else {
      var i :| 0 <= i < |checks| && !checks[i].status.Pass?;
      assert ids[i] in ids;
    }
  }

  /** The evidence is good for this lab and this revision. */
  predicate EvidenceHealthy(g: Grammar, w: World, selector: Option<Word>)
    requires LabSound(g, w, selector) && VersionSound(g, w) && RepositorySound(g, w)
  {
    && EvidencePasses(g, w) && EvidenceRead(g, w).kind.Platform? && EvidenceFits(g, w, selector)
    && EvidenceRead(g, w).revision == w.repository.value.0
  }

  /** What a command needs of its surroundings in order to pass. */
  predicate Healthy(g: Grammar, w: World, selector: Option<Word>, command: Command)
  {
    && VersionSound(g, w) && RepositorySound(g, w) && LabSound(g, w, selector)
    && match command
       case StatusCommand => WorkflowSound(g, w) && !w.repository.value.1
       case Doctor =>
         && WorkflowSound(g, w) && w.ssh.ToolGood?
         && (forall source :: w.checkouts(source).Matches?)
         && w.localConf.Contents? && w.bblayersConf.Contents?
         && EvidenceHealthy(g, w, selector)
       case Inspect => true
       case EvidenceCommand => EvidenceHealthy(g, w, selector)
  }

  lemma BaseIsSound(g: Grammar, w: World, selector: Option<Word>, command: Command)
    ensures (forall id :: id in Sequence(command) ==> Sound(g, w, selector, id)) ==>
              VersionSound(g, w) && RepositorySound(g, w) && LabSound(g, w, selector)
  {
    hide Sequence, VersionSound, RepositorySound, LabSound;
    InEverySequence(command);
    assert Sound(g, w, selector, ProjectVersion) ==> VersionSound(g, w);
    assert Sound(g, w, selector, RepositoryGit) ==> RepositorySound(g, w);
    assert Sound(g, w, selector, LabSelection) ==> LabSound(g, w, selector);
  }

  lemma EvidenceIsSound(g: Grammar, w: World, selector: Option<Word>)
    requires LabSound(g, w, selector) && VersionSound(g, w) && RepositorySound(g, w)
    ensures (forall id :: id in EVIDENCE_CHECKS ==> Sound(g, w, selector, id)) <==> EvidenceHealthy(g, w, selector)
  {
    hide VersionSound, RepositorySound, LabSound, EvidenceFits, Accepted;
    assert EVIDENCE_CHECKS[2] == EvidenceResult && EVIDENCE_CHECKS[3] == EvidenceInputs
           && EVIDENCE_CHECKS[4] == EvidenceSubject;
    if EvidenceHealthy(g, w, selector) {
      forall id | id in EVIDENCE_CHECKS ensures Sound(g, w, selector, id) {
        match id case EvidenceFile => case EvidenceDocument => case EvidenceResult => case EvidenceInputs =>
          case EvidenceSubject =>
      }
    } else {
      assert !Sound(g, w, selector, EvidenceResult) || !Sound(g, w, selector, EvidenceInputs)
             || !Sound(g, w, selector, EvidenceSubject);
    }
  }

  lemma BaseSuffices(g: Grammar, w: World, selector: Option<Word>, id: CheckId)
    requires VersionSound(g, w) && RepositorySound(g, w) && LabSound(g, w, selector)
    requires id in {ProjectVersion, RepositoryGit, SourceLock, LabCatalog, LabSelection, ToolGit}
    ensures Sound(g, w, selector, id)
  {
    hide ValidLock, ValidCatalog;
  }

  lemma StatusIsSound(g: Grammar, w: World, selector: Option<Word>)
    requires VersionSound(g, w) && RepositorySound(g, w) && LabSound(g, w, selector)
    ensures (forall id :: id in Sequence(StatusCommand) ==> Sound(g, w, selector, id)) <==>
              WorkflowSound(g, w) && !w.repository.value.1
  {
    hide VersionSound, LabSound, WorkflowSound, LockSound, CatalogSound;
    var ids := Sequence(StatusCommand);
    assert ids[2] == WorkflowTask && ids[6] == RepositoryClean;
    if WorkflowSound(g, w) && !w.repository.value.1 {
      forall id | id in ids ensures Sound(g, w, selector, id) {
        if id.WorkflowTask? || id.RepositoryClean? {
        } else {
          BaseSuffices(g, w, selector, id);
        }
      }
    } else {
      assert !Sound(g, w, selector, WorkflowTask) || !Sound(g, w, selector, RepositoryClean);
    }
  }

  lemma InspectIsSound(g: Grammar, w: World, selector: Option<Word>)
    requires VersionSound(g, w) && RepositorySound(g, w) && LabSound(g, w, selector)
    ensures forall id :: id in Sequence(Inspect) ==> Sound(g, w, selector, id)
  {
    hide VersionSound, RepositorySound, LabSound, Sound;
    forall id | id in Sequence(Inspect) ensures Sound(g, w, selector, id) {
      BaseSuffices(g, w, selector, id);
    }
  }

  lemma EvidenceRunIsSound(g: Grammar, w: World, selector: Option<Word>)
    requires VersionSound(g, w) && RepositorySound(g, w) && LabSound(g, w, selector)
    ensures (forall id :: id in Sequence(EvidenceCommand) ==> Sound(g, w, selector, id)) <==>
              EvidenceHealthy(g, w, selector)
  {
    hide VersionSound, RepositorySound, LabSound, Sound, EvidenceHealthy;
    EvidenceIsSound(g, w, selector);
    InspectIsSound(g, w, selector);
    assert Sequence(EvidenceCommand) == Sequence(Inspect) + EVIDENCE_CHECKS;
  }

  /** The checks that only the doctor makes. */
  predicate DoctorSees(w: World)
  {
    w.ssh.ToolGood? && (forall source :: w.checkouts(source).Matches?) && w.localConf.Contents? && w.bblayersConf.Contents?
  }

  lemma DoctorIsSound(g: Grammar, w: World, selector: Option<Word>)
    requires VersionSound(g, w) && RepositorySound(g, w) && LabSound(g, w, selector)
    ensures (forall id :: id in Sequence(Doctor) ==> Sound(g, w, selector, id)) <==>
              WorkflowSound(g, w) && DoctorSees(w) && EvidenceHealthy(g, w, selector)
  {
    hide VersionSound, LabSound, Sound, EvidenceHealthy, WorkflowSound;
    var added := [WorkflowTask, ToolSsh, Source(BitBake), Source(OpenEmbeddedCore), Source(MetaYocto), LocalConf, BblayersConf];
    EvidenceIsSound(g, w, selector);
    forall id | id in [ProjectVersion, RepositoryGit, SourceLock, LabCatalog, LabSelection, ToolGit]
      ensures Sound(g, w, selector, id) {
      BaseSuffices(g, w, selector, id);
    }
    DoctorAddsSound(g, w, selector, added);
    assert Sequence(Doctor) ==
      [ProjectVersion, RepositoryGit, WorkflowTask, SourceLock, LabCatalog, LabSelection, ToolGit]
      + added[1..] + EVIDENCE_CHECKS;
    forall id
      ensures id in Sequence(Doctor) <==>
        || id in [ProjectVersion, RepositoryGit, SourceLock, LabCatalog, LabSelection, ToolGit]
        || id in added || id in EVIDENCE_CHECKS {
      assert added == [WorkflowTask] + added[1..];
    }
  }

  lemma DoctorItems(g: Grammar, w: World, selector: Option<Word>)
    requires RepositorySound(g, w) && LabSound(g, w, selector)
    ensures Sound(g, w, selector, WorkflowTask) <==> WorkflowSound(g, w)
    ensures Sound(g, w, selector, ToolSsh) <==> w.ssh.ToolGood?
    ensures forall source :: Sound(g, w, selector, Source(source)) <==> w.checkouts(source).Matches?
    ensures Sound(g, w, selector, LocalConf) <==> w.localConf.Contents?
    ensures Sound(g, w, selector, BblayersConf) <==> w.bblayersConf.Contents?
  {
    hide ValidLock, ValidCatalog, WorkflowSound;
  }

  lemma DoctorAddsSound(g: Grammar, w: World, selector: Option<Word>, added: seq<CheckId>)
    requires added ==
      [WorkflowTask, ToolSsh, Source(BitBake), Source(OpenEmbeddedCore), Source(MetaYocto), LocalConf, BblayersConf]
    requires RepositorySound(g, w) && LabSound(g, w, selector)
    ensures (forall id :: id in added ==> Sound(g, w, selector, id)) <==> WorkflowSound(g, w) && DoctorSees(w)
  {
    hide *;
    if forall id :: id in added ==> Sound(g, w, selector, id) {
      DoctorFound(g, w, selector, added);
    }
    if WorkflowSound(g, w) && DoctorSees(w) {
      forall id | id in added ensures Sound(g, w, selector, id) {
        DoctorFinds(g, w, selector, id);
      }
    }
  }

  lemma DoctorFound(g: Grammar, w: World, selector: Option<Word>, added: seq<CheckId>)
    requires added ==
      [WorkflowTask, ToolSsh, Source(BitBake), Source(OpenEmbeddedCore), Source(MetaYocto), LocalConf, BblayersConf]
    requires RepositorySound(g, w) && LabSound(g, w, selector)
    requires forall id :: id in added ==> Sound(g, w, selector, id)
    ensures WorkflowSound(g, w) && DoctorSees(w)
  {
    DoctorItems(g, w, selector);
    hide Sound, RepositorySound, LabSound, WorkflowSound;
    assert added[0] in added && added[1] in added && added[5] in added && added[6] in added;
    forall source ensures w.checkouts(source).Matches? {
      assert added[2] in added && added[3] in added && added[4] in added;
      match source case BitBake => case OpenEmbeddedCore => case MetaYocto =>
    }
  }

  lemma DoctorFinds(g: Grammar, w: World, selector: Option<Word>, id: CheckId)
    requires id.WorkflowTask? || id.ToolSsh? || id.Source? || id.LocalConf? || id.BblayersConf?
    requires RepositorySound(g, w) && LabSound(g, w, selector) && WorkflowSound(g, w) && DoctorSees(w)
    ensures Sound(g, w, selector, id)
  {
    DoctorItems(g, w, selector);
    hide Sound, RepositorySound, LabSound, WorkflowSound;
    match id case WorkflowTask => case ToolSsh => case Source(_) => case LocalConf => case BblayersConf =>
  }

  /** A run passes exactly when all that its command looks at is healthy. */
  lemma PassingMeans(g: Grammar, w: World, selector: Option<Word>, command: Command)
    requires !UnknownLab(g, w, selector)
    ensures ReportOf(g, w, selector, command).result.Pass? <==> Healthy(g, w, selector, command)
  {
    hide ReportOf, Aggregate, Sound, Sequence, UnknownLab, VersionSound, RepositorySound, LabSound, WorkflowSound, EvidenceHealthy;
    ResultMeans(g, w, selector, command);
    BaseIsSound(g, w, selector, command);
    if VersionSound(g, w) && RepositorySound(g, w) && LabSound(g, w, selector) {
      match command
      case StatusCommand => StatusIsSound(g, w, selector);
      case Doctor => DoctorIsSound(g, w, selector);
      case Inspect => InspectIsSound(g, w, selector);
      case EvidenceCommand => EvidenceRunIsSound(g, w, selector);
    }
  }

  // ---- The data of a document ----

  predicate TellsLock(p: LockProjection, lock: Lock)
  {
    p.digest == lock.digest && p.version == lock.version && p.series == lock.series
  }

  predicate TellsLab(p: LabProjection, m: Manifest)
  {
    && p.buildDirectory == m.buildDirectory && p.machine == m.machine && p.image == m.image
    && p.driver == m.driver && p.evidenceProfile == m.evidenceProfile
  }

  predicate TellsEvidence(e: EvidenceProjection, file: File)
  {
    && e.file == file.digest && file.document.Some?
    && var d := file.document.value;
       && e.kind == d.kind && e.version == d.version && e.projectVersion == d.projectVersion
       && e.revision == d.revision && e.dirty == d.dirty && e.machine == d.machine && e.image == d.image
       && e.exitCode == d.exitCode && e.passes == d.passes && e.summary == d.summary
       && e.oeqaResult == d.oeqaResult && e.sourceLock == d.sourceLock
  }

  predicate TellsBuild(b: Build, m: Manifest)
  {
    && b.buildDirectory == m.buildDirectory && b.machine == m.machine && b.image == m.image
    && b.driver == m.driver && b.layers == m.layers
  }

  predicate TellsRuntime(r: Runtime, m: Manifest)
  {
    && r.suite == m.suite && r.evidenceProfile == m.evidenceProfile
    && r.guestContract == m.guestContract && r.evidenceSchema == m.evidenceSchema
  }

  /** The identity fields are what was read, and there exactly when it was sound. */
  lemma IdentityMeans(g: Grammar, w: World, selector: Option<Word>, command: Command)
    ensures
      var r := ReportOf(g, w, selector, command);
      && r.command == command
      && r.version == (if VersionSound(g, w) then Some(w.versionFile.value) else None)
      && r.revision == (if RepositorySound(g, w) then Some(w.repository.value.0) else None)
      && r.dirty == (if RepositorySound(g, w) then Some(w.repository.value.1) else None)
      && r.indexDigest == (if CatalogSound(g, w) then Some(w.manifests.value.value.indexDigest) else None)
      && (selector.Some? ==> r.labId == selector)
      && (LabSound(g, w, selector) ==> r.labId == Some(Chosen(w, selector)))
      && (LabSound(g, w, selector) && Chosen(w, selector) in w.manifests.value.value.digests ==>
            r.manifestDigest == Some(w.manifests.value.value.digests[Chosen(w, selector)]))
  {
    LockMeans(g, w);
    CatalogMeans(g, w);
    LabMeans(g, w, selector);
    hide LockOf, VersionOf, RepositoryOf, CatalogOf, ManifestOf, ManifestDigestOf, VersionSound, RepositorySound, LockSound,
      IndexSound, ManifestsSound, DataOf, ChecksOf, Aggregate;
  }

  /** The evidence is shown exactly when it is sound and names the chosen lab's image and
      this version. */
  predicate EvidenceShown(g: Grammar, w: World, selector: Option<Word>)
  {
    && LabSound(g, w, selector) && EvidenceSound(g, w) && VersionSound(g, w)
    && EvidenceRead(g, w).projectVersion == w.versionFile.value
    && EvidenceRead(g, w).machine == ChosenManifest(g, w, selector).machine
    && EvidenceRead(g, w).image == ChosenManifest(g, w, selector).image
  }

  lemma ShownMeans(g: Grammar, w: World, selector: Option<Word>)
    ensures
      var e := ProjectionOf(g, w, selector);
      && (e.Some? <==> EvidenceShown(g, w, selector))
      && (e.Some? ==> TellsEvidence(e.value, w.evidence.value))
  {
    LockMeans(g, w);
    LabMeans(g, w, selector);
    EvidenceMeans(g, w, selector);
    hide VersionOf, ManifestOf, EvidenceOf, Accepted, LabSound, VersionSound;
  }

  /** The status data: the task in progress, the lock and the chosen lab. */
  lemma StatusDataMeans(g: Grammar, w: World, selector: Option<Word>)
    ensures
      var d := ReportOf(g, w, selector, StatusCommand).data;
      && d.StatusData?
      && d.task == (if WorkflowSound(g, w) then w.workflow.value else None)
      && (d.sourceLock.Some? <==> LockSound(g, w))
      && (d.sourceLock.Some? ==> TellsLock(d.sourceLock.value, w.lock.value))
      && (d.selectedLab.Some? <==> LabSound(g, w, selector))
      && (d.selectedLab.Some? ==> TellsLab(d.selectedLab.value, ChosenManifest(g, w, selector)))
  {
    LockMeans(g, w);
    LabMeans(g, w, selector);
    hide LockOf, VersionOf, RepositoryOf, CatalogOf, ManifestOf, ManifestDigestOf, LabIdOf, LockSound, LabSound, ChecksOf,
      Aggregate;
  }

  lemma DoctorDataMeans(g: Grammar, w: World, selector: Option<Word>)
    ensures
      var d := ReportOf(g, w, selector, Doctor).data;
      && d.DoctorData?
      && d.task == (if WorkflowSound(g, w) then w.workflow.value else None)
      && (d.evidence.Some? <==> EvidenceShown(g, w, selector))
      && (d.evidence.Some? ==> TellsEvidence(d.evidence.value, w.evidence.value))
  {
    DoctorDataIs(g, w, selector);
    ShownMeans(g, w, selector);
    hide ReportOf, ProjectionOf, EvidenceShown;
  }

  /** The inspected data: every part of the lock and the chosen manifest, or nothing. */
  lemma InspectDataMeans(g: Grammar, w: World, selector: Option<Word>)
    ensures
      var d := ReportOf(g, w, selector, Inspect).data;
      var available := VersionSound(g, w) && LabSound(g, w, selector);
      && d.InspectData?
      && (available ==>
            var m, lock := ChosenManifest(g, w, selector), w.lock.value;
            && d.release.Some? && d.release.value.projectVersion == w.versionFile.value
            && d.release.value.version == lock.version && d.release.value.series == lock.series
            && d.sources == Some(lock.sources) && d.lockDigest == Some(lock.digest)
            && d.build.Some? && TellsBuild(d.build.value, m)
            && d.emulator.Some? && d.emulator.value.profile == m.profile && d.emulator.value.systemBinary == m.systemBinary
            && d.runtime.Some? && TellsRuntime(d.runtime.value, m))
      && (!available ==> d == InspectData(None, None, None, None, None, None))
  {
    LockMeans(g, w);
    LabMeans(g, w, selector);
    hide LockOf, VersionOf, RepositoryOf, CatalogOf, ManifestOf, ManifestDigestOf, LabIdOf, ValidLock, IndexSound, ManifestsSound,
      ChecksOf, Aggregate, VersionSound;
  }

  lemma EvidenceDataMeans(g: Grammar, w: World, selector: Option<Word>)
    ensures
      var d := ReportOf(g, w, selector, EvidenceCommand).data;
      && d.EvidenceData?
      && (d.evidence.Some? <==> EvidenceShown(g, w, selector))
      && (d.evidence.Some? ==> TellsEvidence(d.evidence.value, w.evidence.value))
      && (d.inputs.Some? <==> LabSound(g, w, selector) && EvidenceSound(g, w))
      && (d.inputs.Some? ==>
            && (d.inputs.value.binding.Bound? <==> EvidenceRead(g, w).kind.Platform?)
            && d.inputs.value.labIndex == EvidenceRead(g, w).labIndex
            && d.inputs.value.labManifest == EvidenceRead(g, w).labManifest)
      && (d.subjectMatches.Some? <==> LabSound(g, w, selector) && EvidencePasses(g, w) && RepositorySound(g, w))
      && (d.subjectMatches.Some? ==> d.subjectMatches.value == (EvidenceRead(g, w).revision == w.repository.value.0))
  {
    EvidenceDataIs(g, w, selector);
    ShownMeans(g, w, selector);
    EvidenceMeans(g, w, selector);
    LockMeans(g, w);
    hide ReportOf, ProjectionOf, EvidenceShown, EvidenceOf, LabSound, RepositoryOf, EvidenceSound;
  }
}
