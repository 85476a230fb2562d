// Every document a run can produce is accepted by the independent validator, with the one
// exception of too many layers in an inspected manifest (diagnostics.py).

module DiagnosticsTheorem {
  import opened Wrappers
  import opened RuntimeEvidence
  import opened DiagnosticsContract
  import opened DiagnosticsWorld

  /** A run whose selector passed the constructor and whose lab, if any, is known. */
  ghost predicate Proper(g: Grammar, w: World, selector: Option<Word>)
  {
    Hashed(g, w) && (selector.Some? ==> g.labId(selector.value)) && !UnknownLab(g, w, selector)
  }

  lemma {:induction false} StatusAtChecks(g: Grammar, w: World, selector: Option<Word>, ids: seq<CheckId>, id: CheckId)
    ensures StatusAt(ChecksOf(g, w, selector, ids), id) == if id in ids then Some(StatusOf(g, w, selector, id)) else None
    decreases |ids|
  {
    hide StatusOf;
    if ids != [] {
      var n := |ids| - 1;
      assert ChecksOf(g, w, selector, ids)[..n] == ChecksOf(g, w, selector, ids[..n]);
      StatusAtChecks(g, w, selector, ids[..n], id);
      CheckKeeps(g, w, selector, ids[n]);
      assert id in ids <==> id in ids[..n] || id == ids[n];
    }
  }

  lemma CheckKeeps(g: Grammar, w: World, selector: Option<Word>, id: CheckId)
    ensures CheckOf(g, w, selector, id).id == id
    ensures CheckOf(g, w, selector, id).status == StatusOf(g, w, selector, id)
    ensures MakeCheck(id, StatusOf(g, w, selector, id)) == Some(CheckOf(g, w, selector, id))
  {
    hide StatusOf;
    StatusHasCheck(g, w, selector, id);
  }

  lemma ChecksAreValid(g: Grammar, w: World, selector: Option<Word>, command: Command)
    ensures ChecksValid(command, ChecksOf(g, w, selector, Sequence(command)))
  {
    hide StatusOf, Sequence;
    var ids := Sequence(command);
    forall i | 0 <= i < |ids|
      ensures ChecksOf(g, w, selector, ids)[i].id == ids[i]
      ensures MakeCheck(ids[i], ChecksOf(g, w, selector, ids)[i].status) == Some(ChecksOf(g, w, selector, ids)[i]) {
      CheckKeeps(g, w, selector, ids[i]);
    }
  }

  // ---- Transitions ----

  lemma SelectionMeans(g: Grammar, w: World, selector: Option<Word>)
    requires Proper(g, w, selector)
    ensures ManifestOf(g, w, selector).Some? <==> CatalogOf(g, w).Some?
    ensures ManifestOf(g, w, selector).Some? <==> ManifestDigestOf(g, w, selector).Some?
    ensures ManifestOf(g, w, selector).Some? ==> ValidManifest(g, ManifestOf(g, w, selector).value)
    ensures ManifestOf(g, w, selector).Some? ==> g.sha256(ManifestDigestOf(g, w, selector).value)
    ensures LabIdOf(g, w, selector).Some? ==> g.labId(LabIdOf(g, w, selector).value)
    ensures ManifestOf(g, w, selector).Some? ==> LabIdOf(g, w, selector).Some?
  {
    hide ValidManifest;
  }

  lemma UpstreamBlocks(g: Grammar, w: World, selector: Option<Word>, id: CheckId, u: CheckId)
    requires Proper(g, w, selector)
    requires u in Upstreams(id) && !Usable(StatusOf(g, w, selector, u))
    ensures StatusOf(g, w, selector, id) == Unavailable
  {
    hide ValidManifest, ValidCatalog, ValidLock, Accepted, SafeDocument, InputsMatch, UnknownLab;
    match id
    case EvidenceInputs => InputsBlocked(g, w, selector, u);
    case EvidenceSubject => SubjectBlocked(g, w, selector, u);
    case EvidenceDocument => FileBlocked(g, w, selector, u);
    case LocalConf => UnselectedMeansNoManifest(g, w, selector);
    case BblayersConf => UnselectedMeansNoManifest(g, w, selector);
    case EvidenceFile => UnselectedMeansNoManifest(g, w, selector);
    case _ =>
  }

  lemma UnselectedMeansNoManifest(g: Grammar, w: World, selector: Option<Word>)
    ensures StatusOf(g, w, selector, LabSelection).Unavailable? ==> ManifestOf(g, w, selector).None?
    ensures Usable(StatusOf(g, w, selector, LabSelection)) || StatusOf(g, w, selector, LabSelection).Unavailable?
  {
  }

  lemma FileBlocked(g: Grammar, w: World, selector: Option<Word>, u: CheckId)
    requires u in Upstreams(EvidenceDocument) && !Usable(StatusOf(g, w, selector, u))
    ensures StatusOf(g, w, selector, EvidenceDocument).Unavailable?
  {
    hide EvidenceOf;
    UnselectedMeansNoManifest(g, w, selector);
    assert u == EvidenceFile || u == LabSelection;
  }

  lemma InputsBlocked(g: Grammar, w: World, selector: Option<Word>, u: CheckId)
    requires u in Upstreams(EvidenceInputs) && !Usable(StatusOf(g, w, selector, u))
    ensures StatusOf(g, w, selector, EvidenceInputs).Unavailable?
  {
    hide InputsMatch, SafeDocument;
    assert u == ProjectVersion || u == EvidenceDocument || u == SourceLock || u == LabSelection;
  }

  lemma SubjectBlocked(g: Grammar, w: World, selector: Option<Word>, u: CheckId)
    requires u in Upstreams(EvidenceSubject) && !Usable(StatusOf(g, w, selector, u))
    ensures StatusOf(g, w, selector, EvidenceSubject).Unavailable?
  {
    hide SafeDocument;
    assert u == EvidenceDocument || u == EvidenceResult || u == RepositoryGit;
  }

  lemma DerivedAllows(g: Grammar, w: World, selector: Option<Word>, id: CheckId)
    requires Proper(g, w, selector) && Derived(id).Some?
    requires forall u :: u in Derived(id).value.0 ==> StatusOf(g, w, selector, u) == Pass
    ensures StatusOf(g, w, selector, id) in Derived(id).value.1
  {
    hide ValidManifest, ValidCatalog, ValidLock, Accepted, SafeDocument, InputsMatch;
    var upstream := Derived(id).value.0;
    assert upstream[0] in upstream;
    match id
    case EvidenceInputs =>
      assert upstream[1] in upstream;
      DerivedInputs(g, w, selector);
    case EvidenceSubject =>
      assert upstream[1] in upstream && upstream[2] in upstream;
      DerivedSubject(g, w, selector);
    case LabSelection =>
    case RepositoryClean =>
    case EvidenceDocument => SelectionMeans(g, w, selector);
    case EvidenceResult =>
  }

  lemma DerivedInputs(g: Grammar, w: World, selector: Option<Word>)
    requires StatusOf(g, w, selector, ProjectVersion).Pass? && StatusOf(g, w, selector, EvidenceDocument).Pass?
    ensures !StatusOf(g, w, selector, EvidenceInputs).Unavailable?
  {
    hide FileOf, InputsMatch, EvidenceOf;
  }

  lemma DerivedSubject(g: Grammar, w: World, selector: Option<Word>)
    requires StatusOf(g, w, selector, EvidenceDocument).Pass? && StatusOf(g, w, selector, EvidenceResult).Pass?
    requires StatusOf(g, w, selector, RepositoryGit).Pass?
    ensures StatusOf(g, w, selector, EvidenceSubject).Pass? || StatusOf(g, w, selector, EvidenceSubject).Warning?
  {
    hide FileOf, EvidenceOf;
  }

  lemma TransitionsAreValid(g: Grammar, w: World, selector: Option<Word>, ids: seq<CheckId>)
    requires Proper(g, w, selector)
    ensures TransitionsValid(ChecksOf(g, w, selector, ids))
  {
    hide StatusOf;
    var checks := ChecksOf(g, w, selector, ids);
    forall u: CheckId
      ensures StatusAt(checks, u) == if u in ids then Some(StatusOf(g, w, selector, u)) else None {
      StatusAtChecks(g, w, selector, ids, u);
    }
    forall i, u | 0 <= i < |checks| && u in Upstreams(checks[i].id)
                  && StatusAt(checks, u).Some? && !Usable(StatusAt(checks, u).value)
      ensures checks[i].status.Unavailable? {
      CheckKeeps(g, w, selector, ids[i]);
      UpstreamBlocks(g, w, selector, ids[i], u);
    }
    forall i | 0 <= i < |checks| && Derived(checks[i].id).Some?
               && forall u :: u in Derived(checks[i].id).value.0 ==> StatusAt(checks, u) == Some(Pass)
      ensures checks[i].status in Derived(checks[i].id).value.1 {
      CheckKeeps(g, w, selector, ids[i]);
      DerivedAllows(g, w, selector, ids[i]);
    }
    GitAgrees(g, w, selector);
  }

  lemma GitAgrees(g: Grammar, w: World, selector: Option<Word>)
    ensures GitStatesAgree(StatusOf(g, w, selector, RepositoryGit), StatusOf(g, w, selector, ToolGit))
  {
  }

  // ---- The other rules ----

  lemma StatusInReport(g: Grammar, w: World, selector: Option<Word>, command: Command, id: CheckId)
    ensures
      StatusAt(ReportOf(g, w, selector, command).checks, id) ==
      if id in Sequence(command) then Some(StatusOf(g, w, selector, id)) else None
  {
    hide StatusOf, DataOf, Sequence;
    StatusAtChecks(g, w, selector, Sequence(command), id);
  }

  lemma InEverySequence(command: Command)
    ensures ProjectVersion in Sequence(command) && RepositoryGit in Sequence(command)
    ensures SourceLock in Sequence(command) && LabCatalog in Sequence(command) && LabSelection in Sequence(command)
  {
    var s := Sequence(command);
    assert s[0] == ProjectVersion && s[1] == RepositoryGit;
    match command
    case StatusCommand => assert s[3] == SourceLock && s[4] == LabCatalog && s[5] == LabSelection;
    case Doctor => assert s[3] == SourceLock && s[4] == LabCatalog && s[5] == LabSelection;
    case Inspect => assert s[2] == SourceLock && s[3] == LabCatalog && s[4] == LabSelection;
    case EvidenceCommand => assert s[2] == SourceLock && s[3] == LabCatalog && s[4] == LabSelection;
  }

  lemma IdentityIsValid(g: Grammar, w: World, selector: Option<Word>, command: Command)
    requires Proper(g, w, selector)
    ensures IdentityValid(g, ReportOf(g, w, selector, command))
  {
    hide Sequence, DataOf, StatusAt, ChecksOf, ValidManifest, ValidCatalog, ValidLock, Aggregate;
    InEverySequence(command);
    StatusInReport(g, w, selector, command, ProjectVersion);
    StatusInReport(g, w, selector, command, RepositoryGit);
    StatusInReport(g, w, selector, command, LabCatalog);
    StatusInReport(g, w, selector, command, LabSelection);
    SelectionMeans(g, w, selector);
    CatalogPasses(g, w, selector);
  }

  lemma CatalogPasses(g: Grammar, w: World, selector: Option<Word>)
    ensures StatusOf(g, w, selector, LabCatalog).Pass? <==> CatalogOf(g, w).Some?
    ensures StatusOf(g, w, selector, SourceLock).Pass? <==> LockOf(g, w).Some?
    ensures StatusOf(g, w, selector, LabSelection).Pass? <==> CatalogOf(g, w).Some?
    ensures StatusOf(g, w, selector, ProjectVersion).Pass? <==> VersionOf(g, w).Some?
    ensures StatusOf(g, w, selector, EvidenceDocument).Pass? <==> EvidenceOf(g, w, selector).Some?
  {
    hide ValidCatalog, ValidLock, SafeDocument;
  }

  /** What is projected of the evidence is well formed, because it equals the manifest's. */
  lemma ProjectionIsValid(g: Grammar, w: World, selector: Option<Word>)
    requires Proper(g, w, selector)
    ensures ProjectionOf(g, w, selector).Some? ==> ValidEvidenceProjection(g, ProjectionOf(g, w, selector).value)
  {
    SelectionMeans(g, w, selector);
    hide ValidCatalog, ValidLock, PathsMatch, CatalogOf, UnknownLab, Tally;
    var d := EvidenceOf(g, w, selector);
    if ProjectionOf(g, w, selector).Some? {
      TalliesAddUp(d.value.tests);
    }
  }

  /** The manifest has more layers than a document may list. */
  predicate TooManyLayers(g: Grammar, w: World, selector: Option<Word>)
  {
    && VersionOf(g, w).Some? && LockOf(g, w).Some?
    && ManifestOf(g, w, selector).Some? && |ManifestOf(g, w, selector).value.layers| > MAX_LAYERS
  }

  lemma DataIsValid(g: Grammar, w: World, selector: Option<Word>, command: Command)
    requires Proper(g, w, selector)
    ensures ValidData(g, command, DataOf(g, w, selector, command)) <==> !(command.Inspect? && TooManyLayers(g, w, selector))
  {
    hide ValidCatalog, CatalogOf, UnknownLab, LabIdOf, ManifestOf, ManifestDigestOf, EvidenceOf, ProjectionOf, SubjectOf,
      ValidEvidenceProjection, ValidSources;
    SelectionMeans(g, w, selector);
    match command
    case StatusCommand =>
    case Doctor => ProjectionIsValid(g, w, selector);
    case Inspect =>
    case EvidenceCommand =>
      ProjectionIsValid(g, w, selector);
      InputsAreValid(g, w, selector);
  }

  lemma InputsAreValid(g: Grammar, w: World, selector: Option<Word>)
    ensures EvidenceOf(g, w, selector).Some? ==>
              ValidInputs(g, InputsOf(EvidenceOf(g, w, selector).value))
  {
    hide FileOf, PathsMatch, Tallies;
  }

  /** The report's own fields. */
  lemma ReportFields(g: Grammar, w: World, selector: Option<Word>, command: Command)
    ensures
      var r := ReportOf(g, w, selector, command);
      && r.data == DataOf(g, w, selector, command)
      && r.version == VersionOf(g, w)
      && r.dirty == (if RepositoryOf(g, w).Some? then Some(RepositoryOf(g, w).value.1) else None)
      && r.revision == (if RepositoryOf(g, w).Some? then Some(RepositoryOf(g, w).value.0) else None)
      && r.indexDigest == (if CatalogOf(g, w).Some? then Some(CatalogOf(g, w).value.indexDigest) else None)
      && r.manifestDigest == ManifestDigestOf(g, w, selector)
  {
    hide DataOf, ChecksOf, Aggregate, CatalogOf, ManifestDigestOf, RepositoryOf, VersionOf, LabIdOf;
  }

  lemma StatusReportIs(g: Grammar, w: World, selector: Option<Word>)
    ensures
      var r := ReportOf(g, w, selector, StatusCommand);
      && r.data.StatusData? && r.data.task == TaskOf(g, w)
      && (r.data.sourceLock.Some? <==> LockOf(g, w).Some?)
      && (r.data.selectedLab.Some? <==> ManifestOf(g, w, selector).Some?)
      && r.dirty == (if RepositoryOf(g, w).Some? then Some(RepositoryOf(g, w).value.1) else None)
  {
    hide LockOf, ManifestOf, TaskOf, RepositoryOf, CatalogOf, VersionOf, LabIdOf, ManifestDigestOf, ChecksOf, Aggregate;
  }

  lemma StatusRulesHold(g: Grammar, w: World, selector: Option<Word>, command: Command)
    requires Proper(g, w, selector)
    ensures StatusRules(ReportOf(g, w, selector, command))
  {
    if command.StatusCommand? {
      hide ReportOf, StatusAt, ManifestOf, StatusOf, LockOf, TaskOf, RepositoryOf;
      StatusReportIs(g, w, selector);
      StatusStatuses(g, w, selector);
      CleanMeans(g, w, selector);
      WorkflowMeans(g, w, selector);
    } else {
      assert !ReportOf(g, w, selector, command).data.StatusData?;
    }
  }

  lemma StatusStatuses(g: Grammar, w: World, selector: Option<Word>)
    requires Proper(g, w, selector)
    ensures
      var r := ReportOf(g, w, selector, StatusCommand);
      && (Succeeded(r, WorkflowTask) <==> StatusOf(g, w, selector, WorkflowTask).Pass?)
      && (Succeeded(r, SourceLock) <==> LockOf(g, w).Some?)
      && (Succeeded(r, LabSelection) <==> ManifestOf(g, w, selector).Some?)
      && StatusAt(r.checks, RepositoryClean) == Some(StatusOf(g, w, selector, RepositoryClean))
  {
    hide ReportOf, StatusAt, ManifestOf, StatusOf, LockOf, VersionOf, CatalogOf, EvidenceOf, UnknownLab, ValidManifest,
      ManifestDigestOf, LabIdOf;
    var ids := Sequence(StatusCommand);
    assert ids[2] == WorkflowTask && ids[3] == SourceLock && ids[5] == LabSelection && ids[6] == RepositoryClean;
    StatusInReport(g, w, selector, StatusCommand, WorkflowTask);
    StatusInReport(g, w, selector, StatusCommand, SourceLock);
    StatusInReport(g, w, selector, StatusCommand, LabSelection);
    StatusInReport(g, w, selector, StatusCommand, RepositoryClean);
    SelectionMeans(g, w, selector);
    CatalogPasses(g, w, selector);
  }

  lemma CleanMeans(g: Grammar, w: World, selector: Option<Word>)
    ensures
      var clean, repository := StatusOf(g, w, selector, RepositoryClean), RepositoryOf(g, w);
      match clean
      case Pass => repository.Some? && !repository.value.1
      case Warning => repository.Some? && repository.value.1
      case Unavailable => repository.None?
      case Fail => false
  {
    hide RepositoryOf;
  }

  lemma WorkflowMeans(g: Grammar, w: World, selector: Option<Word>)
    ensures TaskOf(g, w).Some? ==> StatusOf(g, w, selector, WorkflowTask).Pass?
  {
  }

  /** The inspected data is all there or all absent. */
  lemma InspectDataIs(g: Grammar, w: World, selector: Option<Word>)
    ensures
      var d := ReportOf(g, w, selector, Inspect).data;
      var available := VersionOf(g, w).Some? && LockOf(g, w).Some? && ManifestOf(g, w, selector).Some?;
      && d.InspectData?
      && (d.release.Some? <==> available) && (d.sources.Some? <==> available) && (d.build.Some? <==> available)
      && (d.emulator.Some? <==> available) && (d.runtime.Some? <==> available) && (d.lockDigest.Some? <==> available)
      && (available ==> Some(d.release.value.projectVersion) == VersionOf(g, w))
  {
    hide LockOf, ManifestOf, VersionOf, ChecksOf, Aggregate, RepositoryOf, CatalogOf, ManifestDigestOf, LabIdOf;
  }

  lemma InspectRulesHold(g: Grammar, w: World, selector: Option<Word>, command: Command)
    requires Proper(g, w, selector)
    ensures InspectRules(ReportOf(g, w, selector, command))
  {
    if command.Inspect? {
      InspectDataIs(g, w, selector);
      InspectStatuses(g, w, selector);
      assert ReportOf(g, w, selector, command).version == VersionOf(g, w) by { ReportFields(g, w, selector, command); }
      hide ReportOf, StatusAt, ManifestOf, LockOf, VersionOf;
    } else {
      assert !DataOf(g, w, selector, command).InspectData?;
    }
  }

  lemma InspectStatuses(g: Grammar, w: World, selector: Option<Word>)
    requires Proper(g, w, selector)
    ensures
      var r := ReportOf(g, w, selector, Inspect);
      (VersionOf(g, w).Some? && LockOf(g, w).Some? && ManifestOf(g, w, selector).Some?) <==>
      (Succeeded(r, ProjectVersion) && Succeeded(r, SourceLock) && Succeeded(r, LabCatalog) && Succeeded(r, LabSelection))
  {
    InEverySequence(Inspect);
    StatusInReport(g, w, selector, Inspect, ProjectVersion);
    StatusInReport(g, w, selector, Inspect, SourceLock);
    StatusInReport(g, w, selector, Inspect, LabCatalog);
    StatusInReport(g, w, selector, Inspect, LabSelection);
    SelectionMeans(g, w, selector);
    CatalogPasses(g, w, selector);
    hide ReportOf, StatusAt, CatalogOf, UnknownLab, ManifestOf, StatusOf, LockOf, VersionOf, Sequence, ValidManifest,
      EvidenceOf, ManifestDigestOf, LabIdOf, RepositoryOf;
  }

  /** The projection, when there is one, agrees with every check about the evidence. */
  lemma ProjectionFacts(g: Grammar, w: World, selector: Option<Word>)
    ensures
      var e := ProjectionOf(g, w, selector);
      && (e.Some? ==> EvidenceOf(g, w, selector).Some? && Some(e.value.projectVersion) == VersionOf(g, w))
      && (Usable(InputsStatus(g, w, selector)) ==> e.Some?)
      && (e.Some? ==>
            ResultStatus(g, w, selector) == if e.value.passes && !e.value.dirty then Pass else Fail)
      && (e.Some? && InputsStatus(g, w, selector).Pass? ==> e.value.kind.Platform?)
      && (e.Some? && InputsStatus(g, w, selector).Warning? ==> e.value.kind.Pci?)
      && (e.Some? && SubjectOf(g, w, selector).Some? ==>
            RepositoryOf(g, w).Some? && SubjectOf(g, w, selector).value == (e.value.revision == RepositoryOf(g, w).value.0))
  {
    hide FileOf, VersionOf, ManifestOf, LockOf, CatalogOf, ManifestDigestOf, LabIdOf, RepositoryOf, Accepted;
  }

  lemma EvidenceStatusOf(g: Grammar, w: World, selector: Option<Word>)
    ensures StatusOf(g, w, selector, EvidenceInputs) == InputsStatus(g, w, selector)
    ensures StatusOf(g, w, selector, EvidenceResult) == ResultStatus(g, w, selector)
    ensures StatusOf(g, w, selector, EvidenceSubject) == SubjectStatus(SubjectOf(g, w, selector))
  {
    hide InputsStatus, ResultStatus, SubjectOf, ManifestOf;
  }

  lemma EvidenceIsLast(command: Command)
    requires command.Doctor? || command.EvidenceCommand?
    ensures EvidenceDocument in Sequence(command) && EvidenceResult in Sequence(command)
    ensures EvidenceInputs in Sequence(command) && EvidenceSubject in Sequence(command)
  {
    var ids := Sequence(command);
    var n := |ids| - 5;
    assert ids[n + 1] == EvidenceDocument && ids[n + 2] == EvidenceResult;
    assert ids[n + 3] == EvidenceInputs && ids[n + 4] == EvidenceSubject;
  }

  /** The statuses of the evidence checks in a report that has them. */
  lemma EvidenceStatuses(g: Grammar, w: World, selector: Option<Word>, command: Command)
    requires command.Doctor? || command.EvidenceCommand?
    ensures
      var r := ReportOf(g, w, selector, command);
      && StatusAt(r.checks, EvidenceInputs) == Some(InputsStatus(g, w, selector))
      && StatusAt(r.checks, EvidenceResult) == Some(ResultStatus(g, w, selector))
      && StatusAt(r.checks, EvidenceSubject) == Some(SubjectStatus(SubjectOf(g, w, selector)))
      && (Succeeded(r, EvidenceDocument) <==> EvidenceOf(g, w, selector).Some?)
  {
    hide ReportOf, StatusAt, EvidenceOf, SubjectOf, InputsStatus, ResultStatus, CatalogOf, LockOf, VersionOf, StatusOf, Sequence,
      SubjectStatus;
    EvidenceIsLast(command);
    EvidenceStatusOf(g, w, selector);
    StatusInReport(g, w, selector, command, EvidenceInputs);
    StatusInReport(g, w, selector, command, EvidenceResult);
    StatusInReport(g, w, selector, command, EvidenceSubject);
    StatusInReport(g, w, selector, command, EvidenceDocument);
    CatalogPasses(g, w, selector);
  }

  /** The rules from the facts, with the run left out. */
  lemma RulesFromFacts(
    r: Report, e: Option<EvidenceProjection>, documented: bool, inputs: Status, result: Status, subject: Option<bool>)
    requires StatusAt(r.checks, EvidenceInputs) == Some(inputs)
    requires StatusAt(r.checks, EvidenceResult) == Some(result)
    requires StatusAt(r.checks, EvidenceSubject) == Some(SubjectStatus(subject))
    requires Succeeded(r, EvidenceDocument) <==> documented
    requires Usable(inputs) ==> e.Some?
    requires e.Some? ==>
      && documented && Some(e.value.projectVersion) == r.version
      && result == (if e.value.passes && !e.value.dirty then Pass else Fail)
      && (inputs.Pass? ==> e.value.kind.Platform?) && (inputs.Warning? ==> e.value.kind.Pci?)
      && (subject.Some? ==> r.revision.Some? && subject.value == (e.value.revision == r.revision.value))
    ensures EvidenceRules(r, e)
  {
    hide StatusAt;
  }

  lemma EvidenceRulesHold(g: Grammar, w: World, selector: Option<Word>, command: Command)
    requires command.Doctor? || command.EvidenceCommand?
    ensures EvidenceRules(ReportOf(g, w, selector, command), ProjectionOf(g, w, selector))
  {
    hide ReportOf, StatusAt, ProjectionOf, EvidenceOf, SubjectOf, InputsStatus, ResultStatus, VersionOf, DataOf,
      RepositoryOf, CatalogOf, ManifestDigestOf, EvidenceRules, SubjectStatus;
    ReportFields(g, w, selector, command);
    EvidenceStatuses(g, w, selector, command);
    ProjectionFacts(g, w, selector);
    RulesFromFacts(
      ReportOf(g, w, selector, command), ProjectionOf(g, w, selector), EvidenceOf(g, w, selector).Some?,
      InputsStatus(g, w, selector), ResultStatus(g, w, selector), SubjectOf(g, w, selector));
  }

  lemma DoctorTaskIsValid(g: Grammar, w: World, selector: Option<Word>)
    ensures TaskValid(ReportOf(g, w, selector, Doctor), TaskOf(g, w))
  {
    assert Sequence(Doctor)[2] == WorkflowTask;
    StatusInReport(g, w, selector, Doctor, WorkflowTask);
    WorkflowMeans(g, w, selector);
    hide ReportOf, StatusAt, StatusOf, TaskOf;
  }

  /** Bound inputs that match are the report's own digests. */
  lemma BoundInputsMatch(g: Grammar, w: World, selector: Option<Word>)
    ensures
      var d := EvidenceOf(g, w, selector);
      && (Usable(InputsStatus(g, w, selector)) ==> d.Some?)
      && (InputsStatus(g, w, selector).Warning? ==> !d.value.kind.Platform?)
      && (InputsStatus(g, w, selector).Pass? ==>
            && d.value.kind.Platform?
            && CatalogOf(g, w).Some? && d.value.labIndex == Some(CatalogOf(g, w).value.indexDigest)
            && d.value.labManifest == ManifestDigestOf(g, w, selector))
  {
    hide FileOf, VersionOf, ManifestOf, LockOf, CatalogOf, ManifestDigestOf, LabIdOf, Accepted;
  }

  lemma EvidenceDataIs(g: Grammar, w: World, selector: Option<Word>)
    ensures
      var r, d := ReportOf(g, w, selector, EvidenceCommand), EvidenceOf(g, w, selector);
      && r.data.EvidenceData?
      && r.data.evidence == ProjectionOf(g, w, selector)
      && r.data.subjectMatches == SubjectOf(g, w, selector)
      && r.data.inputs ==
         if d.Some? then Some(InputsOf(d.value)) else None
  {
    hide EvidenceOf, ProjectionOf, SubjectOf, ChecksOf, Aggregate, RepositoryOf, CatalogOf, ManifestDigestOf, LabIdOf, VersionOf,
      LockOf, ManifestOf, TaskOf;
  }

  lemma DoctorDataIs(g: Grammar, w: World, selector: Option<Word>)
    ensures ReportOf(g, w, selector, Doctor).data == DoctorData(TaskOf(g, w), ProjectionOf(g, w, selector))
  {
    hide EvidenceOf, ProjectionOf, SubjectOf, ChecksOf, Aggregate, RepositoryOf, CatalogOf, ManifestDigestOf, LabIdOf, VersionOf,
      LockOf, ManifestOf, TaskOf;
  }

  lemma EvidenceDataRulesHold(g: Grammar, w: World, selector: Option<Word>)
    ensures DataRules(ReportOf(g, w, selector, EvidenceCommand))
  {
    hide ReportOf, StatusAt, ProjectionOf, EvidenceOf, SubjectOf, InputsStatus, ResultStatus, VersionOf, RepositoryOf, CatalogOf,
      ManifestDigestOf, EvidenceRules, DataOf;
    EvidenceRulesHold(g, w, selector, EvidenceCommand);
    EvidenceStatuses(g, w, selector, EvidenceCommand);
    BoundInputsMatch(g, w, selector);
    EvidenceDataIs(g, w, selector);
    ReportFields(g, w, selector, EvidenceCommand);
  }

  lemma DataRulesHold(g: Grammar, w: World, selector: Option<Word>, command: Command)
    ensures DataRules(ReportOf(g, w, selector, command))
  {
    hide StatusAt, ProjectionOf, EvidenceOf, VersionOf, RepositoryOf, CatalogOf, EvidenceRules, TaskOf, ChecksOf, Aggregate,
      ManifestDigestOf, LabIdOf, LockOf, ManifestOf, SubjectOf;
    match command
    case StatusCommand => assert ReportOf(g, w, selector, command).data.StatusData?;
    case Inspect => assert ReportOf(g, w, selector, command).data.InspectData?;
    case Doctor =>
      DoctorTaskIsValid(g, w, selector);
      EvidenceRulesHold(g, w, selector, command);
      DoctorDataIs(g, w, selector);
    case EvidenceCommand =>
      EvidenceDataRulesHold(g, w, selector);
  }

  // ---- The theorem ----

  lemma AllPass(checks: seq<Check>, i: nat)
    requires Aggregate(checks).0.Pass? && i < |checks|
    ensures checks[i].status.Pass?
  {
  }

  lemma PassingReportStatus(g: Grammar, w: World, selector: Option<Word>, command: Command, i: nat)
    requires ReportOf(g, w, selector, command).result.Pass? && i < |Sequence(command)|
    ensures StatusOf(g, w, selector, Sequence(command)[i]).Pass?
  {
    hide StatusOf, DataOf, Aggregate, Sequence;
    var checks := ChecksOf(g, w, selector, Sequence(command));
    AllPass(checks, i);
    CheckKeeps(g, w, selector, Sequence(command)[i]);
  }

  /** A passing run has all the data its command reports. */
  lemma PassingIsComplete(g: Grammar, w: World, selector: Option<Word>, command: Command)
    requires Proper(g, w, selector) && ReportOf(g, w, selector, command).result.Pass?
    ensures PassComplete(ReportOf(g, w, selector, command))
  {
    hide ReportOf, CatalogOf, LockOf, ManifestOf, DataOf, StatusOf, VersionOf, ProjectionOf, InputsStatus, SubjectOf, EvidenceOf,
      ValidManifest, UnknownLab, ManifestDigestOf, LabIdOf, ResultStatus;
    CatalogPasses(g, w, selector);
    EvidenceStatusOf(g, w, selector);
    match command
    case StatusCommand =>
      PassingReportStatus(g, w, selector, command, 3);
      PassingReportStatus(g, w, selector, command, 5);
      SelectionMeans(g, w, selector);
      StatusReportIs(g, w, selector);
    case Inspect =>
      PassingReportStatus(g, w, selector, command, 0);
      PassingReportStatus(g, w, selector, command, 2);
      PassingReportStatus(g, w, selector, command, 4);
      SelectionMeans(g, w, selector);
      InspectDataIs(g, w, selector);
    case Doctor =>
      PassingReportStatus(g, w, selector, command, 16);
      ProjectionFacts(g, w, selector);
      DoctorDataIs(g, w, selector);
    case EvidenceCommand =>
      PassingReportStatus(g, w, selector, command, 8);
      PassingReportStatus(g, w, selector, command, 9);
      ProjectionFacts(g, w, selector);
      EvidenceDataIs(g, w, selector);
  }

  /** Every document a proper run produces is accepted, for every command and every
      environment, exactly unless an inspected manifest has too many layers. */
  lemma ReportValidates(g: Grammar, w: World, selector: Option<Word>, command: Command)
    requires Proper(g, w, selector)
    ensures Validates(g, ReportOf(g, w, selector, command)) <==> !(command.Inspect? && TooManyLayers(g, w, selector))
  {
    var r := ReportOf(g, w, selector, command);
    ChecksAreValid(g, w, selector, command);
    TransitionsAreValid(g, w, selector, Sequence(command));
    IdentityIsValid(g, w, selector, command);
    DataIsValid(g, w, selector, command);
    StatusRulesHold(g, w, selector, command);
    InspectRulesHold(g, w, selector, command);
    DataRulesHold(g, w, selector, command);
    if r.result.Pass? {
      PassingIsComplete(g, w, selector, command);
    }
    hide Sequence, DataOf, StatusOf, TransitionsValid, IdentityValid, StatusRules, InspectRules, DataRules, ValidData, PassComplete,
      ChecksValid, TooManyLayers, Aggregate, CatalogOf, ManifestDigestOf, LabIdOf;
  }

  /** A run whose only oddity is a manifest of the given layers. */
  function LayeredWorld(layers: seq<Word>): World
  {
    var upstream := (id: SourceId) => Upstream(UpstreamUrl(id), 0, 0, 0);
    var lock := Lock(0, 0, Sources(upstream(BitBake), upstream(OpenEmbeddedCore), upstream(MetaYocto)), 0);
    var manifest := Manifest(0, 0, 0, 0, layers, 0, 0, 0, 0, 3, 3);
    World(
      Contents(0), ToolGood, Some((0, false)), Contents(None), Contents(lock), Contents(0),
      Contents(Some(Catalog(0, map[0 := manifest], map[0 := 0]))), ToolGood, _ => Matches, Contents(()), Contents(()),
      Unreadable)
  }

  function AnyText(): Grammar
  {
    Grammar(_ => true, _ => true, _ => true, _ => true, _ => true, _ => true, _ => true, _ => true, _ => true, _ => true, _ => true,
            (_, _, _) => true)
  }

  /** Seventeen layers satisfy the catalogue, and the inspected document is refused. */
  lemma SeventeenLayersAreRefused()
    ensures
      var w := LayeredWorld(seq(17, i => i));
      Proper(AnyText(), w, None) && TooManyLayers(AnyText(), w, None)
      && !Validates(AnyText(), ReportOf(AnyText(), w, None, Inspect))
  {
    var layers: seq<Word> := seq(17, i => i);
    var g, w := AnyText(), LayeredWorld(layers);
    assert ValidManifest(g, w.manifests.value.value.manifests[0]);
    assert CatalogOf(g, w) == w.manifests.value;
    assert ManifestOf(g, w, None).Some? && ManifestOf(g, w, None).value.layers == layers;
    ReportValidates(g, w, None, Inspect);
    hide ReportOf, Validates;
  }
}
