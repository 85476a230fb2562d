// The diagnostics document (diagnostics.py): its checks, and the independent validator
// that re-derives every relation between them and the data (validate_document).

module DiagnosticsContract {
  import opened Wrappers
  import opened RuntimeEvidence

  datatype SourceId = BitBake | OpenEmbeddedCore | MetaYocto

  datatype CheckId =
    | ProjectVersion | RepositoryGit | WorkflowTask | SourceLock | LabCatalog | LabSelection | RepositoryClean
    | ToolGit | ToolSsh | Source(source: SourceId) | LocalConf | BblayersConf
    | EvidenceFile | EvidenceDocument | EvidenceResult | EvidenceInputs | EvidenceSubject

  datatype Status = Pass | Warning | Fail | Unavailable

  /** Which of its sentences a check carries. */
  datatype Sentence = WhenPassed | WhenFailed | WhenUnavailable | Historical

  datatype Check = Check(id: CheckId, status: Status, required: bool, summary: Sentence)

  datatype Command = StatusCommand | Doctor | Inspect | EvidenceCommand

  const EVIDENCE_CHECKS: seq<CheckId> :=
    [EvidenceFile, EvidenceDocument, EvidenceResult, EvidenceInputs, EvidenceSubject]

  function Sequence(command: Command): seq<CheckId>
  {
    match command
    case StatusCommand =>
      [ProjectVersion, RepositoryGit, WorkflowTask, SourceLock, LabCatalog, LabSelection, RepositoryClean]
    case Doctor =>
      [ProjectVersion, RepositoryGit, WorkflowTask, SourceLock, LabCatalog, LabSelection, ToolGit, ToolSsh,
       Source(BitBake), Source(OpenEmbeddedCore), Source(MetaYocto), LocalConf, BblayersConf] + EVIDENCE_CHECKS
    case Inspect =>
      [ProjectVersion, RepositoryGit, SourceLock, LabCatalog, LabSelection]
    case EvidenceCommand =>
      [ProjectVersion, RepositoryGit, SourceLock, LabCatalog, LabSelection] + EVIDENCE_CHECKS
  }

  /** The one check a status stands for; None for a status the check does not have. */
  function MakeCheck(id: CheckId, status: Status): Option<Check>
  {
    var required := !id.RepositoryClean? && !id.EvidenceSubject?;
    match status
    case Pass => Some(Check(id, status, required, WhenPassed))
    case Fail => Some(Check(id, status, required, WhenFailed))
    case Unavailable => Some(Check(id, status, required, WhenUnavailable))
    case Warning =>
      if id.RepositoryClean? || id.EvidenceSubject? then Some(Check(id, status, required, WhenFailed))
      else if id.EvidenceInputs? then Some(Check(id, status, required, Historical))
      else None
  }

  /** The overall result and the exit code. */
  function Aggregate(checks: seq<Check>): (Status, nat)
  {
    if exists i :: 0 <= i < |checks| && checks[i].status.Fail? then (Fail, 1)
    else if exists i :: 0 <= i < |checks| && checks[i].required && checks[i].status.Unavailable? then (Unavailable, 3)
    else if exists i :: 0 <= i < |checks| && (checks[i].status.Warning? || checks[i].status.Unavailable?) then (Warning, 0)
    else (Pass, 0)
  }

  /** A warning is for the three checks that have one, and each status has its sentence:
      a clean repository and a matching subject are the only checks that are not required. */
  lemma WordingMeans(id: CheckId, status: Status)
    ensures
      var check := MakeCheck(id, status);
      && (check.None? <==> status.Warning? && id !in {RepositoryClean, EvidenceInputs, EvidenceSubject})
      && (check.Some? ==>
            && check.value.id == id && check.value.status == status
            && (!check.value.required <==> id in {RepositoryClean, EvidenceSubject})
            && (check.value.summary.WhenPassed? <==> status.Pass?)
            && (check.value.summary.WhenUnavailable? <==> status.Unavailable?)
            && (check.value.summary.Historical? <==> status.Warning? && id.EvidenceInputs?))
  {
  }

  // ---- The document's data ----

  datatype LockProjection = LockProjection(digest: Word, version: Word, series: Word)

  datatype LabProjection = LabProjection(
    buildDirectory: Word, machine: Word, image: Word, driver: Word, evidenceProfile: Word)

  datatype EvidenceProjection = EvidenceProjection(
    kind: Kind, version: nat, projectVersion: Word, revision: Word, dirty: bool,
    machine: Word, image: Word, exitCode: int, passes: bool, summary: Summary,
    oeqaResult: Word, sourceLock: Word, file: Word)

  datatype Binding = Bound | NotRecorded

  datatype InputsProjection = InputsProjection(binding: Binding, labIndex: Option<Word>, labManifest: Option<Word>)

  datatype Release = Release(projectVersion: Word, version: Word, series: Word)

  datatype Upstream = Upstream(url: Word, branchRef: Word, releaseRef: Word, commit: Word)

  datatype Sources = Sources(bitbake: Upstream, openEmbeddedCore: Upstream, metaYocto: Upstream)

  datatype Build = Build(buildDirectory: Word, machine: Word, image: Word, driver: Word, layers: seq<Word>)

  datatype Emulator = Emulator(profile: Word, systemBinary: Word)

  datatype Runtime = Runtime(suite: Word, evidenceProfile: Word, guestContract: nat, evidenceSchema: nat)

  datatype Data =
    | StatusData(task: Option<Word>, sourceLock: Option<LockProjection>, selectedLab: Option<LabProjection>)
    | DoctorData(task: Option<Word>, evidence: Option<EvidenceProjection>)
    | InspectData(
        release: Option<Release>, sources: Option<Sources>, build: Option<Build>,
        emulator: Option<Emulator>, runtime: Option<Runtime>, lockDigest: Option<Word>)
    | EvidenceData(evidence: Option<EvidenceProjection>, inputs: Option<InputsProjection>, subjectMatches: Option<bool>)

  datatype Report = Report(
    command: Command, result: Status,
    version: Option<Word>, revision: Option<Word>, dirty: Option<bool>,
    labId: Option<Word>, indexDigest: Option<Word>, manifestDigest: Option<Word>,
    checks: seq<Check>, data: Data)

  // ---- Shapes of the data ----

  const MAX_LAYERS: nat := 16

  predicate Token(g: Grammar, word: Word)
  {
    g.token(word) && g.bounded(word)
  }

  /** The fixed upstream of a source. */
  function UpstreamUrl(id: SourceId): Word
  {
    match id
    case BitBake => 1
    case OpenEmbeddedCore => 2
    case MetaYocto => 3
  }

  predicate ValidUpstream(g: Grammar, id: SourceId, u: Upstream)
  {
    u.url == UpstreamUrl(id) && g.branchRef(u.branchRef) && g.releaseRef(u.releaseRef) && g.sha1(u.commit)
  }

  predicate ValidLabProjection(g: Grammar, lab: LabProjection)
  {
    g.buildDirectory(lab.buildDirectory) && Token(g, lab.machine) && Token(g, lab.image) && Token(g, lab.driver)
    && Token(g, lab.evidenceProfile)
  }

  /** The projected summary is consistent with its suite and its result. */
  predicate ValidEvidenceProjection(g: Grammar, e: EvidenceProjection)
  {
    && !e.kind.OtherKind? && SuiteSize(e.kind, e.version).Some?
    && g.version(e.projectVersion) && g.sha1(e.revision)
    && Token(g, e.machine) && Token(g, e.image) && 0 <= e.exitCode <= 255
    && g.sha256(e.oeqaResult) && g.sha256(e.sourceLock) && g.sha256(e.file)
    && Some(e.summary.total) == SuiteSize(e.kind, e.version)
    && e.summary.total == e.summary.passed + e.summary.failed + e.summary.skipped + e.summary.errors
                          + e.summary.expectedFailures + e.summary.unknown
    && e.passes == (Some(e.summary.passed) == SuiteSize(e.kind, e.version) && e.exitCode == 0)
  }

  predicate ValidInputs(g: Grammar, i: InputsProjection)
  {
    match i.binding
    case Bound => i.labIndex.Some? && g.sha256(i.labIndex.value) && i.labManifest.Some? && g.sha256(i.labManifest.value)
    case NotRecorded => i.labIndex.None? && i.labManifest.None?
  }

  predicate ValidBuild(g: Grammar, b: Build)
  {
    && g.buildDirectory(b.buildDirectory) && Token(g, b.machine) && Token(g, b.image) && Token(g, b.driver)
    && 1 <= |b.layers| <= MAX_LAYERS
    && (forall i, j :: 0 <= i < j < |b.layers| ==> b.layers[i] != b.layers[j])
    && (forall i :: 0 <= i < |b.layers| ==> g.path(b.layers[i]))
  }

  predicate ValidSources(g: Grammar, s: Sources)
  {
    && ValidUpstream(g, BitBake, s.bitbake) && ValidUpstream(g, OpenEmbeddedCore, s.openEmbeddedCore)
    && ValidUpstream(g, MetaYocto, s.metaYocto)
  }

  predicate ValidRuntime(g: Grammar, r: Runtime)
  {
    Token(g, r.suite) && Token(g, r.evidenceProfile) && 1 <= r.guestContract <= 3 && 1 <= r.evidenceSchema <= 3
  }

  predicate ValidData(g: Grammar, command: Command, data: Data)
  {
    match data
    case StatusData(task, lock, lab) =>
      && command.StatusCommand?
      && (task.Some? ==> g.taskId(task.value))
      && (lock.Some? ==> g.sha256(lock.value.digest) && Token(g, lock.value.version) && Token(g, lock.value.series))
      && (lab.Some? ==> ValidLabProjection(g, lab.value))
    case DoctorData(task, evidence) =>
      && command.Doctor?
      && (task.Some? ==> g.taskId(task.value))
      && (evidence.Some? ==> ValidEvidenceProjection(g, evidence.value))
    case InspectData(release, sources, build, emulator, runtime, lockDigest) =>
      && command.Inspect?
      && (release.Some? ==>
            g.version(release.value.projectVersion) && Token(g, release.value.version) && Token(g, release.value.series))
      && (sources.Some? ==> ValidSources(g, sources.value))
      && (build.Some? ==> ValidBuild(g, build.value))
      && (emulator.Some? ==> Token(g, emulator.value.profile) && Token(g, emulator.value.systemBinary))
      && (runtime.Some? ==> ValidRuntime(g, runtime.value))
      && (lockDigest.Some? ==> g.sha256(lockDigest.value))
    case EvidenceData(evidence, inputs, _) =>
      && command.EvidenceCommand?
      && (evidence.Some? ==> ValidEvidenceProjection(g, evidence.value))
      && (inputs.Some? ==> ValidInputs(g, inputs.value))
  }

  // ---- The validator ----

  /** The status a document reports for a check; None when the check is absent. */
  function StatusAt(checks: seq<Check>, id: CheckId): Option<Status>
    decreases |checks|
  {
    if checks == [] then None
    else
      var last := checks[|checks| - 1];
      if last.id == id then Some(last.status) else StatusAt(checks[..|checks| - 1], id)
  }

  /** Checks in the order of the command, each with its own wording. */
  predicate ChecksValid(command: Command, checks: seq<Check>)
  {
    && |checks| == |Sequence(command)|
    && forall i :: 0 <= i < |checks| ==>
         checks[i].id == Sequence(command)[i] && MakeCheck(checks[i].id, checks[i].status) == Some(checks[i])
  }

  /** What a check depends on: without all of it, the check is unavailable. */
  function Upstreams(id: CheckId): seq<CheckId>
  {
    match id
    case LabCatalog => [SourceLock]
    case LabSelection => [LabCatalog]
    case RepositoryClean => [RepositoryGit]
    case Source(_) => [ToolGit, SourceLock]
    case LocalConf => [LabSelection]
    case BblayersConf => [LabSelection]
    case EvidenceFile => [LabSelection]
    case EvidenceDocument => [EvidenceFile, LabSelection]
    case EvidenceResult => [EvidenceDocument]
    case EvidenceInputs => [ProjectVersion, EvidenceDocument, SourceLock, LabSelection]
    case EvidenceSubject => [EvidenceDocument, EvidenceResult, RepositoryGit]
    case _ => []
  }

  /** Checks that are derived: with all of these passed, only the given states are left. */
  function Derived(id: CheckId): Option<(seq<CheckId>, set<Status>)>
  {
    match id
    case LabSelection => Some(([LabCatalog], {Pass, Fail}))
    case RepositoryClean => Some(([RepositoryGit], {Pass, Warning}))
    case EvidenceDocument => Some(([EvidenceFile], {Pass, Fail}))
    case EvidenceResult => Some(([EvidenceDocument], {Pass, Fail}))
    case EvidenceInputs => Some(([ProjectVersion, EvidenceDocument, SourceLock, LabSelection], {Pass, Warning, Fail}))
    case EvidenceSubject => Some(([EvidenceDocument, EvidenceResult, RepositoryGit], {Pass, Warning}))
    case _ => None
  }

  predicate Usable(status: Status)
  {
    status.Pass? || status.Warning?
  }

  predicate GitStatesAgree(repository: Status, tool: Status)
  {
    match repository
    case Pass => tool.Pass?
    case Fail => tool.Pass? || tool.Fail?
    case Unavailable => tool.Unavailable?
    case Warning => false
  }

  predicate TransitionsValid(checks: seq<Check>)
  {
    && (forall i, u :: 0 <= i < |checks| && u in Upstreams(checks[i].id)
          && StatusAt(checks, u).Some? && !Usable(StatusAt(checks, u).value)
          ==> checks[i].status.Unavailable?)
    && (forall i :: 0 <= i < |checks| && Derived(checks[i].id).Some?
          && (forall u :: u in Derived(checks[i].id).value.0 ==> StatusAt(checks, u) == Some(Pass))
          ==> checks[i].status in Derived(checks[i].id).value.1)
    && (StatusAt(checks, RepositoryGit).Some? && StatusAt(checks, ToolGit).Some? ==>
          GitStatesAgree(StatusAt(checks, RepositoryGit).value, StatusAt(checks, ToolGit).value))
  }

  predicate Succeeded(r: Report, id: CheckId)
  {
    StatusAt(r.checks, id) == Some(Pass)
  }

  /** An option that holds a value the grammar accepts. */
  predicate Holds(p: Word -> bool, word: Option<Word>)
  {
    word.Some? && p(word.value)
  }

  predicate IdentityValid(g: Grammar, r: Report)
  {
    && (Holds(g.version, r.version) <==> Succeeded(r, ProjectVersion))
    && (Holds(g.sha1, r.revision) <==> Succeeded(r, RepositoryGit))
    && (r.dirty.Some? <==> Holds(g.sha1, r.revision))
    && (r.labId.Some? ==> g.labId(r.labId.value))
    && (Holds(g.sha256, r.indexDigest) <==> Succeeded(r, LabCatalog))
    && (Holds(g.sha256, r.manifestDigest) <==> Succeeded(r, LabSelection))
    && (Succeeded(r, LabSelection) ==> r.labId.Some?)
  }

  predicate TaskValid(r: Report, task: Option<Word>)
  {
    task.Some? ==> Succeeded(r, WorkflowTask)
  }

  predicate StatusRules(r: Report)
  {
    r.data.StatusData? ==>
      && TaskValid(r, r.data.task)
      && (match StatusAt(r.checks, RepositoryClean)
          case Some(Pass) => r.dirty == Some(false)
          case Some(Warning) => r.dirty == Some(true)
          case Some(Unavailable) => r.dirty == None
          case _ => false)
      && (r.data.sourceLock.Some? <==> Succeeded(r, SourceLock))
      && (r.data.selectedLab.Some? <==> Succeeded(r, LabSelection))
  }

  predicate InspectRules(r: Report)
  {
    r.data.InspectData? ==>
      var available :=
        Succeeded(r, ProjectVersion) && Succeeded(r, SourceLock) && Succeeded(r, LabCatalog) && Succeeded(r, LabSelection);
      var d := r.data;
      && ((d.release.Some? || d.sources.Some? || d.build.Some? || d.emulator.Some? || d.runtime.Some? || d.lockDigest.Some?)
            <==> available)
      && (available ==> PassComplete(r))
      && (d.release.Some? ==> Some(d.release.value.projectVersion) == r.version)
  }

  /** A projected document against every check that speaks of it. */
  predicate ProjectionRules(r: Report, e: EvidenceProjection)
  {
    && Some(e.projectVersion) == r.version
    && (match StatusAt(r.checks, EvidenceResult)
        case Some(Pass) => e.passes && !e.dirty
        case Some(Fail) => !e.passes || e.dirty
        case _ => false)
    && (match StatusAt(r.checks, EvidenceSubject)
        case Some(Pass) => Some(e.revision) == r.revision
        case Some(Warning) => Some(e.revision) != r.revision
        case Some(Unavailable) => true
        case _ => false)
    && (match StatusAt(r.checks, EvidenceInputs)
        case Some(Pass) => e.kind.Platform?
        case Some(Warning) => e.kind.Pci?
        case _ => true)
  }

  predicate EvidenceRules(r: Report, evidence: Option<EvidenceProjection>)
  {
    && (evidence.Some? ==> Succeeded(r, EvidenceDocument))
    && (match StatusAt(r.checks, EvidenceInputs)
        case Some(status) => Usable(status) ==> evidence.Some?
        case None => true)
    && (evidence.Some? ==> ProjectionRules(r, evidence.value))
  }

  predicate DataRules(r: Report)
  {
    match r.data
    case DoctorData(task, evidence) => TaskValid(r, task) && EvidenceRules(r, evidence)
    case EvidenceData(evidence, inputs, subject) =>
      && EvidenceRules(r, evidence)
      && (inputs.Some? <==> Succeeded(r, EvidenceDocument))
      && (match StatusAt(r.checks, EvidenceSubject)
          case Some(Pass) => subject == Some(true)
          case Some(Warning) => subject == Some(false)
          case Some(Unavailable) => subject == None
          case _ => false)
      && (match StatusAt(r.checks, EvidenceInputs)
          case Some(Pass) =>
            inputs.Some? && inputs.value.binding.Bound?
            && inputs.value.labIndex == r.indexDigest && inputs.value.labManifest == r.manifestDigest
          case Some(Warning) => inputs.Some? && inputs.value.binding.NotRecorded?
          case _ => true)
    case _ => true
  }

  /** A passing document carries all its data. */
  predicate PassComplete(r: Report)
  {
    match r.data
    case StatusData(_, lock, lab) => lock.Some? && lab.Some?
    case DoctorData(_, evidence) => evidence.Some?
    case InspectData(release, sources, build, emulator, runtime, lockDigest) =>
      release.Some? && sources.Some? && build.Some? && emulator.Some? && runtime.Some? && lockDigest.Some?
    case EvidenceData(evidence, inputs, subject) => evidence.Some? && inputs.Some? && subject == Some(true)
  }

  /** What validate_document accepts. */
  predicate Validates(g: Grammar, r: Report)
  {
    && ChecksValid(r.command, r.checks)
    && r.result == Aggregate(r.checks).0
    && TransitionsValid(r.checks)
    && IdentityValid(g, r)
    && ValidData(g, r.command, r.data)
    && StatusRules(r) && InspectRules(r) && DataRules(r)
    && (r.result.Pass? ==> PassComplete(r))
  }
}
