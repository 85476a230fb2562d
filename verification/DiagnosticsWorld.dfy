// The environment of one diagnostics run, and what each check should find in it: the
// account that the mutating context (Diagnostics.dfy) is proved to follow.

module DiagnosticsWorld {
  import opened Wrappers
  import opened RuntimeEvidence
  import opened DiagnosticsContract

  /** One bounded read: unavailable, against the file contract, or the contents. */
  datatype Reading<T> = Unreadable | Rejected | Contents(value: T)

  datatype Tool = ToolMissing | ToolBroken | ToolGood

  datatype Checkout = NoDirectory | BadDirectory | QueryFailed | Differs | Matches

  datatype Lock = Lock(version: Word, series: Word, sources: Sources, digest: Word)

  datatype Manifest = Manifest(
    buildDirectory: Word, machine: Word, image: Word, driver: Word, layers: seq<Word>,
    profile: Word, systemBinary: Word, suite: Word, evidenceProfile: Word, guestContract: nat, evidenceSchema: nat)

  datatype Catalog = Catalog(indexDigest: Word, manifests: map<Word, Manifest>, digests: map<Word, Word>)

  datatype File = File(digest: Word, document: Option<Document>)

  /** Everything the run asks of its surroundings; each answer is free. */
  datatype World = World(
    versionFile: Reading<Word>,
    git: Tool,
    repository: Option<(Word, bool)>,
    workflow: Reading<Option<Word>>,
    lock: Reading<Lock>,
    index: Reading<Word>,
    manifests: Reading<Option<Catalog>>,
    ssh: Tool,
    checkouts: SourceId -> Checkout,
    localConf: Reading<()>,
    bblayersConf: Reading<()>,
    evidence: Reading<File>)

  // ---- What the parsers accept ----

  predicate ValidLock(g: Grammar, lock: Lock)
  {
    Token(g, lock.version) && Token(g, lock.series) && ValidSources(g, lock.sources)
  }

  /** The catalogue bounds the layers of a manifest below only. */
  predicate ValidManifest(g: Grammar, m: Manifest)
  {
    && g.buildDirectory(m.buildDirectory)
    && Token(g, m.machine) && Token(g, m.image) && Token(g, m.driver)
    && |m.layers| >= 1
    && (forall i, j :: 0 <= i < j < |m.layers| ==> m.layers[i] != m.layers[j])
    && (forall i :: 0 <= i < |m.layers| ==> g.path(m.layers[i]))
    && Token(g, m.profile) && Token(g, m.systemBinary) && Token(g, m.suite) && Token(g, m.evidenceProfile)
    && 1 <= m.guestContract <= 3 && 1 <= m.evidenceSchema <= 3
  }

  predicate ValidCatalog(g: Grammar, c: Catalog)
  {
    && c.digests.Keys == c.manifests.Keys
    && (forall id :: id in c.manifests ==> ValidManifest(g, c.manifests[id]) && g.sha256(c.digests[id]))
  }

  /** Digests computed by the run are SHA-256 digests. */
  predicate Hashed(g: Grammar, w: World)
  {
    && (w.lock.Contents? ==> g.sha256(w.lock.value.digest))
    && (w.manifests.Contents? && w.manifests.value.Some? ==> g.sha256(w.manifests.value.value.indexDigest))
    && (w.evidence.Contents? ==> g.sha256(w.evidence.value.digest))
  }

  // ---- What the run should find ----

  function ReadStatus<T>(reading: Reading<T>, good: bool): Status
  {
    match reading
    case Unreadable => Unavailable
    case Rejected => Fail
    case Contents(_) => if good then Pass else Fail
  }

  function ToolStatus(tool: Tool): Status
  {
    match tool
    case ToolMissing => Unavailable
    case ToolBroken => Fail
    case ToolGood => Pass
  }

  function VersionOf(g: Grammar, w: World): Option<Word>
  {
    if w.versionFile.Contents? && g.version(w.versionFile.value) then Some(w.versionFile.value) else None
  }

  function RepositoryOf(g: Grammar, w: World): Option<(Word, bool)>
  {
    if w.git.ToolGood? && w.repository.Some? && g.sha1(w.repository.value.0) then w.repository else None
  }

  predicate WorkflowGood(g: Grammar, w: World)
  {
    w.workflow.Contents? && (w.workflow.value.Some? ==> g.taskId(w.workflow.value.value))
  }

  function TaskOf(g: Grammar, w: World): Option<Word>
  {
    if WorkflowGood(g, w) then w.workflow.value else None
  }

  function LockOf(g: Grammar, w: World): Option<Lock>
  {
    if w.lock.Contents? && ValidLock(g, w.lock.value) then Some(w.lock.value) else None
  }

  predicate IndexGood(g: Grammar, w: World)
  {
    w.index.Contents? && g.labId(w.index.value)
  }

  function CatalogOf(g: Grammar, w: World): Option<Catalog>
  {
    if LockOf(g, w).Some? && IndexGood(g, w) && w.manifests.Contents? && w.manifests.value.Some?
       && ValidCatalog(g, w.manifests.value.value)
    then w.manifests.value else None
  }

  function CatalogStatus(g: Grammar, w: World): Status
  {
    if LockOf(g, w).None? then Unavailable
    else if !IndexGood(g, w) then ReadStatus(w.index, false)
    else ReadStatus(w.manifests, CatalogOf(g, w).Some?)
  }

  /** The selector, or the default of an index that was read. */
  function LabIdOf(g: Grammar, w: World, selector: Option<Word>): Option<Word>
  {
    if selector.None? && LockOf(g, w).Some? && IndexGood(g, w) then Some(w.index.value) else selector
  }

  /** A sound catalogue without the selected lab: an argument error, not a document. */
  predicate UnknownLab(g: Grammar, w: World, selector: Option<Word>)
  {
    var catalog, labId := CatalogOf(g, w), LabIdOf(g, w, selector);
    catalog.Some? && (labId.None? || labId.value !in catalog.value.manifests)
  }

  function ManifestOf(g: Grammar, w: World, selector: Option<Word>): Option<Manifest>
  {
    var catalog, labId := CatalogOf(g, w), LabIdOf(g, w, selector);
    if catalog.Some? && labId.Some? && labId.value in catalog.value.manifests
    then Some(catalog.value.manifests[labId.value]) else None
  }

  function ManifestDigestOf(g: Grammar, w: World, selector: Option<Word>): Option<Word>
  {
    var catalog, labId := CatalogOf(g, w), LabIdOf(g, w, selector);
    if catalog.Some? && labId.Some? && labId.value in catalog.value.digests
    then Some(catalog.value.digests[labId.value]) else None
  }

  function FileOf(g: Grammar, w: World, selector: Option<Word>): Option<File>
  {
    if ManifestOf(g, w, selector).Some? && w.evidence.Contents? then Some(w.evidence.value) else None
  }

  predicate SafeDocument(g: Grammar, d: Document)
  {
    && !d.kind.OtherKind? && Accepted(d, g)
    && g.version(d.projectVersion) && g.token(d.machine) && g.token(d.image)
  }

  function EvidenceOf(g: Grammar, w: World, selector: Option<Word>): Option<Document>
  {
    var file := FileOf(g, w, selector);
    if file.Some? && file.value.document.Some? && SafeDocument(g, file.value.document.value)
    then file.value.document else None
  }

  /** The document is about the selected lab's image of this version. */
  predicate Describes(d: Document, version: Option<Word>, m: Option<Manifest>)
  {
    && version == Some(d.projectVersion)
    && m.Some? && d.machine == m.value.machine && d.image == m.value.image
  }

  function Project(d: Document, digest: Word): EvidenceProjection
  {
    EvidenceProjection(
      d.kind, d.version, d.projectVersion, d.revision, d.dirty, d.machine, d.image, d.exitCode, d.passes,
      d.summary, d.oeqaResult, d.sourceLock, digest)
  }

  function ProjectionOf(g: Grammar, w: World, selector: Option<Word>): Option<EvidenceProjection>
  {
    var d := EvidenceOf(g, w, selector);
    if d.Some? && Describes(d.value, VersionOf(g, w), ManifestOf(g, w, selector))
    then Some(Project(d.value, w.evidence.value.digest)) else None
  }

  /** The recorded inputs are the selected ones. */
  predicate InputsMatch(g: Grammar, w: World, selector: Option<Word>, d: Document)
  {
    var lock, catalog, m := LockOf(g, w), CatalogOf(g, w), ManifestOf(g, w, selector);
    && lock.Some? && d.sourceLock == lock.value.digest
    && Describes(d, VersionOf(g, w), m) && d.version == m.value.evidenceSchema
    && (d.kind.Platform? ==>
          && d.lab == LabIdOf(g, w, selector)
          && catalog.Some? && d.labIndex == Some(catalog.value.indexDigest)
          && d.labManifest == ManifestDigestOf(g, w, selector))
  }

  function CheckoutStatus(checkout: Checkout): Status
  {
    match checkout
    case NoDirectory => Unavailable
    case Matches => Pass
    case _ => Fail
  }

  function ResultStatus(g: Grammar, w: World, selector: Option<Word>): Status
  {
    var d := EvidenceOf(g, w, selector);
    if d.None? then Unavailable else if d.value.passes && !d.value.dirty then Pass else Fail
  }

  function InputsStatus(g: Grammar, w: World, selector: Option<Word>): Status
  {
    var d := EvidenceOf(g, w, selector);
    if d.None? || VersionOf(g, w).None? then Unavailable
    else if !InputsMatch(g, w, selector, d.value) then Fail
    else if d.value.kind.Platform? then Pass
    else Warning
  }

  function SubjectOf(g: Grammar, w: World, selector: Option<Word>): Option<bool>
  {
    var d, repository := EvidenceOf(g, w, selector), RepositoryOf(g, w);
    if d.None? || repository.None? || !ResultStatus(g, w, selector).Pass? then None
    else Some(d.value.revision == repository.value.0)
  }

  function SubjectStatus(subject: Option<bool>): Status
  {
    match subject
    case None => Unavailable
    case Some(same) => if same then Pass else Warning
  }

  function StatusOf(g: Grammar, w: World, selector: Option<Word>, id: CheckId): Status
  {
    match id
    case ProjectVersion => ReadStatus(w.versionFile, VersionOf(g, w).Some?)
    case RepositoryGit => if !w.git.ToolGood? then ToolStatus(w.git) else if RepositoryOf(g, w).Some? then Pass else Fail
    case WorkflowTask => ReadStatus(w.workflow, WorkflowGood(g, w))
    case SourceLock => ReadStatus(w.lock, LockOf(g, w).Some?)
    case LabCatalog => CatalogStatus(g, w)
    case LabSelection => if CatalogOf(g, w).None? then Unavailable else Pass
    case RepositoryClean =>
      if RepositoryOf(g, w).None? then Unavailable else if RepositoryOf(g, w).value.1 then Warning else Pass
    case ToolGit => ToolStatus(w.git)
    case ToolSsh => ToolStatus(w.ssh)
    case Source(source) =>
      if !w.git.ToolGood? || LockOf(g, w).None? then Unavailable else CheckoutStatus(w.checkouts(source))
    case LocalConf => if ManifestOf(g, w, selector).None? then Unavailable else ReadStatus(w.localConf, true)
    case BblayersConf => if ManifestOf(g, w, selector).None? then Unavailable else ReadStatus(w.bblayersConf, true)
    case EvidenceFile => if ManifestOf(g, w, selector).None? then Unavailable else ReadStatus(w.evidence, true)
    case EvidenceDocument =>
      if FileOf(g, w, selector).None? then Unavailable else if EvidenceOf(g, w, selector).Some? then Pass else Fail
    case EvidenceResult => ResultStatus(g, w, selector)
    case EvidenceInputs => InputsStatus(g, w, selector)
    case EvidenceSubject => SubjectStatus(SubjectOf(g, w, selector))
  }

  // The account one check at a time, in the terms the checks use.

  lemma ProjectVersionFound(g: Grammar, w: World, selector: Option<Word>)
    ensures StatusOf(g, w, selector, ProjectVersion) == ReadStatus(w.versionFile, VersionOf(g, w).Some?)
    ensures StatusOf(g, w, selector, ProjectVersion).Pass? <==> VersionOf(g, w).Some?
    ensures !StatusOf(g, w, selector, ProjectVersion).Warning?
  {
  }

  lemma RepositoryFound(g: Grammar, w: World, selector: Option<Word>)
    ensures
      StatusOf(g, w, selector, RepositoryGit) ==
      if !w.git.ToolGood? then ToolStatus(w.git) else if RepositoryOf(g, w).Some? then Pass else Fail
    ensures StatusOf(g, w, selector, RepositoryGit).Pass? <==> RepositoryOf(g, w).Some?
    ensures !StatusOf(g, w, selector, RepositoryGit).Warning?
  {
  }

  lemma WorkflowFound(g: Grammar, w: World, selector: Option<Word>)
    ensures StatusOf(g, w, selector, WorkflowTask) == ReadStatus(w.workflow, WorkflowGood(g, w))
  {
    hide WorkflowGood;
  }

  lemma SourceLockFound(g: Grammar, w: World, selector: Option<Word>)
    ensures StatusOf(g, w, selector, SourceLock) == ReadStatus(w.lock, LockOf(g, w).Some?)
    ensures StatusOf(g, w, selector, SourceLock).Pass? <==> LockOf(g, w).Some?
    ensures !StatusOf(g, w, selector, SourceLock).Warning?
  {
    hide ValidLock;
  }

  lemma LabCatalogFound(g: Grammar, w: World, selector: Option<Word>)
    ensures StatusOf(g, w, selector, LabCatalog) == CatalogStatus(g, w)
    ensures StatusOf(g, w, selector, LabCatalog).Pass? <==> CatalogOf(g, w).Some?
    ensures !StatusOf(g, w, selector, LabCatalog).Warning?
  {
    hide ValidCatalog, ValidLock;
  }

  lemma SelectionFound(g: Grammar, w: World, selector: Option<Word>)
    ensures StatusOf(g, w, selector, LabSelection) == if CatalogOf(g, w).None? then Unavailable else Pass
    ensures ManifestOf(g, w, selector).Some? ==> StatusOf(g, w, selector, LabSelection).Pass?
  {
    hide CatalogOf, LabIdOf;
  }

  lemma ToolsFound(g: Grammar, w: World, selector: Option<Word>)
    ensures StatusOf(g, w, selector, ToolGit) == ToolStatus(w.git)
    ensures StatusOf(g, w, selector, ToolSsh) == ToolStatus(w.ssh)
  {
  }

  lemma CleanFound(g: Grammar, w: World, selector: Option<Word>)
    ensures
      StatusOf(g, w, selector, RepositoryClean) ==
      if RepositoryOf(g, w).None? then Unavailable else if RepositoryOf(g, w).value.1 then Warning else Pass
  {
    hide RepositoryOf;
  }

  lemma CheckoutFound(g: Grammar, w: World, selector: Option<Word>, source: SourceId)
    ensures
      StatusOf(g, w, selector, Source(source)) ==
      if !w.git.ToolGood? || LockOf(g, w).None? then Unavailable else CheckoutStatus(w.checkouts(source))
  {
    hide LockOf;
  }

  lemma FilesFound(g: Grammar, w: World, selector: Option<Word>)
    ensures
      var selected := ManifestOf(g, w, selector).Some?;
      && StatusOf(g, w, selector, LocalConf) == (if selected then ReadStatus(w.localConf, true) else Unavailable)
      && StatusOf(g, w, selector, BblayersConf) == (if selected then ReadStatus(w.bblayersConf, true) else Unavailable)
      && StatusOf(g, w, selector, EvidenceFile) == (if selected then ReadStatus(w.evidence, true) else Unavailable)
      && (StatusOf(g, w, selector, EvidenceFile).Pass? <==> FileOf(g, w, selector).Some?)
      && !StatusOf(g, w, selector, EvidenceFile).Warning?
  {
    hide ManifestOf;
  }

  lemma EvidenceFound(g: Grammar, w: World, selector: Option<Word>)
    ensures
      var file, d := FileOf(g, w, selector), EvidenceOf(g, w, selector);
      && StatusOf(g, w, selector, EvidenceDocument) == (if file.None? then Unavailable else if d.Some? then Pass else Fail)
      && (StatusOf(g, w, selector, EvidenceDocument).Pass? <==> d.Some?)
      && StatusOf(g, w, selector, EvidenceResult) == ResultStatus(g, w, selector)
      && StatusOf(g, w, selector, EvidenceInputs) == InputsStatus(g, w, selector)
      && StatusOf(g, w, selector, EvidenceSubject) == SubjectStatus(SubjectOf(g, w, selector))
      && !ResultStatus(g, w, selector).Warning?
      && (file.Some? ==> ManifestOf(g, w, selector).Some?)
  {
    hide ManifestOf, SafeDocument, InputsStatus, SubjectOf;
  }

  lemma CatalogKeys(g: Grammar, w: World)
    ensures CatalogOf(g, w).Some? ==> CatalogOf(g, w).value.digests.Keys == CatalogOf(g, w).value.manifests.Keys
  {
    hide ValidManifest;
  }

  lemma FileIsEvidence(g: Grammar, w: World, selector: Option<Word>)
    ensures FileOf(g, w, selector).Some? ==> w.evidence == Contents(FileOf(g, w, selector).value)
  {
    hide ManifestOf;
  }

  lemma EvidenceIsAccepted(g: Grammar, w: World, selector: Option<Word>)
    ensures EvidenceOf(g, w, selector).Some? ==>
              Accepted(EvidenceOf(g, w, selector).value, g) && !EvidenceOf(g, w, selector).value.kind.OtherKind?
  {
    hide FileOf, Accepted;
  }

  /** A document that was read was read for a selected lab, so the inputs check is blocked
      exactly when its version or its document is missing. */
  lemma InputsAreReady(g: Grammar, w: World, selector: Option<Word>)
    ensures StatusOf(g, w, selector, EvidenceInputs) == InputsStatus(g, w, selector)
    ensures Usable(StatusOf(g, w, selector, ProjectVersion)) <==> VersionOf(g, w).Some?
    ensures Usable(StatusOf(g, w, selector, EvidenceDocument)) <==> EvidenceOf(g, w, selector).Some?
    ensures EvidenceOf(g, w, selector).Some? ==>
      && Usable(StatusOf(g, w, selector, SourceLock)) && Usable(StatusOf(g, w, selector, LabSelection))
      && ManifestOf(g, w, selector).Some? && CatalogOf(g, w).Some? && !EvidenceOf(g, w, selector).value.kind.OtherKind?
  {
    ProjectVersionFound(g, w, selector);
    SourceLockFound(g, w, selector);
    SelectionFound(g, w, selector);
    EvidenceFound(g, w, selector);
    EvidenceIsAccepted(g, w, selector);
    SelectedNeedsLock(g, w, selector);
    hide StatusOf, InputsStatus, EvidenceOf, ManifestOf, CatalogOf, VersionOf, LockOf;
  }

  lemma SelectedNeedsLock(g: Grammar, w: World, selector: Option<Word>)
    ensures ManifestOf(g, w, selector).Some? ==> CatalogOf(g, w).Some? && LockOf(g, w).Some?
    ensures EvidenceOf(g, w, selector).Some? ==> FileOf(g, w, selector).Some?
  {
    hide ValidCatalog, ValidLock, SafeDocument;
  }

  // ---- The document of a run ----

  /** No status is one its check does not have. */
  lemma StatusHasCheck(g: Grammar, w: World, selector: Option<Word>, id: CheckId)
    ensures MakeCheck(id, StatusOf(g, w, selector, id)).Some?
  {
  }

  function CheckOf(g: Grammar, w: World, selector: Option<Word>, id: CheckId): Check
  {
    StatusHasCheck(g, w, selector, id);
    MakeCheck(id, StatusOf(g, w, selector, id)).value
  }

  function ChecksOf(g: Grammar, w: World, selector: Option<Word>, ids: seq<CheckId>): seq<Check>
  {
    seq(|ids|, i requires 0 <= i < |ids| => CheckOf(g, w, selector, ids[i]))
  }

  function LabProjectionOf(m: Manifest): LabProjection
  {
    LabProjection(m.buildDirectory, m.machine, m.image, m.driver, m.evidenceProfile)
  }

  function InputsOf(d: Document): InputsProjection
  {
    InputsProjection(if d.kind.Platform? then Bound else NotRecorded, d.labIndex, d.labManifest)
  }

  function DataOf(g: Grammar, w: World, selector: Option<Word>, command: Command): Data
  {
    var lock, m := LockOf(g, w), ManifestOf(g, w, selector);
    match command
    case StatusCommand =>
      StatusData(
        TaskOf(g, w),
        if lock.Some? then Some(LockProjection(lock.value.digest, lock.value.version, lock.value.series)) else None,
        if m.Some? then Some(LabProjectionOf(m.value)) else None)
    case Doctor => DoctorData(TaskOf(g, w), ProjectionOf(g, w, selector))
    case Inspect => InspectDataOf(VersionOf(g, w), lock, m)
    case EvidenceCommand =>
      var d := EvidenceOf(g, w, selector);
      EvidenceData(
        ProjectionOf(g, w, selector),
        if d.Some? then Some(InputsOf(d.value)) else None,
        SubjectOf(g, w, selector))
  }

  function InspectDataOf(version: Option<Word>, lock: Option<Lock>, m: Option<Manifest>): Data
  {
    if version.None? || lock.None? || m.None? then InspectData(None, None, None, None, None, None)
    else
      InspectData(
        Some(Release(version.value, lock.value.version, lock.value.series)),
        Some(lock.value.sources),
        Some(Build(m.value.buildDirectory, m.value.machine, m.value.image, m.value.driver, m.value.layers)),
        Some(Emulator(m.value.profile, m.value.systemBinary)),
        Some(Runtime(m.value.suite, m.value.evidenceProfile, m.value.guestContract, m.value.evidenceSchema)),
        Some(lock.value.digest))
  }

  function ReportOf(g: Grammar, w: World, selector: Option<Word>, command: Command): Report
  {
    var checks := ChecksOf(g, w, selector, Sequence(command));
    var repository, catalog := RepositoryOf(g, w), CatalogOf(g, w);
    Report(
      command, Aggregate(checks).0,
      VersionOf(g, w),
      if repository.Some? then Some(repository.value.0) else None,
      if repository.Some? then Some(repository.value.1) else None,
      LabIdOf(g, w, selector),
      if catalog.Some? then Some(catalog.value.indexDigest) else None,
      ManifestDigestOf(g, w, selector),
      checks,
      DataOf(g, w, selector, command))
  }
}
