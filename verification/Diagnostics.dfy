// The mutating diagnostics context and its four commands (diagnostics.py, Context and
// command_document), each step tied to what the run should find.

module Diagnostics {
  import opened Wrappers
  import opened RuntimeEvidence
  import opened DiagnosticsContract
  import opened DiagnosticsWorld
  import opened DiagnosticsTheorem
  import opened DiagnosticsMeaning

  /** A document with its exit code, a refused selector, or a document that the run's own
      validator does not accept. */
  datatype Outcome = Printed(report: Report, exitCode: nat) | ArgumentError | InternalError

  class Context {
    const g: Grammar
    const world: World
    const selector: Option<Word>
    var labId: Option<Word>
    var version: Option<Word>
    var revision: Option<Word>
    var dirty: Option<bool>
    var activeTask: Option<Word>
    var gitState: Option<Tool>
    var lock: Option<Lock>
    var indexDigest: Option<Word>
    var manifests: Option<map<Word, Manifest>>
    var manifestDigests: Option<map<Word, Word>>
    var manifest: Option<Manifest>
    var manifestDigest: Option<Word>
    var evidenceRaw: Option<File>
    var evidenceDocument: Option<Document>
    var evidenceSummary: Option<EvidenceProjection>
    var labBinding: Option<Binding>
    var subjectMatches: Option<bool>
    var statuses: map<CheckId, Status>

    constructor (g: Grammar, world: World, selector: Option<Word>)
      ensures this.g == g && this.world == world && this.selector == selector && labId == selector
      ensures version == None && revision == None && dirty == None && activeTask == None && gitState == None && lock == None
      ensures indexDigest == None && manifests == None && manifestDigests == None && manifest == None && manifestDigest == None
      ensures evidenceRaw == None && evidenceDocument == None && evidenceSummary == None && labBinding == None
      ensures subjectMatches == None && statuses == map[]
    {
      this.g, this.world, this.selector, labId := g, world, selector, selector;
      version, revision, dirty, activeTask, gitState := None, None, None, None, None;
      lock, indexDigest, manifests, manifestDigests, manifest, manifestDigest := None, None, None, None, None, None;
      evidenceRaw, evidenceDocument, evidenceSummary, labBinding, subjectMatches := None, None, None, None, None;
      statuses := map[];
    }

    // ---- What each completed check leaves behind ----

    /** The check ran and recorded what it should find. */
    ghost predicate Recorded(id: CheckId)
      reads this`statuses
    {
      id in statuses && statuses[id] == StatusOf(g, world, selector, id)
    }

    ghost predicate VersionRead()
      reads this`version
    {
      version == VersionOf(g, world)
    }

    ghost predicate RepositoryRead()
      reads this`revision, this`dirty
    {
      var r := RepositoryOf(g, world);
      && revision == (if r.Some? then Some(r.value.0) else None)
      && dirty == (if r.Some? then Some(r.value.1) else None)
    }

    ghost predicate LockRead()
      reads this`lock
    {
      lock == LockOf(g, world)
    }

    ghost predicate CatalogRead()
      reads this`labId, this`indexDigest, this`manifests, this`manifestDigests
    {
      var c := CatalogOf(g, world);
      && labId == LabIdOf(g, world, selector)
      && indexDigest == (if c.Some? then Some(c.value.indexDigest) else None)
      && manifests == (if c.Some? then Some(c.value.manifests) else None)
      && manifestDigests == (if c.Some? then Some(c.value.digests) else None)
    }

    ghost predicate Selected()
      reads this`manifest, this`manifestDigest
    {
      manifest == ManifestOf(g, world, selector) && manifestDigest == ManifestDigestOf(g, world, selector)
    }

    ghost predicate DocumentRead()
      reads this`evidenceDocument, this`evidenceSummary, this`labBinding
    {
      var d := EvidenceOf(g, world, selector);
      && evidenceDocument == d
      && evidenceSummary == ProjectionOf(g, world, selector)
      && labBinding == if d.Some? then Some(if d.value.kind.Platform? then Bound else NotRecorded) else None
    }

    // ---- The checks ----

    method Record(id: CheckId, status: Status) returns (check: Check)
      requires status == StatusOf(g, world, selector, id)
      modifies this`statuses
      ensures statuses == old(statuses)[id := status]
      ensures check == CheckOf(g, world, selector, id)
    {
      StatusHasCheck(g, world, selector, id);
      hide StatusOf, MakeCheck;
      statuses := statuses[id := status];
      check := MakeCheck(id, status).value;
    }

    /** A check whose outcome was not usable, or that did not run. */
    predicate Blocked(id: CheckId)
      reads this`statuses
    {
      id !in statuses || !Usable(statuses[id])
    }

    method ReadProjectVersion() returns (check: Check)
      requires version == None
      modifies this`statuses, this`version
      ensures VersionRead() && check == CheckOf(g, world, selector, ProjectVersion)
      ensures statuses == old(statuses)[ProjectVersion := StatusOf(g, world, selector, ProjectVersion)]
    {
      ProjectVersionFound(g, world, selector);
      hide StatusOf, CheckOf;
      match world.versionFile
      case Unreadable => check := Record(ProjectVersion, Unavailable);
      case Rejected => check := Record(ProjectVersion, Fail);
      case Contents(value) =>
        if !g.version(value) {
          check := Record(ProjectVersion, Fail);
        } else {
          version := Some(value);
          check := Record(ProjectVersion, Pass);
        }
    }

    /** Git is resolved once. */
    method Git() returns (state: Tool)
      requires gitState.Some? ==> gitState == Some(world.git)
      modifies this`gitState
      ensures state == world.git && gitState == Some(world.git)
    {
      if gitState.None? {
        gitState := Some(world.git);
      }
      return gitState.value;
    }

    method Repository() returns (check: Check)
      requires revision == None && dirty == None && gitState == None
      modifies this`statuses, this`revision, this`dirty, this`gitState
      ensures RepositoryRead() && gitState == Some(world.git) && check == CheckOf(g, world, selector, RepositoryGit)
      ensures statuses == old(statuses)[RepositoryGit := StatusOf(g, world, selector, RepositoryGit)]
    {
      RepositoryFound(g, world, selector);
      hide StatusOf, CheckOf;
      var state := Git();
      if !state.ToolGood? {
        check := Record(RepositoryGit, ToolStatus(state));
        return;
      }
      if world.repository.None? || !g.sha1(world.repository.value.0) {
        check := Record(RepositoryGit, Fail);
        return;
      }
      revision, dirty := Some(world.repository.value.0), Some(world.repository.value.1);
      check := Record(RepositoryGit, Pass);
    }

    method Workflow() returns (check: Check)
      modifies this`statuses, this`activeTask
      ensures activeTask == TaskOf(g, world) && check == CheckOf(g, world, selector, WorkflowTask)
      ensures statuses == old(statuses)[WorkflowTask := StatusOf(g, world, selector, WorkflowTask)]
    {
      WorkflowFound(g, world, selector);
      hide StatusOf, CheckOf;
      activeTask := None;
      match world.workflow
      case Unreadable => check := Record(WorkflowTask, Unavailable);
      case Rejected => check := Record(WorkflowTask, Fail);
      case Contents(active) =>
        if !WorkflowGood(g, world) {
          check := Record(WorkflowTask, Fail);
        } else {
          activeTask := active;
          check := Record(WorkflowTask, Pass);
        }
    }

    method ReadSourceLock() returns (check: Check)
      requires lock == None
      modifies this`statuses, this`lock
      ensures LockRead() && check == CheckOf(g, world, selector, SourceLock)
      ensures statuses == old(statuses)[SourceLock := StatusOf(g, world, selector, SourceLock)]
    {
      SourceLockFound(g, world, selector);
      hide StatusOf, CheckOf, ValidLock;
      match world.lock
      case Unreadable => check := Record(SourceLock, Unavailable);
      case Rejected => check := Record(SourceLock, Fail);
      case Contents(value) =>
        if !ValidLock(g, value) {
          check := Record(SourceLock, Fail);
        } else {
          lock := Some(value);
          check := Record(SourceLock, Pass);
        }
    }

    method ReadLabCatalog() returns (check: Check)
      requires Recorded(SourceLock) && LockRead()
      requires labId == selector && indexDigest == None && manifests == None && manifestDigests == None
      modifies this`statuses, this`labId, this`indexDigest, this`manifests, this`manifestDigests
      ensures CatalogRead() && check == CheckOf(g, world, selector, LabCatalog)
      ensures statuses == old(statuses)[LabCatalog := StatusOf(g, world, selector, LabCatalog)]
    {
      SourceLockFound(g, world, selector);
      LabCatalogFound(g, world, selector);
      hide StatusOf, CheckOf, ValidLock, ValidCatalog;
      if Blocked(SourceLock) || lock.None? {
        check := Record(LabCatalog, Unavailable);
        return;
      }
      match world.index {
        case Unreadable =>
          check := Record(LabCatalog, Unavailable);
          return;
        case Rejected =>
          check := Record(LabCatalog, Fail);
          return;
        case Contents(defaultLab) =>
          if !g.labId(defaultLab) {
            check := Record(LabCatalog, Fail);
            return;
          }
          if labId.None? {
            labId := Some(defaultLab);
          }
      }
      match world.manifests
      case Unreadable => check := Record(LabCatalog, Unavailable);
      case Rejected => check := Record(LabCatalog, Fail);
      case Contents(catalog) =>
        if catalog.None? || !ValidCatalog(g, catalog.value) {
          check := Record(LabCatalog, Fail);
        } else {
          indexDigest := Some(catalog.value.indexDigest);
          manifests, manifestDigests := Some(catalog.value.manifests), Some(catalog.value.digests);
          check := Record(LabCatalog, Pass);
        }
    }

    /** None when the selector names no lab of a sound catalogue. */
    method Selection() returns (check: Option<Check>)
      requires Recorded(LabCatalog) && CatalogRead() && manifest == None && manifestDigest == None
      modifies this`statuses, this`manifest, this`manifestDigest
      ensures check.None? <==> UnknownLab(g, world, selector)
      ensures check.Some? ==> Selected() && check.value == CheckOf(g, world, selector, LabSelection)
      ensures check.Some? ==> statuses == old(statuses)[LabSelection := StatusOf(g, world, selector, LabSelection)]
    {
      LabCatalogFound(g, world, selector);
      SelectionFound(g, world, selector);
      CatalogKeys(g, world);
      hide StatusOf, CheckOf, CatalogOf, LabIdOf;
      var made;
      if Blocked(LabCatalog) || manifests.None? || manifestDigests.None? {
        made := Record(LabSelection, Unavailable);
        return Some(made);
      }
      if labId.None? || labId.value !in manifests.value || labId.value !in manifestDigests.value {
        return None;
      }
      manifest := Some(manifests.value[labId.value]);
      manifestDigest := Some(manifestDigests.value[labId.value]);
      made := Record(LabSelection, Pass);
      return Some(made);
    }

    method Cleanliness() returns (check: Check)
      requires Recorded(RepositoryGit) && RepositoryRead()
      modifies this`statuses
      ensures check == CheckOf(g, world, selector, RepositoryClean)
      ensures statuses == old(statuses)[RepositoryClean := StatusOf(g, world, selector, RepositoryClean)]
    {
      RepositoryFound(g, world, selector);
      CleanFound(g, world, selector);
      hide StatusOf, CheckOf, RepositoryOf;
      if Blocked(RepositoryGit) || dirty.None? {
        check := Record(RepositoryClean, Unavailable);
        return;
      }
      check := Record(RepositoryClean, if dirty.value then Warning else Pass);
    }

    method ReadToolGit() returns (check: Check)
      requires gitState == Some(world.git)
      modifies this`statuses, this`gitState
      ensures gitState == old(gitState) && check == CheckOf(g, world, selector, ToolGit)
      ensures statuses == old(statuses)[ToolGit := StatusOf(g, world, selector, ToolGit)]
    {
      ToolsFound(g, world, selector);
      hide StatusOf, CheckOf;
      var state := Git();
      check := Record(ToolGit, ToolStatus(state));
    }

    method ReadToolSsh() returns (check: Check)
      modifies this`statuses
      ensures check == CheckOf(g, world, selector, ToolSsh)
      ensures statuses == old(statuses)[ToolSsh := StatusOf(g, world, selector, ToolSsh)]
    {
      ToolsFound(g, world, selector);
      hide StatusOf, CheckOf;
      match world.ssh
      case ToolMissing => check := Record(ToolSsh, Unavailable);
      case ToolBroken => check := Record(ToolSsh, Fail);
      case ToolGood => check := Record(ToolSsh, Pass);
    }

    method SourceCheckout(source: SourceId) returns (check: Check)
      requires Recorded(ToolGit) && Recorded(SourceLock) && LockRead() && gitState == Some(world.git)
      modifies this`statuses
      ensures check == CheckOf(g, world, selector, Source(source))
      ensures statuses == old(statuses)[Source(source) := StatusOf(g, world, selector, Source(source))]
    {
      ToolsFound(g, world, selector);
      SourceLockFound(g, world, selector);
      CheckoutFound(g, world, selector, source);
      hide StatusOf, CheckOf, LockOf;
      if Blocked(ToolGit) || Blocked(SourceLock) || lock.None? || gitState != Some(ToolGood) {
        check := Record(Source(source), Unavailable);
        return;
      }
      match world.checkouts(source)
      case NoDirectory => check := Record(Source(source), Unavailable);
      case BadDirectory => check := Record(Source(source), Fail);
      case QueryFailed => check := Record(Source(source), Fail);
      case Differs => check := Record(Source(source), Fail);
      case Matches => check := Record(Source(source), Pass);
    }

    method BuildFile(id: CheckId) returns (check: Check)
      requires id.LocalConf? || id.BblayersConf?
      requires Recorded(LabSelection) && Selected()
      modifies this`statuses
      ensures check == CheckOf(g, world, selector, id)
      ensures statuses == old(statuses)[id := StatusOf(g, world, selector, id)]
    {
      SelectionFound(g, world, selector);
      FilesFound(g, world, selector);
      hide StatusOf, CheckOf, ManifestOf, CatalogOf, ManifestDigestOf;
      if Blocked(LabSelection) || manifest.None? {
        check := Record(id, Unavailable);
        return;
      }
      match if id.LocalConf? then world.localConf else world.bblayersConf
      case Unreadable => check := Record(id, Unavailable);
      case Rejected => check := Record(id, Fail);
      case Contents(_) => check := Record(id, Pass);
    }

    method ReadEvidenceFile() returns (check: Check)
      requires Recorded(LabSelection) && Selected() && evidenceRaw == None
      modifies this`statuses, this`evidenceRaw
      ensures evidenceRaw == FileOf(g, world, selector) && check == CheckOf(g, world, selector, EvidenceFile)
      ensures statuses == old(statuses)[EvidenceFile := StatusOf(g, world, selector, EvidenceFile)]
    {
      SelectionFound(g, world, selector);
      FilesFound(g, world, selector);
      hide StatusOf, CheckOf, ManifestOf, CatalogOf, ManifestDigestOf;
      if Blocked(LabSelection) || manifest.None? {
        check := Record(EvidenceFile, Unavailable);
        return;
      }
      match world.evidence
      case Unreadable => check := Record(EvidenceFile, Unavailable);
      case Rejected => check := Record(EvidenceFile, Fail);
      case Contents(file) =>
        evidenceRaw := Some(file);
        check := Record(EvidenceFile, Pass);
    }

    /** A parsed document of a supported kind that validates and is safe to print. */
    method Acceptable(file: File) returns (ok: bool)
      ensures ok <==> file.document.Some? && SafeDocument(g, file.document.value)
    {
      if file.document.None? {
        return false;
      }
      var d := file.document.value;
      if d.kind.OtherKind? {
        return false;
      }
      ok := ValidateEvidence(d, g, false);
      ok := ok && g.version(d.projectVersion) && g.token(d.machine) && g.token(d.image);
    }

    method ReadEvidenceDocument() returns (check: Check)
      requires Recorded(EvidenceFile) && Recorded(LabSelection) && Selected() && VersionRead()
      requires evidenceRaw == FileOf(g, world, selector)
      requires evidenceDocument == None && evidenceSummary == None && labBinding == None
      modifies this`statuses, this`evidenceDocument, this`evidenceSummary, this`labBinding
      ensures DocumentRead() && check == CheckOf(g, world, selector, EvidenceDocument)
      ensures statuses == old(statuses)[EvidenceDocument := StatusOf(g, world, selector, EvidenceDocument)]
    {
      SelectionFound(g, world, selector);
      FilesFound(g, world, selector);
      EvidenceFound(g, world, selector);
      FileIsEvidence(g, world, selector);
      hide StatusOf, CheckOf, ManifestOf, CatalogOf, ManifestDigestOf, VersionOf, FileOf, SafeDocument, LabIdOf;
      if Blocked(EvidenceFile) || Blocked(LabSelection) || evidenceRaw.None? {
        check := Record(EvidenceDocument, Unavailable);
        return;
      }
      var ok := Acceptable(evidenceRaw.value);
      if !ok {
        check := Record(EvidenceDocument, Fail);
        return;
      }
      var d := evidenceRaw.value.document.value;
      evidenceDocument := Some(d);
      labBinding := Some(if d.kind.Platform? then Bound else NotRecorded);
      if version.Some? && manifest.Some? && d.projectVersion == version.value
         && d.machine == manifest.value.machine && d.image == manifest.value.image {
        evidenceSummary := Some(Project(d, evidenceRaw.value.digest));
      }
      check := Record(EvidenceDocument, Pass);
    }

    /** A required pass: by the lemma on accepted evidence, a passing result and a clean tree. */
    method CheckEvidenceResult() returns (check: Check)
      requires Recorded(EvidenceDocument) && DocumentRead()
      modifies this`statuses
      ensures check == CheckOf(g, world, selector, EvidenceResult)
      ensures statuses == old(statuses)[EvidenceResult := StatusOf(g, world, selector, EvidenceResult)]
    {
      EvidenceFound(g, world, selector);
      EvidenceIsAccepted(g, world, selector);
      hide StatusOf, CheckOf, EvidenceOf, ProjectionOf, FileOf, Accepted, ManifestOf;
      if Blocked(EvidenceDocument) || evidenceDocument.None? {
        check := Record(EvidenceResult, Unavailable);
        return;
      }
      var ok := ValidateEvidence(evidenceDocument.value, g, true);
      check := Record(EvidenceResult, if ok then Pass else Fail);
    }

    method CheckEvidenceInputs() returns (check: Check)
      requires Recorded(ProjectVersion) && Recorded(EvidenceDocument) && Recorded(SourceLock) && Recorded(LabSelection)
      requires VersionRead() && LockRead() && CatalogRead() && Selected() && DocumentRead()
      modifies this`statuses
      ensures check == CheckOf(g, world, selector, EvidenceInputs)
      ensures statuses == old(statuses)[EvidenceInputs := StatusOf(g, world, selector, EvidenceInputs)]
    {
      InputsAreReady(g, world, selector);
      hide StatusOf, CheckOf, EvidenceOf, ProjectionOf, ManifestOf, CatalogOf, ManifestDigestOf, VersionOf, FileOf, LabIdOf, LockOf;
      if Blocked(ProjectVersion) || Blocked(EvidenceDocument) || Blocked(SourceLock) || Blocked(LabSelection)
         || evidenceDocument.None? || manifest.None? {
        check := Record(EvidenceInputs, Unavailable);
        return;
      }
      var d := evidenceDocument.value;
      var matching :=
        && lock.Some? && d.sourceLock == lock.value.digest
        && version == Some(d.projectVersion)
        && d.machine == manifest.value.machine
        && d.image == manifest.value.image
        && d.version == manifest.value.evidenceSchema;
      if labBinding == Some(Bound) {
        matching := matching && d.kind.Platform? && d.lab == labId && d.labIndex == indexDigest && d.labManifest == manifestDigest;
        check := Record(EvidenceInputs, if matching then Pass else Fail);
        return;
      }
      matching := matching && d.kind.Pci?;
      check := Record(EvidenceInputs, if matching then Warning else Fail);
    }

    method CheckEvidenceSubject() returns (check: Check)
      requires Recorded(EvidenceDocument) && Recorded(EvidenceResult) && Recorded(RepositoryGit)
      requires RepositoryRead() && DocumentRead() && subjectMatches == None
      modifies this`statuses, this`subjectMatches
      ensures subjectMatches == SubjectOf(g, world, selector) && check == CheckOf(g, world, selector, EvidenceSubject)
      ensures statuses == old(statuses)[EvidenceSubject := StatusOf(g, world, selector, EvidenceSubject)]
    {
      EvidenceFound(g, world, selector);
      RepositoryFound(g, world, selector);
      hide StatusOf, CheckOf, EvidenceOf, ProjectionOf, FileOf, RepositoryOf, ResultStatus, ManifestOf;
      if Blocked(EvidenceDocument) || Blocked(EvidenceResult) || Blocked(RepositoryGit)
         || evidenceDocument.None? || revision.None? {
        check := Record(EvidenceSubject, Unavailable);
        return;
      }
      subjectMatches := Some(evidenceDocument.value.revision == revision.value);
      check := Record(EvidenceSubject, if subjectMatches.value then Pass else Warning);
    }

    // ---- The commands ----

    ghost predicate Fresh()
      reads this
    {
      && labId == selector && version == None && revision == None && dirty == None && activeTask == None && gitState == None
      && lock == None && indexDigest == None && manifests == None && manifestDigests == None && manifest == None
      && manifestDigest == None && NoEvidence()
    }

    ghost predicate NoEvidence()
      reads this`evidenceRaw, this`evidenceDocument, this`evidenceSummary, this`labBinding, this`subjectMatches
    {
      evidenceRaw == None && evidenceDocument == None && evidenceSummary == None && labBinding == None && subjectMatches == None
    }

    /** The fields of the base checks. */
    ghost predicate FieldsRead()
      reads this`version, this`revision, this`dirty, this`lock, this`labId, this`indexDigest, this`manifests, this`manifestDigests
      reads this`manifest, this`manifestDigest
    {
      VersionRead() && RepositoryRead() && LockRead() && CatalogRead() && Selected()
    }

    /** The base checks are done. */
    ghost predicate BaseRead()
      reads this
    {
      && FieldsRead() && gitState == Some(world.git)
      && Recorded(ProjectVersion) && Recorded(RepositoryGit) && Recorded(SourceLock) && Recorded(LabSelection)
    }

    /** The version, the repository and, where asked, the workflow. */
    method IdentityChecks(command: Command) returns (items: seq<Check>)
      requires Fresh()
      modifies this`statuses, this`version, this`revision, this`dirty, this`gitState, this`activeTask
      ensures items == ChecksOf(g, world, selector, IdentityIds(command))
      ensures VersionRead() && RepositoryRead() && gitState == Some(world.git)
      ensures Recorded(ProjectVersion) && Recorded(RepositoryGit)
      ensures command.StatusCommand? || command.Doctor? ==> activeTask == TaskOf(g, world)
    {
      hide StatusOf, CheckOf, VersionOf, RepositoryOf, TaskOf, ChecksOf;
      hide VersionRead, RepositoryRead;
      var version := ReadProjectVersion();
      var repository := Repository();
      items := [version, repository];
      if command.StatusCommand? || command.Doctor? {
        var workflow := Workflow();
        items := items + [workflow];
      }
      IdentityCheckList(g, world, selector, command);
    }

    /** The locked inputs, down to the selected lab; None when it is unknown. */
    method InputChecks() returns (items: Option<seq<Check>>)
      requires labId == selector && lock == None && indexDigest == None && manifests == None && manifestDigests == None
      requires manifest == None && manifestDigest == None
      modifies this`statuses, this`lock, this`labId, this`indexDigest, this`manifests, this`manifestDigests
      modifies this`manifest, this`manifestDigest
      ensures items.None? <==> UnknownLab(g, world, selector)
      ensures items.Some? ==> items.value == ChecksOf(g, world, selector, INPUT_CHECKS)
      ensures items.Some? ==> LockRead() && CatalogRead() && Selected() && Recorded(SourceLock) && Recorded(LabSelection)
      ensures items.Some? && old(Recorded(ProjectVersion)) ==> Recorded(ProjectVersion)
      ensures items.Some? && old(Recorded(RepositoryGit)) ==> Recorded(RepositoryGit)
    {
      hide StatusOf, CheckOf, ManifestOf, CatalogOf, ManifestDigestOf, LabIdOf, LockOf, UnknownLab, ChecksOf;
      hide LockRead, CatalogRead, Selected;
      var lock := ReadSourceLock();
      var catalog := ReadLabCatalog();
      var selection := Selection();
      if selection.None? {
        return None;
      }
      InputCheckList(g, world, selector);
      return Some([lock, catalog, selection.value]);
    }

    /** The checks every command starts with; None for an unknown lab. */
    method Base(command: Command) returns (items: Option<seq<Check>>)
      requires Fresh()
      modifies this
      ensures items.None? <==> UnknownLab(g, world, selector)
      ensures items.Some? ==> items.value == ChecksOf(g, world, selector, BaseIds(command)) && BaseRead() && NoEvidence()
      ensures items.Some? && (command.StatusCommand? || command.Doctor?) ==> activeTask == TaskOf(g, world)
    {
      hide StatusOf, CheckOf, ManifestOf, CatalogOf, ManifestDigestOf, VersionOf, LabIdOf, LockOf, RepositoryOf, TaskOf, UnknownLab,
        ChecksOf;
      hide VersionRead, RepositoryRead, LockRead, CatalogRead, Selected;
      var identity := IdentityChecks(command);
      var inputs := InputChecks();
      if inputs.None? {
        return None;
      }
      ChecksConcat(g, world, selector, IdentityIds(command), INPUT_CHECKS);
      return Some(identity + inputs.value);
    }

    method EvidenceChecks() returns (items: seq<Check>)
      requires BaseRead() && NoEvidence()
      modifies this`statuses, this`evidenceRaw, this`evidenceDocument, this`evidenceSummary, this`labBinding, this`subjectMatches
      ensures items == ChecksOf(g, world, selector, EVIDENCE_CHECKS)
      ensures DocumentRead() && subjectMatches == SubjectOf(g, world, selector)
    {
      hide StatusOf, CheckOf, EvidenceOf, ProjectionOf, ManifestOf, CatalogOf, ManifestDigestOf, VersionOf, FileOf, LabIdOf, LockOf,
        RepositoryOf, SubjectOf, ChecksOf;
      hide VersionRead, RepositoryRead, LockRead, CatalogRead, Selected, DocumentRead;
      var file := ReadEvidenceFile();
      var document := ReadEvidenceDocument();
      var result := CheckEvidenceResult();
      var inputs := CheckEvidenceInputs();
      var subject := CheckEvidenceSubject();
      EvidenceCheckList(g, world, selector);
      return [file, document, result, inputs, subject];
    }

    method ToolChecks() returns (items: seq<Check>)
      requires BaseRead()
      modifies this`statuses, this`gitState
      ensures items == ChecksOf(g, world, selector, TOOL_CHECKS) && BaseRead() && Recorded(ToolGit)
    {
      hide StatusOf, CheckOf, ChecksOf;
      hide VersionRead, RepositoryRead, LockRead, CatalogRead, Selected;
      var git := ReadToolGit();
      var ssh := ReadToolSsh();
      ToolCheckList(g, world, selector);
      return [git, ssh];
    }

    method SourceChecks() returns (items: seq<Check>)
      requires BaseRead() && Recorded(ToolGit)
      modifies this`statuses
      ensures items == ChecksOf(g, world, selector, SOURCE_CHECKS) && BaseRead()
    {
      hide StatusOf, CheckOf, ChecksOf;
      hide VersionRead, RepositoryRead, LockRead, CatalogRead, Selected;
      var bitbake := SourceCheckout(BitBake);
      var core := SourceCheckout(OpenEmbeddedCore);
      var meta := SourceCheckout(MetaYocto);
      SourceCheckList(g, world, selector);
      return [bitbake, core, meta];
    }

    method BuildChecks() returns (items: seq<Check>)
      requires BaseRead()
      modifies this`statuses
      ensures items == ChecksOf(g, world, selector, BUILD_CHECKS) && BaseRead()
    {
      hide StatusOf, CheckOf, ChecksOf;
      hide VersionRead, RepositoryRead, LockRead, CatalogRead, Selected;
      var local := BuildFile(LocalConf);
      var layers := BuildFile(BblayersConf);
      BuildCheckList(g, world, selector);
      return [local, layers];
    }

    /** The checks of tools, sources and build files that the doctor adds. */
    method DoctorChecks() returns (items: seq<Check>)
      requires BaseRead()
      modifies this`statuses, this`gitState
      ensures items == ChecksOf(g, world, selector, TOOL_CHECKS + SOURCE_CHECKS + BUILD_CHECKS) && BaseRead()
    {
      hide StatusOf, CheckOf, ChecksOf;
      hide VersionRead, RepositoryRead, LockRead, CatalogRead, Selected;
      var tools := ToolChecks();
      var sources := SourceChecks();
      var files := BuildChecks();
      ChecksConcat(g, world, selector, TOOL_CHECKS, SOURCE_CHECKS);
      ChecksConcat(g, world, selector, TOOL_CHECKS + SOURCE_CHECKS, BUILD_CHECKS);
      return tools + sources + files;
    }

    /** The document of the completed checks, as command_document puts it together. */
    method Assemble(command: Command, items: seq<Check>) returns (report: Report)
      requires items == ChecksOf(g, world, selector, Sequence(command))
      requires FieldsRead()
      requires command.StatusCommand? || command.Doctor? ==> activeTask == TaskOf(g, world)
      requires command.Doctor? || command.EvidenceCommand? ==> DocumentRead() && subjectMatches == SubjectOf(g, world, selector)
      ensures report == ReportOf(g, world, selector, command) && report.checks == items
    {
      hide StatusOf, CheckOf, EvidenceOf, ProjectionOf, ManifestOf, CatalogOf, ManifestDigestOf, VersionOf, FileOf, LabIdOf, LockOf,
        RepositoryOf, SubjectOf, ChecksOf, Sequence, Aggregate, TaskOf;
      var data;
      match command {
        case StatusCommand =>
          data := StatusData(
            activeTask,
            if lock.Some? then Some(LockProjection(lock.value.digest, lock.value.version, lock.value.series)) else None,
            if manifest.Some? then Some(LabProjectionOf(manifest.value)) else None);
        case Doctor => data := DoctorData(activeTask, evidenceSummary);
        case Inspect => data := InspectDataOf(version, lock, manifest);
        case EvidenceCommand =>
          data := EvidenceData(
            evidenceSummary,
            if evidenceDocument.Some? && labBinding.Some?
            then Some(InputsProjection(
              labBinding.value, evidenceDocument.value.labIndex, evidenceDocument.value.labManifest)) else None,
            subjectMatches);
      }
      report := Report(
        command, Aggregate(items).0, version, revision, dirty, labId, indexDigest, manifestDigest, items, data);
    }

    /** One command. The run prints the document it should, unless the lab is unknown or
        the manifest to inspect has too many layers. */
    method Run(command: Command) returns (outcome: Outcome)
      requires Fresh() && Hashed(g, world) && (selector.Some? ==> g.labId(selector.value))
      modifies this
      ensures outcome.ArgumentError? <==> UnknownLab(g, world, selector)
      ensures outcome.InternalError? <==>
              !UnknownLab(g, world, selector) && command.Inspect? && TooManyLayers(g, world, selector)
      ensures outcome.Printed? ==>
        && outcome.report == ReportOf(g, world, selector, command) && Validates(g, outcome.report)
        && outcome.exitCode == Aggregate(outcome.report.checks).1
    {
      hide StatusOf, CheckOf, EvidenceOf, ProjectionOf, ManifestOf, CatalogOf, ManifestDigestOf, VersionOf, FileOf, LabIdOf, LockOf,
        RepositoryOf, SubjectOf, ChecksOf, Sequence, Aggregate, TaskOf, UnknownLab, ReportOf, Validates, TooManyLayers;
      hide VersionRead, RepositoryRead, LockRead, CatalogRead, Selected, DocumentRead;
      var items := Base(command);
      if items.None? {
        return ArgumentError;
      }
      SequenceIs(command);
      var checks := items.value;
      match command {
        case StatusCommand =>
          var clean := Cleanliness();
          OneCheck(g, world, selector, RepositoryClean);
          ChecksConcat(g, world, selector, BaseIds(command), [RepositoryClean]);
          checks := checks + [clean];
        case Doctor =>
          var doctor := DoctorChecks();
          var evidence := EvidenceChecks();
          ChecksConcat(g, world, selector, BaseIds(command), TOOL_CHECKS + SOURCE_CHECKS + BUILD_CHECKS);
          ChecksConcat(g, world, selector, BaseIds(command) + (TOOL_CHECKS + SOURCE_CHECKS + BUILD_CHECKS), EVIDENCE_CHECKS);
          checks := checks + doctor + evidence;
        case Inspect =>
        case EvidenceCommand =>
          var evidence := EvidenceChecks();
          ChecksConcat(g, world, selector, BaseIds(command), EVIDENCE_CHECKS);
          checks := checks + evidence;
      }
      var report := Assemble(command, checks);
      ReportValidates(g, world, selector, command);
      if !Validates(g, report) {
        return InternalError;
      }
      return Printed(report, Aggregate(checks).1);
    }
  }

  // ---- Lists of checks ----

  const INPUT_CHECKS: seq<CheckId> := [SourceLock, LabCatalog, LabSelection]
  const TOOL_CHECKS: seq<CheckId> := [ToolGit, ToolSsh]
  const SOURCE_CHECKS: seq<CheckId> := [Source(BitBake), Source(OpenEmbeddedCore), Source(MetaYocto)]
  const BUILD_CHECKS: seq<CheckId> := [LocalConf, BblayersConf]

  function IdentityIds(command: Command): seq<CheckId>
  {
    if command.StatusCommand? || command.Doctor? then [ProjectVersion, RepositoryGit, WorkflowTask]
    else [ProjectVersion, RepositoryGit]
  }

  function BaseIds(command: Command): seq<CheckId>
  {
    IdentityIds(command) + INPUT_CHECKS
  }

  lemma OneCheck(g: Grammar, w: World, selector: Option<Word>, id: CheckId)
    ensures ChecksOf(g, w, selector, [id]) == [CheckOf(g, w, selector, id)]
  {
    hide CheckOf;
  }

  lemma IdentityCheckList(g: Grammar, w: World, selector: Option<Word>, command: Command)
    ensures
      var c := (id: CheckId) => CheckOf(g, w, selector, id);
      ChecksOf(g, w, selector, IdentityIds(command)) ==
      [c(ProjectVersion), c(RepositoryGit)] + if command.StatusCommand? || command.Doctor? then [c(WorkflowTask)] else []
  {
    hide CheckOf;
  }

  lemma InputCheckList(g: Grammar, w: World, selector: Option<Word>)
    ensures
      var c := (id: CheckId) => CheckOf(g, w, selector, id);
      ChecksOf(g, w, selector, INPUT_CHECKS) == [c(SourceLock), c(LabCatalog), c(LabSelection)]
  {
    hide CheckOf;
  }

  lemma ToolCheckList(g: Grammar, w: World, selector: Option<Word>)
    ensures
      var c := (id: CheckId) => CheckOf(g, w, selector, id);
      ChecksOf(g, w, selector, TOOL_CHECKS) == [c(ToolGit), c(ToolSsh)]
  {
    hide CheckOf;
  }

  lemma SourceCheckList(g: Grammar, w: World, selector: Option<Word>)
    ensures
      var c := (id: CheckId) => CheckOf(g, w, selector, id);
      ChecksOf(g, w, selector, SOURCE_CHECKS) == [c(Source(BitBake)), c(Source(OpenEmbeddedCore)), c(Source(MetaYocto))]
  {
    hide CheckOf;
  }

  lemma BuildCheckList(g: Grammar, w: World, selector: Option<Word>)
    ensures
      var c := (id: CheckId) => CheckOf(g, w, selector, id);
      ChecksOf(g, w, selector, BUILD_CHECKS) == [c(LocalConf), c(BblayersConf)]
  {
    hide CheckOf;
  }

  lemma EvidenceCheckList(g: Grammar, w: World, selector: Option<Word>)
    ensures
      var c := (id: CheckId) => CheckOf(g, w, selector, id);
      ChecksOf(g, w, selector, EVIDENCE_CHECKS) ==
      [c(EvidenceFile), c(EvidenceDocument), c(EvidenceResult), c(EvidenceInputs), c(EvidenceSubject)]
  {
    hide CheckOf;
  }

  lemma ChecksConcat(g: Grammar, w: World, selector: Option<Word>, a: seq<CheckId>, b: seq<CheckId>)
    ensures ChecksOf(g, w, selector, a + b) == ChecksOf(g, w, selector, a) + ChecksOf(g, w, selector, b)
  {
    hide CheckOf;
  }

  /** Each command runs its checks in the declared order. */
  lemma SequenceIs(command: Command)
    ensures
      Sequence(command) ==
      match command
      case StatusCommand => BaseIds(command) + [RepositoryClean]
      case Doctor => BaseIds(command) + (TOOL_CHECKS + SOURCE_CHECKS + BUILD_CHECKS) + EVIDENCE_CHECKS
      case Inspect => BaseIds(command)
      case EvidenceCommand => BaseIds(command) + EVIDENCE_CHECKS
  {
  }

  /** One command over one environment: a malformed selector is refused like an unknown
      lab, and every other document that is printed has passed the validator. It passes
      exactly when all that the command looks at is healthy, and the exit code is 1 when
      something is broken and 3 when something required is only out of reach. */
  method CommandDocument(g: Grammar, world: World, selector: Option<Word>, command: Command) returns (outcome: Outcome)
    requires Hashed(g, world)
    ensures outcome.ArgumentError? <==>
      (selector.Some? && !g.labId(selector.value)) || (CatalogSound(g, world) && !LabSound(g, world, selector))
    ensures outcome.InternalError? <==> Proper(g, world, selector) && command.Inspect? && TooManyLayers(g, world, selector)
    ensures outcome.Printed? ==>
      && outcome.report == ReportOf(g, world, selector, command) && Validates(g, outcome.report)
      && outcome.exitCode == Aggregate(outcome.report.checks).1
      && (outcome.report.result.Pass? <==> Healthy(g, world, selector, command))
    ensures outcome.Printed? ==>
      var broken := exists id :: id in Sequence(command) && Broken(g, world, selector, id);
      var absent := exists id :: id in Sequence(command) && !Advisory(id) && Absent(g, world, selector, id);
      outcome.exitCode == if broken then 1 else if absent then 3 else 0
  {
    hide StatusOf, CheckOf, EvidenceOf, ProjectionOf, ManifestOf, CatalogOf, ManifestDigestOf, VersionOf, FileOf, LabIdOf, LockOf,
      RepositoryOf, SubjectOf, ChecksOf, Sequence, Aggregate, TaskOf, UnknownLab, ReportOf, Validates, TooManyLayers,
      CatalogSound, LabSound, Healthy, Broken, Absent, Sound;
    UnknownLabMeans(g, world, selector);
    if selector.Some? && !g.labId(selector.value) {
      return ArgumentError;
    }
    var context := new Context(g, world, selector);
    outcome := context.Run(command);
    if outcome.Printed? {
      ResultMeans(g, world, selector, command);
      PassingMeans(g, world, selector, command);
    }
  }
}
