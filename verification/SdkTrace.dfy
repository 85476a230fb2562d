// What one SDK iteration does to the outside (sdk_iteration.py), as a growing record, and
// what such a record proves about restorative cleanup and about the published claims.

module SdkTrace {
  import opened Wrappers
  import D = DeferredCancellation
  import C = SdkConfiguration

  /** Exceptions, as far as the controller's handlers tell them apart. A cancellation is a
      kind of SDK error; a keyboard interrupt and other errors are not. */
  datatype Exc = SdkError | Cancelled(signal: D.Signal) | Interrupted | OtherError

  type Reply<T> = Result<T, Exc>

  function KindOf(e: Exc): D.Kind
  {
    match e
    case Cancelled(s) => D.Cancelled(s)
    case SdkError => D.Failed(0)
    case Interrupted => D.Failed(1)
    case OtherError => D.Failed(2)
  }

  /** A result as the deferral regions see it, with the signals noted on its exception. */
  function Ending<T>(r: Reply<T>, notes: seq<D.Signal>): D.Outcome
  {
    match r
    case Ok(_) => D.Returned
    case Raise(e) => D.Raised(D.Exc(KindOf(e), notes))
  }

  /** A SHA-256 digest, as a number. */
  type Digest = nat

  datatype Event =
    // Inside one cleanup call.
    | CleanupBegins
    | Recognised(state: C.State)
    | WorkspaceVerified
    | UndeployTarget
    | DevtoolStatus
    | DevtoolReset
    | RemoveLayer
    | BaseConfigured(ok: bool)
    | CompositionQuery
    | Caught(exc: Exc)
    | LeakedEarly(exc: Exc)      // no handler of the step accepts it: cleanup ends here,
    | LeakedLate(exc: Exc)       // before or after its last restoration of the base
    | CleanupReturned
    // The lifecycle proper; `boot` numbers the runqemu sessions.
    | SourcePrepared(digest: Digest)
    | ArtifactBuilt(digest: Digest)
    | Booted(boot: nat)
    | AbsentOn(boot: nat)        // the guest found no sample binary
    | MachineOn(boot: nat, architecture: string)
    | DeployedTo(boot: nat)
    | DigestOn(boot: nat, digest: Digest, path: string)
    | OutputOn(boot: nat, text: string)
    | UndeployedFrom(boot: nat)
    | Stopped(boot: nat)
    | SourceRetained(digest: Digest)
    | Published

  /** Events in the order they happened, the latest outermost. */
  datatype Trace = Empty | Then(earlier: Trace, event: Event)

  // ---- Cleanup ----

  /** What is known since the current cleanup began. */
  datatype Watch = Watch(
    workspaceRecognised: bool,
    workspaceVerified: bool,
    baseRecognised: bool,
    guarded: bool,           // every tool so far ran with the authority it needs
    restoredLast: bool,      // base was configured, and no tool ran since
    leakedEarly: bool,
    leakedLate: bool)

  const UNSEEN: Watch := Watch(false, false, false, true, false, false, false)

  function Observe(w: Watch, e: Event): Watch
  {
    match e
    case CleanupBegins => UNSEEN.(guarded := w.guarded)
    case Recognised(state) =>
      w.(workspaceRecognised := w.workspaceRecognised || state == C.Workspace,
         baseRecognised := state == C.Base)
    case WorkspaceVerified => w.(workspaceVerified := true)
    case UndeployTarget | DevtoolStatus | DevtoolReset | RemoveLayer =>
      w.(guarded := w.guarded && w.workspaceRecognised && w.workspaceVerified,
         baseRecognised := false, restoredLast := false)
    case BaseConfigured(_) => w.(restoredLast := true)
    case CompositionQuery => w.(guarded := w.guarded && w.baseRecognised)
    case LeakedEarly(_) => w.(leakedEarly := true)
    case LeakedLate(_) => w.(leakedLate := true)
    case _ => w
  }

  function Watched(t: Trace): Watch
  {
    match t
    case Empty => UNSEEN
    case Then(earlier, e) => Observe(Watched(earlier), e)
  }

  // What the watch means, said of the trace alone.

  predicate IsTool(e: Event)
  {
    e.UndeployTarget? || e.DevtoolStatus? || e.DevtoolReset? || e.RemoveLayer?
  }

  predicate Prefix(s: Trace, t: Trace)
  {
    s == t || (t.Then? && Prefix(s, t.earlier))
  }

  /** The event happened in the current cleanup. */
  predicate Since(t: Trace, e: Event)
  {
    t.Then? && !t.event.CleanupBegins? && (t.event == e || Since(t.earlier, e))
  }

  /** The base was recognised, and since then neither another state nor a tool. */
  predicate BaseStands(t: Trace)
  {
    && t.Then? && !t.event.CleanupBegins? && !IsTool(t.event)
    && (if t.event.Recognised? then t.event.state == C.Base else BaseStands(t.earlier))
  }

  /** Base was configured in the current cleanup, and no tool ran afterwards. */
  predicate RestorationStands(t: Trace)
  {
    && t.Then? && !t.event.CleanupBegins? && !IsTool(t.event)
    && (t.event.BaseConfigured? || RestorationStands(t.earlier))
  }

  /** One event, seen by each reading of the watch. */
  lemma ObserveMeans(w: Watch, e: Event)
    ensures
      var v := Observe(w, e);
      && (v.workspaceRecognised <==> !e.CleanupBegins? && (w.workspaceRecognised || (e.Recognised? && e.state.Workspace?)))
      && (v.workspaceVerified <==> !e.CleanupBegins? && (w.workspaceVerified || e.WorkspaceVerified?))
      && (v.baseRecognised <==>
            !e.CleanupBegins? && !IsTool(e) && (if e.Recognised? then e.state.Base? else w.baseRecognised))
      && (v.restoredLast <==> !e.CleanupBegins? && !IsTool(e) && (e.BaseConfigured? || w.restoredLast))
  {
  }

  lemma {:induction false} AuthorityMeans(t: Trace)
    ensures Watched(t).workspaceRecognised <==> Since(t, Recognised(C.Workspace))
    ensures Watched(t).workspaceVerified <==> Since(t, WorkspaceVerified)
  {
    hide Observe;
    if t.Then? {
      AuthorityMeans(t.earlier);
      ObserveMeans(Watched(t.earlier), t.event);
    }
  }

  lemma {:induction false} RestorationMeans(t: Trace)
    ensures Watched(t).baseRecognised <==> BaseStands(t)
    ensures Watched(t).restoredLast <==> RestorationStands(t)
  {
    hide Observe;
    if t.Then? {
      RestorationMeans(t.earlier);
      ObserveMeans(Watched(t.earlier), t.event);
    }
  }

  /** Authority is never regained within a trace: what guards an event guards its prefix. */
  lemma ObserveGuards(w: Watch, e: Event)
    requires Observe(w, e).guarded
    ensures w.guarded
    ensures IsTool(e) ==> w.workspaceRecognised && w.workspaceVerified
    ensures e.CompositionQuery? ==> w.baseRecognised
  {
  }

  /** In a guarded trace, at every point of it: a tool had the workspace configuration
      recognised and the workspace verified earlier in the same cleanup, and a composition
      query had the base authenticated with nothing undone since. */
  lemma {:induction false} GuardedMeansAuthorised(s: Trace, t: Trace)
    requires Prefix(s, t) && Watched(t).guarded && s.Then?
    ensures IsTool(s.event) ==> Since(s.earlier, Recognised(C.Workspace)) && Since(s.earlier, WorkspaceVerified)
    ensures s.event.CompositionQuery? ==> BaseStands(s.earlier)
    decreases t
  {
    hide Observe;
    ObserveGuards(Watched(t.earlier), t.event);
    if s == t {
      AuthorityMeans(s.earlier);
      RestorationMeans(s.earlier);
    } else {
      GuardedMeansAuthorised(s, t.earlier);
    }
  }

  /** The signal an exception stands for. */
  function SignalOf(e: Exc): Option<D.Signal>
  {
    match e
    case Cancelled(s) => Some(s)
    case Interrupted => Some(D.SIGINT)
    case _ => None
  }

  lemma EndingOf<T>(r: Reply<T>, notes: seq<D.Signal>)
    ensures Ending(r, notes).Raised? <==> r.Raise?
  {
  }

  function Of(signal: Option<D.Signal>): set<D.Signal>
  {
    if signal.Some? then {signal.value} else {}
  }

  function Hear(first: Option<D.Signal>, e: Event): Option<D.Signal>
  {
    match e
    case CleanupBegins => None
    case Caught(exc) => if first.Some? then first else SignalOf(exc)
    case _ => first
  }

  /** The first cancellation caught since the current cleanup began. */
  function FirstCaught(t: Trace): Option<D.Signal>
  {
    match t
    case Empty => None
    case Then(earlier, e) => Hear(FirstCaught(earlier), e)
  }

  // ---- Finalization ----

  /** The signals an exception tells of, as notes on another one. */
  function Chained(o: D.Outcome): seq<D.Signal>
  {
    if o.Returned? then [] else o.exc.notes + OwnSignal(o)
  }

  /** The signal the text of an exception names; its notes are not part of the text. */
  function OwnSignal(o: D.Outcome): seq<D.Signal>
  {
    if o.Raised? && o.exc.kind.Cancelled? then [o.exc.kind.signal] else []
  }

  /** What happens in the finally clause: how the cleanup and the unlink of the evidence
      end, and which signals arrive in between. */
  datatype Finish = Finish(cleanup: D.Outcome, unlink: D.Outcome, arrivals: seq<D.Signal>)

  /** The end of the finally clause's own block. An unlink that fails is raised in place of
      what the body raised, and chained to it. */
  function FinalBlock(body: D.Outcome, f: Finish): D.Outcome
  {
    if body.Returned? && f.cleanup.Returned? then D.Returned
    else if f.unlink.Raised? then D.Raised(D.Exc(f.unlink.exc.kind, Chained(body)))
    else if body.Returned? then f.cleanup
    else D.Returned
  }

  /** How the body and its finally clause end together. A body that failed is raised again,
      noting the text of the cleanup's exception. */
  function FinallyEnds(body: D.Outcome, f: Finish): D.Outcome
  {
    var left := D.Leave(f.arrivals, FinalBlock(body, f), false);
    var first := if left.recorded.Some? then [left.recorded.value] else [];
    if left.outcome.Raised? then left.outcome
    else if body.Raised? then D.Raised(body.exc.(notes := body.exc.notes + OwnSignal(f.cleanup) + first))
    else if left.recorded.Some? then D.Raised(D.Exc(D.Cancelled(left.recorded.value), []))
    else D.Returned
  }

  /** Exactly what the exception leaving the finally clause tells: all the body told, the
      first signal that arrived, a failed unlink, and what the cleanup told - of the latter
      nothing when the unlink failed, and not its notes when the body failed as well. */
  lemma FinallyTells(body: D.Outcome, f: Finish, s: D.Signal)
    ensures
      var o := FinallyEnds(body, f);
      && (o.Returned? <==> body.Returned? && f.cleanup.Returned? && f.arrivals == [])
      && (s in D.Tells(o) <==>
            || s in D.Tells(body)
            || (f.arrivals != [] && s == f.arrivals[0])
            || (s in OwnSignal(f.unlink) && (body.Raised? || f.cleanup.Raised?))
            || (s in D.Tells(f.cleanup) && f.unlink.Returned? && (body.Returned? || s in OwnSignal(f.cleanup))))
  {
    D.LeaveTells(f.arrivals, FinalBlock(body, f), false);
  }

  /** Signals that only the cleanup's exception told, and that nothing tells any more. */
  function Muffled(body: D.Outcome, f: Finish): set<D.Signal>
  {
    D.Tells(f.cleanup) - D.Tells(FinallyEnds(body, f))
  }

  /** A signal that arrives while a cleanup fails is told by nothing if the body had failed
      before: it is noted on an exception of which only the text is kept. */
  lemma SignalOfTheLastCleanupIsLost(exc: D.Exc, failure: D.Exc)
    requires exc.kind.Failed? && exc.notes == [] && failure.kind.Failed? && failure.notes == []
    ensures
      var cleanup := D.Leave([D.SIGTERM], D.Raised(failure), true).outcome;
      D.SIGTERM in Muffled(D.Raised(exc), Finish(cleanup, D.Returned, []))
  {
    D.LeaveTells([D.SIGTERM], D.Raised(failure), true);
    var cleanup := D.Leave([D.SIGTERM], D.Raised(failure), true).outcome;
    FinallyTells(D.Raised(exc), Finish(cleanup, D.Returned, []), D.SIGTERM);
  }

  lemma NothingToTell()
    ensures D.Tells(D.Returned) == {}
  {
  }

  /** What body and cleanup told, and the first arrival, is told by the exception leaving
      the finally clause or muffled, and nothing is muffled unless unlink or body failed. */
  lemma AllTold(body: D.Outcome, f: Finish)
    ensures
      var told := D.Tells(FinallyEnds(body, f));
      && D.Tells(body) <= told
      && D.Tells(f.cleanup) <= told + Muffled(body, f)
      && (f.arrivals != [] ==> f.arrivals[0] in told)
      && (Muffled(body, f) != {} ==> f.unlink.Raised? || body.Raised?)
      && (FinallyEnds(body, f).Returned? <==> body.Returned? && f.cleanup.Returned? && f.arrivals == [])
      && (f.cleanup.Returned? ==> D.Tells(f.cleanup) == {} && Muffled(body, f) == {})
  {
    hide FinallyEnds, D.Tells;
    assert f.cleanup.Returned? ==> D.Tells(f.cleanup) == {} by { NothingToTell(); }
    var told := D.Tells(FinallyEnds(body, f));
    FinallyTells(body, f, if f.arrivals == [] then D.SIGTERM else f.arrivals[0]);
    forall s | s in D.Tells(body) ensures s in told {
      FinallyTells(body, f, s);
    }
    if s :| s in Muffled(body, f) {
      FinallyTells(body, f, s);
    }
  }

  // ---- The lifecycle ----

  /** What the sample built from the learner source prints. */
  function WorkspaceText(): string
  {
    "qemu-edu-sdk-sample workspace"
  }

  /** What the selected lab contract expects of the guest. */
  datatype Expected = Expected(architecture: string, guestBinary: string)

  /** How far a run has come through the steps its evidence will claim, and with what. */
  datatype Progress =
    | Nothing
    | HasSource(source: Digest)
    | HasArtifact(source: Digest, artifact: Digest)
    | Running(source: Digest, artifact: Digest, boot: nat)
    | BaseAbsent(source: Digest, artifact: Digest, boot: nat)
    | RightMachine(source: Digest, artifact: Digest, boot: nat)
    | Deployed(source: Digest, artifact: Digest, boot: nat)
    | SameDigest(source: Digest, artifact: Digest, boot: nat)
    | SameOutput(source: Digest, artifact: Digest, boot: nat)
    | Undeployed(source: Digest, artifact: Digest, boot: nat)
    | AbsentAgain(source: Digest, artifact: Digest, boot: nat)
    | SessionStopped(source: Digest, artifact: Digest, boot: nat)
    | Restored(source: Digest, artifact: Digest, boot: nat)
    | Retained(source: Digest, artifact: Digest, boot: nat)
    | ColdRunning(source: Digest, artifact: Digest, boot: nat, cold: nat)
    | ColdAbsent(source: Digest, artifact: Digest, boot: nat, cold: nat)
    | Complete(source: Digest, artifact: Digest, boot: nat, cold: nat)

  /** One event: the next step required, a step that voids the run, or neither. */
  function Advance(p: Progress, e: Event, x: Expected): Progress
  {
    match e
    case SourcePrepared(d) => HasSource(d)
    case ArtifactBuilt(d) => if p.HasSource? then HasArtifact(p.source, d) else Nothing
    case Booted(b) =>
      if p.HasArtifact? then Running(p.source, p.artifact, b)
      else if p.Retained? && b != p.boot then ColdRunning(p.source, p.artifact, p.boot, b)
      else Nothing
    case AbsentOn(b) =>
      if p.Running? && b == p.boot then BaseAbsent(p.source, p.artifact, p.boot)
      else if p.Undeployed? && b == p.boot then AbsentAgain(p.source, p.artifact, p.boot)
      else if p.ColdRunning? && b == p.cold then ColdAbsent(p.source, p.artifact, p.boot, p.cold)
      else p
    case MachineOn(b, a) =>
      if p.BaseAbsent? && b == p.boot && a == x.architecture then RightMachine(p.source, p.artifact, p.boot) else p
    case DeployedTo(b) =>
      if p.RightMachine? && b == p.boot then Deployed(p.source, p.artifact, p.boot) else Nothing
    case DigestOn(b, digest, path) =>
      if p.Deployed? && b == p.boot && digest == p.artifact && path == x.guestBinary
      then SameDigest(p.source, p.artifact, p.boot) else p
    case OutputOn(b, text) =>
      if p.SameDigest? && b == p.boot && text == WorkspaceText()
      then SameOutput(p.source, p.artifact, p.boot) else p
    case UndeployedFrom(b) =>
      if p.SameOutput? && b == p.boot then Undeployed(p.source, p.artifact, p.boot) else p
    case Stopped(b) =>
      if p.AbsentAgain? && b == p.boot then SessionStopped(p.source, p.artifact, p.boot)
      else if p.ColdAbsent? && b == p.cold then Complete(p.source, p.artifact, p.boot, p.cold)
      else p
    case CleanupReturned =>
      if p.SessionStopped? then Restored(p.source, p.artifact, p.boot) else p
    case SourceRetained(d) =>
      if p.Restored? && d == p.source then Retained(p.source, p.artifact, p.boot) else p
    case _ => p
  }

  function Reached(t: Trace, x: Expected): Progress
  {
    match t
    case Empty => Nothing
    case Then(earlier, e) => Advance(Reached(earlier, x), e, x)
  }

  /** The steps on the first guest before anything is deployed. */
  lemma StartSteps(source: Digest, artifact: Digest, boot: nat, x: Expected)
    ensures Advance(HasArtifact(source, artifact), Booted(boot), x) == Running(source, artifact, boot)
    ensures Advance(Running(source, artifact, boot), AbsentOn(boot), x) == BaseAbsent(source, artifact, boot)
    ensures Advance(BaseAbsent(source, artifact, boot), MachineOn(boot, x.architecture), x) == RightMachine(source, artifact, boot)
  {
    hide WorkspaceText;
  }

  /** Deploying the artifact and comparing it. */
  lemma DeploySteps(source: Digest, artifact: Digest, boot: nat, x: Expected)
    ensures Advance(RightMachine(source, artifact, boot), DeployedTo(boot), x) == Deployed(source, artifact, boot)
    ensures Advance(Deployed(source, artifact, boot), DigestOn(boot, artifact, x.guestBinary), x) == SameDigest(source, artifact, boot)
  {
    hide WorkspaceText;
  }

  /** Running the sample and removing it. */
  lemma SampleSteps(source: Digest, artifact: Digest, boot: nat, x: Expected)
    ensures Advance(SameDigest(source, artifact, boot), OutputOn(boot, WorkspaceText()), x) == SameOutput(source, artifact, boot)
    ensures Advance(SameOutput(source, artifact, boot), UndeployedFrom(boot), x) == Undeployed(source, artifact, boot)
  {
    hide WorkspaceText;
  }

  /** The last steps on the first guest, and the cleanup after it. */
  lemma LeavingSteps(source: Digest, artifact: Digest, boot: nat, x: Expected)
    ensures Advance(Undeployed(source, artifact, boot), AbsentOn(boot), x) == AbsentAgain(source, artifact, boot)
    ensures Advance(AbsentAgain(source, artifact, boot), Stopped(boot), x) == SessionStopped(source, artifact, boot)
    ensures Advance(SessionStopped(source, artifact, boot), CleanupReturned, x) == Restored(source, artifact, boot)
  {
    hide WorkspaceText;
  }

  /** The steps on the cold guest. */
  lemma ColdSteps(source: Digest, artifact: Digest, boot: nat, cold: nat, x: Expected)
    ensures Advance(Restored(source, artifact, boot), SourceRetained(source), x) == Retained(source, artifact, boot)
    ensures boot != cold ==> Advance(Retained(source, artifact, boot), Booted(cold), x) == ColdRunning(source, artifact, boot, cold)
    ensures Advance(ColdRunning(source, artifact, boot, cold), AbsentOn(cold), x) == ColdAbsent(source, artifact, boot, cold)
    ensures Advance(ColdAbsent(source, artifact, boot, cold), Stopped(cold), x) == Complete(source, artifact, boot, cold)
  {
    hide WorkspaceText;
  }

  lemma CompleteStays(p: Progress, x: Expected)
    ensures p.Complete? ==> Advance(p, CleanupReturned, x) == p
  {
    hide WorkspaceText;
  }

  predicate Happened(t: Trace, e: Event)
  {
    t.Then? && (t.event == e || Happened(t.earlier, e))
  }

  /** `first` happened, and `second` after it. */
  predicate Ordered(t: Trace, first: Event, second: Event)
  {
    t.Then? && (Ordered(t.earlier, first, second) || (t.event == second && Happened(t.earlier, first)))
  }

  /** What the published document claims about the run. */
  datatype Evidence = Evidence(
    source: Digest, artifact: Digest,
    baseAbsent: bool, undeployedAbsent: bool, preserved: bool, coldBootAbsent: bool)

  /** Each claim of the document, as events of the run on two different boots. */
  ghost predicate Claims(t: Trace, x: Expected, e: Evidence, boot: nat, cold: nat)
  {
    && boot != cold
    && Ordered(t, SourcePrepared(e.source), ArtifactBuilt(e.artifact))
    && Ordered(t, ArtifactBuilt(e.artifact), Booted(boot))
    && (e.baseAbsent ==> Ordered(t, AbsentOn(boot), DeployedTo(boot)))
    && Ordered(t, MachineOn(boot, x.architecture), DeployedTo(boot))
    && Ordered(t, DeployedTo(boot), DigestOn(boot, e.artifact, x.guestBinary))
    && Ordered(t, DigestOn(boot, e.artifact, x.guestBinary), OutputOn(boot, WorkspaceText()))
    && Ordered(t, OutputOn(boot, WorkspaceText()), UndeployedFrom(boot))
    && (e.undeployedAbsent ==> Ordered(t, UndeployedFrom(boot), AbsentOn(boot)))
    && Ordered(t, AbsentOn(boot), Stopped(boot))
    && Ordered(t, Stopped(boot), CleanupReturned)
    && (e.preserved ==> Ordered(t, CleanupReturned, SourceRetained(e.source)))
    && (e.coldBootAbsent ==> Ordered(t, SourceRetained(e.source), Booted(cold)) && Ordered(t, Booted(cold), AbsentOn(cold)))
    && Ordered(t, AbsentOn(cold), Stopped(cold))
  }

  /** The run behind a document went through every step the document claims. */
  predicate Justified(t: Trace, x: Expected, e: Evidence)
  {
    var p := Reached(t, x);
    p.Complete? && p.source == e.source && p.artifact == e.artifact
  }

  // ---- What progress means ----

  /** The link each stage adds to the chain of claims. */
  predicate Chain(t: Trace, x: Expected, p: Progress)
  {
    && (Stage(p) == 1 ==> Happened(t, SourcePrepared(p.source)))
    && (Stage(p) >= 2 ==> Built(t, x, p))
  }

  /** Stages are numbered in the order a run passes them. */
  function Stage(p: Progress): nat
  {
    match p
    case Nothing => 0
    case HasSource(_) => 1
    case HasArtifact(_, _) => 2
    case Running(_, _, _) => 3
    case BaseAbsent(_, _, _) => 4
    case RightMachine(_, _, _) => 5
    case Deployed(_, _, _) => 6
    case SameDigest(_, _, _) => 7
    case SameOutput(_, _, _) => 8
    case Undeployed(_, _, _) => 9
    case AbsentAgain(_, _, _) => 10
    case SessionStopped(_, _, _) => 11
    case Restored(_, _, _) => 12
    case Retained(_, _, _) => 13
    case ColdRunning(_, _, _, _) => 14
    case ColdAbsent(_, _, _, _) => 15
    case Complete(_, _, _, _) => 16
  }

  predicate Built(t: Trace, x: Expected, p: Progress)
    requires Stage(p) >= 2
  {
    && Ordered(t, SourcePrepared(p.source), ArtifactBuilt(p.artifact))
    && Happened(t, ArtifactBuilt(p.artifact))
    && (Stage(p) >= 3 ==> Guest(t, x, p))
    && (Stage(p) >= 9 ==> Gone(t, x, p))
    && (Stage(p) >= 14 ==> Cold(t, x, p))
  }

  predicate Guest(t: Trace, x: Expected, p: Progress)
    requires Stage(p) >= 3
  {
    var digest := DigestOn(p.boot, p.artifact, x.guestBinary);
    && Ordered(t, ArtifactBuilt(p.artifact), Booted(p.boot))
    && (Stage(p) >= 4 ==> Happened(t, AbsentOn(p.boot)))
    && (Stage(p) >= 5 ==> Happened(t, MachineOn(p.boot, x.architecture)))
    && (Stage(p) >= 6 ==> Ordered(t, AbsentOn(p.boot), DeployedTo(p.boot)))
    && (Stage(p) >= 6 ==> Ordered(t, MachineOn(p.boot, x.architecture), DeployedTo(p.boot)))
    && (Stage(p) >= 6 ==> Happened(t, DeployedTo(p.boot)))
    && (Stage(p) >= 7 ==> Ordered(t, DeployedTo(p.boot), digest) && Happened(t, digest))
    && (Stage(p) >= 8 ==> Ordered(t, digest, OutputOn(p.boot, WorkspaceText())) && Happened(t, OutputOn(p.boot, WorkspaceText())))
  }

  predicate Gone(t: Trace, x: Expected, p: Progress)
    requires Stage(p) >= 9
  {
    && Ordered(t, OutputOn(p.boot, WorkspaceText()), UndeployedFrom(p.boot))
    && Happened(t, UndeployedFrom(p.boot))
    && (Stage(p) >= 10 ==> Ordered(t, UndeployedFrom(p.boot), AbsentOn(p.boot)))
    && (Stage(p) >= 11 ==> Ordered(t, AbsentOn(p.boot), Stopped(p.boot)) && Happened(t, Stopped(p.boot)))
    && (Stage(p) >= 12 ==> Ordered(t, Stopped(p.boot), CleanupReturned) && Happened(t, CleanupReturned))
    && (Stage(p) >= 13 ==> Ordered(t, CleanupReturned, SourceRetained(p.source)) && Happened(t, SourceRetained(p.source)))
  }

  predicate Cold(t: Trace, x: Expected, p: Progress)
    requires Stage(p) >= 14
  {
    && p.cold != p.boot
    && Ordered(t, SourceRetained(p.source), Booted(p.cold)) && Happened(t, Booted(p.cold))
    && (Stage(p) >= 15 ==> Ordered(t, Booted(p.cold), AbsentOn(p.cold)) && Happened(t, AbsentOn(p.cold)))
    && (Stage(p) >= 16 ==> Ordered(t, AbsentOn(p.cold), Stopped(p.cold)))
  }

  lemma HeadStep(t: Trace, e: Event, x: Expected, p: Progress)
    requires Stage(p) == 1 ==> Happened(t, SourcePrepared(p.source))
    requires Stage(p) >= 2 ==>
      Ordered(t, SourcePrepared(p.source), ArtifactBuilt(p.artifact)) && Happened(t, ArtifactBuilt(p.artifact))
    ensures
      var q, u := Advance(p, e, x), Then(t, e);
      && (Stage(q) == 1 ==> Happened(u, SourcePrepared(q.source)))
      && (Stage(q) >= 2 ==>
            Ordered(u, SourcePrepared(q.source), ArtifactBuilt(q.artifact)) && Happened(u, ArtifactBuilt(q.artifact)))
  {
    if Advance(p, e, x) != p {
      match e
      case SourcePrepared(_) =>
      case ArtifactBuilt(_) =>
      case Booted(_) =>
      case _ =>
    }
  }

  lemma GuestFacts(t: Trace, x: Expected, p: Progress)
    requires Stage(p) >= 3 && Guest(t, x, p)
    ensures Stage(p) >= 4 ==> Happened(t, AbsentOn(p.boot))
    ensures Stage(p) >= 8 ==> Happened(t, OutputOn(p.boot, WorkspaceText()))
  {
  }

  lemma GoneFacts(t: Trace, x: Expected, p: Progress)
    requires Stage(p) >= 9 && Gone(t, x, p)
    ensures Stage(p) >= 13 ==> Happened(t, SourceRetained(p.source))
  {
  }

  lemma GuestStep(t: Trace, e: Event, x: Expected, p: Progress)
    requires Stage(p) >= 2 ==> Happened(t, ArtifactBuilt(p.artifact))
    requires Stage(p) >= 3 ==> Guest(t, x, p)
    ensures Stage(Advance(p, e, x)) >= 3 ==> Guest(Then(t, e), x, Advance(p, e, x))
  {
    if Advance(p, e, x) != p {
      match e
      case SourcePrepared(_) =>
      case ArtifactBuilt(_) =>
      case Booted(_) =>
      case AbsentOn(_) =>
      case MachineOn(_, _) =>
      case DeployedTo(_) =>
      case DigestOn(_, _, _) =>
      case OutputOn(_, _) =>
      case UndeployedFrom(_) =>
      case Stopped(_) =>
      case CleanupReturned =>
      case SourceRetained(_) =>
    }
  }

  lemma GoneStep(t: Trace, e: Event, x: Expected, p: Progress)
    requires Stage(p) >= 4 ==> Happened(t, AbsentOn(p.boot))
    requires Stage(p) >= 8 ==> Happened(t, OutputOn(p.boot, WorkspaceText()))
    requires Stage(p) >= 9 ==> Gone(t, x, p)
    ensures Stage(Advance(p, e, x)) >= 9 ==> Gone(Then(t, e), x, Advance(p, e, x))
  {
    if Advance(p, e, x) != p {
      match e
      case UndeployedFrom(_) =>
      case AbsentOn(_) =>
      case Stopped(_) =>
      case CleanupReturned =>
      case SourceRetained(_) =>
      case Booted(_) =>
      case _ => assert Stage(Advance(p, e, x)) < 9;
    }
  }

  lemma ColdStep(t: Trace, e: Event, x: Expected, p: Progress)
    requires Stage(p) >= 13 ==> Happened(t, SourceRetained(p.source))
    requires Stage(p) >= 14 ==> Cold(t, x, p)
    ensures Stage(Advance(p, e, x)) >= 14 ==> Cold(Then(t, e), x, Advance(p, e, x))
  {
    if Advance(p, e, x) != p {
      match e
      case Booted(_) =>
      case AbsentOn(_) =>
      case Stopped(_) =>
      case _ => assert Stage(Advance(p, e, x)) < 14;
    }
  }

  lemma {:induction false} ChainHolds(t: Trace, x: Expected)
    ensures Chain(t, x, Reached(t, x))
  {
    hide Guest, Gone, Cold, Advance, Happened, Ordered;
    if t.Then? {
      ChainHolds(t.earlier, x);
      var p := Reached(t.earlier, x);
      if Stage(p) >= 3 {
        GuestFacts(t.earlier, x, p);
      }
      if Stage(p) >= 9 {
        GoneFacts(t.earlier, x, p);
      }
      HeadStep(t.earlier, t.event, x, p);
      GuestStep(t.earlier, t.event, x, p);
      GoneStep(t.earlier, t.event, x, p);
      ColdStep(t.earlier, t.event, x, p);
    }
  }

  /** Every claim of a justified document was established by the run, in order: the base
      image held no sample and ran on the right machine before deployment, the deployed
      bytes were the built ones, the sample was gone after undeployment, the retained
      source was the prepared one, and a later, different boot found nothing. */
  lemma {:induction false} JustifiedMeansEveryClaim(t: Trace, x: Expected, e: Evidence)
    requires Justified(t, x, e)
    ensures Claims(t, x, e, Reached(t, x).boot, Reached(t, x).cold)
  {
    ChainHolds(t, x);
  }
}
