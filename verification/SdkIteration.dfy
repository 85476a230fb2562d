// The direct-eSDK lifecycle (sdk_iteration.py, DirectSdkIteration): restorative cleanup
// and evidence publication, with every external command free to fail or be cancelled.

module SdkIteration {
  import opened Wrappers
  import opened SdkTrace
  import C = SdkConfiguration
  import D = DeferredCancellation

  /** The devtool workspace as _verify_workspace tells it apart: no tree, the inert tree,
      the tree with the one expected append, or anything else. */
  datatype Tree = Absent | Resting | Active | Unsafe

  datatype Boot = Boot(id: nat, port: Option<nat>)

  /** The trees that a workspace check of either kind accepts. */
  predicate Acceptable(tree: Tree, resting: bool, requireActive: bool)
  {
    if resting then tree.Resting? && !requireActive else tree.Active? || (tree.Resting? && !requireActive)
  }

  /** What the world answers when it is asked once: what is raised or how a command exits,
      a yes or no, what a command leaves behind, and what a session or a guest says. */
  datatype Answer = Answer(
    exc: Option<Exc>, exit: nat, works: bool,
    tree: Tree, ideOutput: bool, files: C.Files, disk: C.Disk,
    text: string, digest: Digest, path: string,
    listed: bool, others: bool,                // this recipe, and others, among the modified ones
    port: Option<nat>, signals: seq<D.Signal>)

  function Said(a: Answer): Reply<()>
  {
    if a.exc.Some? then Raise(a.exc.value) else Ok(())
  }

  /** What the raw files read as, and whether the closed configuration can be written. */
  datatype Reading = Reading(state: Option<C.State>, writable: bool)

  datatype Issue =
    | ResidualState | ConfigurationAuthority | DevtoolConfiguration | Restoration | TargetUndeploy
    | RunqemuStop | UnexpectedRecipes | StateDiscovery | ResetIssue | StatusIssue | LayerRemoval | Verification

  /** The failures of one cleanup and the cancellation it will raise. */
  class Report {
    var failures: seq<Issue>
    var cancellation: Option<D.Signal>

    constructor ()
      ensures failures == [] && cancellation == None
    {
      failures := [];
      cancellation := None;
    }

    /** Keep the first cancellation. */
    method Note(exc: Exc)
      modifies this`cancellation
      ensures cancellation == if old(cancellation).Some? then old(cancellation) else SignalOf(exc)
    {
      if cancellation.None? {
        match exc
        case Cancelled(s) => cancellation := Some(s);
        case Interrupted => cancellation := Some(D.SIGINT);
        case _ =>
      }
    }
  }

  /** What cleanup found before touching anything. */
  datatype Exam = Exam(configuration: C.State, canUseDevtool: bool, workspaceActive: bool)

  /** Progress that cleanup leaves alone. */
  predicate Settled(p: Progress)
  {
    p.Nothing? || p.SessionStopped? || p.Restored? || p.Retained? || p.Complete?
  }

  /** Later in the same cleanup, with no handler passed by. */
  predicate Onward(before: Watch, after: Watch)
  {
    && (before.workspaceRecognised ==> after.workspaceRecognised)
    && (before.workspaceVerified ==> after.workspaceVerified)
    && after.guarded == before.guarded
    && after.leakedEarly == before.leakedEarly && after.leakedLate == before.leakedLate
  }

  /** Leave a deferral region: block and arrivals end as the account of regions says. */
  method LeaveRegion(block: Reply<()>, arrivals: seq<D.Signal>, raiseOnExit: bool, ghost notes: seq<D.Signal>)
    returns (r: Reply<()>, signum: Option<D.Signal>, ghost noted: seq<D.Signal>)
    ensures D.Effect(Ending(r, noted), signum) == D.Leave(arrivals, Ending(block, notes), raiseOnExit)
    ensures signum == if arrivals == [] then None else Some(arrivals[0])
    ensures block.Raise? ==> r == block
    ensures block.Ok? ==> r == if raiseOnExit && signum.Some? then Raise(Cancelled(signum.value)) else block
    ensures r.Raise? ==> D.Tells(Ending(r, noted)) == D.Tells(Ending(block, notes)) + Of(signum)
  {
    D.LeaveTells(arrivals, Ending(block, notes), raiseOnExit);
    D.BlockEnds(arrivals, Ending(block, notes));
    signum := if arrivals == [] then None else Some(arrivals[0]);
    noted := if block.Ok? then [] else if signum.Some? then notes + [signum.value] else notes;
    r := if block.Ok? && raiseOnExit && signum.Some? then Raise(Cancelled(signum.value)) else block;
  }

  /** The exception that propagates after the finally clause, if any. */
  function InFlight(body: Reply<Evidence>, r: Reply<()>): Reply<()>
  {
    if r.Ok? && body.Raise? then Raise(body.exc) else r
  }

  /** Leave the finally clause: its own failure, or a signal deferred meanwhile, is raised when
      nothing else is, and noted otherwise. */
  method EndFinally(body: Reply<Evidence>, cleaned: Reply<()>, cleared: Reply<()>, arrivals: seq<D.Signal>,
                    ghost before: seq<D.Signal>, ghost noted: seq<D.Signal>)
    returns (r: Reply<()>, signum: Option<D.Signal>, ghost notes: seq<D.Signal>)
    requires body.Ok? && cleaned.Ok? ==> cleared.Ok?
    ensures Ending(InFlight(body, r), notes)
         == FinallyEnds(Ending(body, before), Finish(Ending(cleaned, noted), Ending(cleared, []), arrivals))
    ensures signum == if arrivals == [] then None else Some(arrivals[0])
    ensures body.Ok? ==> (r.Ok? <==> cleaned.Ok? && signum.None?)
    ensures cleared.Raise? ==> r.Raise?
  {
    var block := if cleared.Raise? then cleared else if body.Ok? then cleaned else Ok(());
    ghost var blockNotes := if cleared.Raise? then Chained(Ending(body, before)) else noted;
    D.LeaveTells(arrivals, Ending(block, blockNotes), false);
    r, signum, notes := LeaveRegion(block, arrivals, false, blockNotes);
    if r.Ok? && body.Raise? {
      notes := before + OwnSignal(Ending(cleaned, noted)) + (if signum.Some? then [signum.value] else []);
    } else if r.Ok? && signum.Some? {
      r, notes := Raise(Cancelled(signum.value)), [];
    }
  }

  class DirectSdkIteration {
    const tree: C.BuildTree
    const expected: Expected
    const refused: nat -> bool                 // which of the unguarded path probes raise
    const world: nat -> Answer                 // what the world answers each time it is asked
    // The world.
    var probes: nat                            // unguarded path probes made so far
    var asked: nat                             // how often the world was asked
    var ideOutput: bool                        // generated IDE output lies in the workspace
    var workspace: Tree
    var evidence: Option<Evidence>
    var live: set<nat>
    var residue: bool                          // a deployed sample may be on the running guest
    // The controller.
    var workspaceAdded: bool
    var recipeModified: bool
    var deployed: bool
    var deploymentAttempted: bool
    var committed: bool
    var activeBoot: Option<Boot>
    var boots: nat
    // The account of the run.
    ghost var trace: Trace
    ghost var watch: Watch
    ghost var caught: Option<D.Signal>
    ghost var progress: Progress
    ghost var uncleared: bool                  // an evidence unlink failed
    ghost var cleanupFrom: nat                 // probes made before the last cleanup, and
    ghost var restoredFrom: nat                // before its last restoration of the base
    ghost var heard: set<D.Signal>             // recorded by cleanup, finalization, publication
    ghost var deferred: Option<D.Signal>       // what finalization recorded
    ghost var dropped: Option<D.Signal>        // what publication recorded
    ghost var muffled: set<D.Signal>           // let go with the last cleanup's exception
    ghost var reading: Reading                 // what the raw files read as
    ghost var trouble: bool                    // some answer or probe was a bad one

    constructor (tree: C.BuildTree, expected: Expected, refused: nat -> bool, world: nat -> Answer,
                 workspace: Tree, evidence: Option<Evidence>)
      ensures this.tree == tree && this.expected == expected && this.refused == refused && probes == 0
      ensures this.world == world && asked == 0 && !trouble
      ensures this.workspace == workspace && this.evidence == evidence
      ensures Account() && trace == Empty && watch.guarded
      ensures Sessions() && live == {} && activeBoot == None
      ensures !committed && !recipeModified && !uncleared && heard == {}
      ensures !workspaceAdded && !deploymentAttempted && !residue
    {
      this.tree := tree;
      this.world, asked, trouble := world, 0, false;
      reading := Reading(C.Classify(tree.files, tree.lab), tree.Writable());
      this.expected := expected;
      this.refused := refused;
      probes, ideOutput := 0, false;
      this.workspace := workspace;
      this.evidence := evidence;
      live := {};
      residue := false;
      workspaceAdded, recipeModified, deployed, deploymentAttempted := false, false, false, false;
      committed := false;
      activeBoot := None;
      boots := 0;
      trace, watch, caught, progress := Empty, UNSEEN, None, Nothing;
      uncleared := false;
      cleanupFrom, restoredFrom, heard := 0, 0, {};
      deferred, dropped, muffled := None, None, {};
    }

    /** Only the active session can have a running process. */
    predicate Sessions()
      reads this`live, this`activeBoot, this`boots
    {
      match activeBoot
      case None => live == {}
      case Some(b) => live <= {b.id} && b.id < boots
    }

    /** The three readings of the trace are current. */
    ghost predicate Account()
      reads this`trace, this`watch, this`caught, this`progress, this`reading, tree`files
    {
      && (forall t: Trace | t == trace ::
            watch == Watched(t) && caught == FirstCaught(t) && progress == Reached(t, expected))
      && FilesRead()
    }

    ghost predicate FilesRead()
      reads this`reading, tree`files
    {
      forall f: C.Files | f == tree.files :: reading == Reading(C.Classify(f, tree.lab), tree.Admits(f))
    }

    /** Both closed configurations fit the readers' bounds. */
    ghost predicate Fitting()
    {
      forall l: C.Lab | l == tree.lab :: C.Fits(l, None) && C.Fits(l, Some(l.workspace))
    }

    /** The raw files are recognised as the given configuration. */
    ghost predicate Authentic(state: C.State)
      reads tree`files
    {
      forall f: C.Files | f == tree.files :: C.Classify(f, tree.lab) == Some(state)
    }

    /** Nothing of the iteration is left: base configuration, no session, no modified
        recipe, and no active append. */
    ghost predicate AtRest()
      reads this`live, this`activeBoot, this`recipeModified, this`workspace, tree`files
    {
      && Authentic(C.Base)
      && live == {} && activeBoot == None
      && !recipeModified
      && (workspace.Absent? || workspace.Resting?)
    }

    ghost method Log(e: Event)
      requires Account()
      modifies this`trace, this`watch, this`caught, this`progress
      ensures Account()
      ensures watch == Observe(old(watch), e)
      ensures caught == Hear(old(caught), e)
      ensures progress == Advance(old(progress), e, expected)
    {
      hide FilesRead, Fitting, WorkspaceText;
      assert watch == Watched(trace) && caught == FirstCaught(trace) && progress == Reached(trace, expected);
      trace := Then(trace, e);
      watch, caught, progress := Observe(watch, e), Hear(caught, e), Advance(progress, e, expected);
    }

    // ---- Answers that let a run go on ----

    /** The n-th answer is of a command that worked. */
    predicate ToolDone(n: nat)
    {
      world(n).exc.None? && world(n).exit == 0
    }

    /** A workspace was verified from the n-th answer on. */
    predicate Verified(n: nat)
    {
      world(n).works && world(n + 1).works && world(n + 2).works && world(n + 3).works
    }

    /** From the n-th answer on, the configuration was read, four variables were asked for,
        and they were those of the closed composition. */
    predicate Composed(n: nat)
    {
      && world(n).exc.None? && world(n + 1).exc.None? && world(n + 2).exc.None? && world(n + 3).exc.None?
      && world(n + 4).exc.None? && world(n + 5).works
    }

    // ---- External commands and checks ----

    /** A devtool or bitbake-layers command: any exit, any effect on its own files. It is
        a bad answer unless the command exits with zero and leaves the workspace as it is
        meant to, and the configuration readable as before or, if the command is meant to
        change the layers, writable. */
    method RunTool(ghost wanted: Tree, ghost ide: bool, ghost moves: bool) returns (r: Reply<nat>)
      requires Account()
      modifies this`workspace, this`ideOutput, tree`files, this`reading, this`asked, this`trouble
      ensures Account() && asked == old(asked) + 1
      ensures workspace == world(old(asked)).tree && ideOutput == world(old(asked)).ideOutput
      ensures r.Raise? <==> world(old(asked)).exc.Some?
      ensures r.Raise? ==> r.exc == world(old(asked)).exc.value
      ensures r.Ok? ==> r.value == world(old(asked)).exit
      ensures trouble <==>
        || old(trouble) || r.Raise? || r.value != 0 || workspace != wanted || ideOutput != ide
        || !(if moves then reading.writable else reading == old(reading))
    {
      hide FilesRead, Fitting, WorkspaceText;
      var a := world(asked);
      asked := asked + 1;
      workspace, ideOutput := a.tree, a.ideOutput;
      tree.files := a.files;
      ghost var before := reading;
      Reread();
      r := if a.exc.Some? then Raise(a.exc.value) else Ok(a.exit);
      trouble :=
        || trouble || r.Raise? || r.value != 0 || workspace != wanted || ideOutput != ide
        || !(if moves then reading.writable else reading == before);
    }

    /** Ask devtool for the modified recipes; a good answer lists this one exactly when it is
        meant to be, and no others. */
    method ListRecipes(ghost modified: bool) returns (r: Reply<nat>, listed: bool, others: bool)
      requires Account()
      modifies this`workspace, this`ideOutput, tree`files, this`reading, this`asked, this`trouble
      ensures Account() && asked == old(asked) + 1
      ensures r.Raise? <==> world(old(asked)).exc.Some?
      ensures r.Raise? ==> r.exc == world(old(asked)).exc.value
      ensures listed == world(old(asked)).listed && others == world(old(asked)).others
      ensures trouble <==>
        || old(trouble) || r.Raise? || r.value != 0 || others || listed != modified
        || workspace != old(workspace) || ideOutput != old(ideOutput) || reading != old(reading)
    {
      hide FilesRead;
      listed, others := world(asked).listed, world(asked).others;
      r := RunTool(workspace, ideOutput, false);
      trouble := trouble || others || listed != modified;
    }

    ghost method Reread()
      modifies this`reading
      ensures FilesRead()
    {
      reading := Reading(C.Classify(tree.files, tree.lab), tree.Writable());
    }

    /** Ask for something that raises or does not. */
    method Outside() returns (r: Reply<()>)
      modifies this`asked, this`trouble
      ensures asked == old(asked) + 1
      ensures r == Said(world(old(asked)))
      ensures trouble <==> old(trouble) || r.Raise?
    {
      r := Said(world(asked));
      asked := asked + 1;
      trouble := trouble || r.Raise?;
    }

    /** Ask whether a check is satisfied. */
    method Agrees() returns (yes: bool)
      modifies this`asked, this`trouble
      ensures asked == old(asked) + 1
      ensures yes == world(old(asked)).works
      ensures trouble <==> old(trouble) || !yes
    {
      yes := world(asked).works;
      asked := asked + 1;
      trouble := trouble || !yes;
    }

    /** The signals that arrive in a deferral region. */
    method Arrivals() returns (arrivals: seq<D.Signal>)
      modifies this`asked, this`trouble
      ensures asked == old(asked) + 1
      ensures arrivals == world(old(asked)).signals
      ensures trouble <==> old(trouble) || arrivals != []
    {
      arrivals := world(asked).signals;
      asked := asked + 1;
      trouble := trouble || arrivals != [];
    }

    /** None of the unguarded probes from one point to another raises. */
    ghost predicate Clear(from: nat, to: nat)
    {
      forall k :: from <= k < to ==> !refused(k)
    }

    lemma ClearSplit(from: nat, mid: nat, to: nat)
      requires from <= mid <= to
      ensures Clear(from, to) <==> Clear(from, mid) && Clear(mid, to)
    {
    }

    /** Ask whether a path is there, outside any handler for an OSError. */
    method Probe() returns (r: Reply<()>)
      modifies this`probes, this`trouble
      ensures probes == old(probes) + 1
      ensures r == if refused(old(probes)) then Raise(OtherError) else Ok(())
      ensures trouble <==> old(trouble) || r.Raise?
    {
      probes := probes + 1;
      r := if refused(probes - 1) then Raise(OtherError) else Ok(());
      trouble := trouble || r.Raise?;
    }

    /** Move the IDE output out of the workspace; every OSError becomes an SDK error. */
    method RetainIdeOutput() returns (r: Reply<()>)
      modifies this`workspace, this`ideOutput, this`asked, this`trouble
      ensures r.Raise? ==> r.exc.SdkError?
      ensures r.Ok? <==> world(old(asked)).works
      ensures workspace == world(old(asked)).tree && ideOutput == world(old(asked)).ideOutput
      ensures trouble <==> old(trouble) || r.Raise? || workspace != old(workspace) || ideOutput
      ensures asked == old(asked) + 1
    {
      var a := world(asked);
      asked := asked + 1;
      trouble := trouble || !a.works || a.tree != workspace || a.ideOutput;
      workspace, ideOutput := a.tree, a.ideOutput;
      return if a.works then Ok(()) else Raise(SdkError);
    }

    method ConfigurationState() returns (r: Reply<C.State>)
      requires Account()
      modifies this`trace, this`watch, this`caught, this`progress, this`asked, this`trouble
      ensures Account() && progress == old(progress) && caught == old(caught)
      ensures r.Ok? ==> Authentic(r.value)
      ensures watch == if r.Ok? then Observe(old(watch), Recognised(r.value)) else old(watch)
      ensures r.Ok? <==> world(old(asked)).exc.None? && reading.state.Some?
      ensures r.Ok? ==> reading.state == Some(r.value)
      ensures trouble <==> old(trouble) || world(old(asked)).exc.Some?
      ensures asked == old(asked) + 1
    {
      var read := Outside();
      if read.Raise? {
        return Raise(read.exc);
      }
      match C.Classify(tree.files, tree.lab)
      case None =>
        return Raise(SdkError);
      case Some(state) =>
        Log(Recognised(state));
        return Ok(state);
    }

    method VerifyClosedConfiguration(state: C.State) returns (r: Reply<()>)
      requires Account()
      modifies this`trace, this`watch, this`caught, this`progress, this`asked, this`trouble
      ensures Account() && progress == old(progress) && caught == old(caught)
      ensures r.Ok? ==> Authentic(state) && watch.baseRecognised == state.Base?
      ensures Onward(old(watch), watch) && watch.restoredLast == old(watch.restoredLast)
      ensures r.Ok? <==> world(old(asked)).exc.None? && reading.state == Some(state)
      ensures trouble <==> old(trouble) || world(old(asked)).exc.Some?
      ensures asked == old(asked) + 1
    {
      hide FilesRead, Fitting, WorkspaceText;
      var found := ConfigurationState();
      if found.Raise? {
        return Raise(found.exc);
      }
      if found.value != state {
        return Raise(SdkError);
      }
      return Ok(());
    }

    /** Only the three unguarded probes of optional entries can raise anything but an SDK
        error; no command runs here, so no cancellation can be met. */
    method VerifyWorkspace(resting: bool, requireActive: bool) returns (r: Reply<()>)
      requires Account()
      modifies this`trace, this`watch, this`caught, this`progress, this`asked, this`trouble, this`probes
      ensures Account() && progress == old(progress) && caught == old(caught)
      ensures r.Ok? ==> Acceptable(workspace, resting, requireActive)
      ensures watch == if r.Ok? then Observe(old(watch), WorkspaceVerified) else old(watch)
      ensures r.Raise? ==> r.exc.SdkError? || r.exc.OtherError?
      ensures old(probes) <= probes && (r == Raise(OtherError) <==> !Clear(old(probes), probes))
      ensures old(trouble) ==> trouble
      ensures r.Raise? ==> trouble || !Acceptable(workspace, resting, requireActive)
      ensures trouble ==> old(trouble) || r.Raise?
      ensures r.Ok? ==> asked == old(asked) + 4 && Verified(old(asked))
      ensures old(asked) <= asked <= old(asked) + 4
    {
      hide FilesRead, Fitting, WorkspaceText, Account, Observe;
      if (resting && requireActive) || workspace.Absent? {
        return Raise(SdkError);
      }
      for i := 0 to 3
        invariant Account() && progress == old(progress) && caught == old(caught) && watch == old(watch)
        invariant old(probes) <= probes && Clear(old(probes), probes) && trouble == old(trouble)
        invariant asked == old(asked) + i && forall k :: old(asked) <= k < asked ==> world(k).works
      {
        var acceptable := Agrees();
        if !acceptable {
          return Raise(SdkError);
        }
        var probed := Probe();
        if probed.Raise? {
          return Raise(OtherError);
        }
      }
      var readable := Agrees();
      if !readable || workspace.Unsafe? || (resting && workspace.Active?) || (requireActive && workspace.Resting?) {
        return Raise(SdkError);
      }
      Log(WorkspaceVerified);
      return Ok(());
    }

    /** Write the closed configuration; a signal can be raised once it is written. */
    method Configure(added: Option<string>) returns (r: Reply<()>, ok: bool)
      requires Account()
      requires added == None || added == Some(tree.lab.workspace)
      modifies tree`files, this`reading, this`asked, this`trouble
      ensures Account() && asked == old(asked) + 1
      ensures ok <==> old(reading.writable) && C.Works(world(old(asked)).disk)
      ensures r.Ok? <==> ok && world(old(asked)).exc.None?
      ensures ok && Fitting() ==> reading == Reading(Some(if added.None? then C.Base else C.Workspace), true)
      ensures trouble <==> old(trouble) || world(old(asked)).exc.Some? || !C.Works(world(old(asked)).disk)
    {
      hide FilesRead, Fitting, WorkspaceText, C.Written, C.Works, C.Classify, C.BuildTree.Writable;
      ReadingIsCurrent();
      var a := world(asked);
      asked := asked + 1;
      ok := tree.ConfigureSdk(added, a.disk);
      Reread();
      trouble := trouble || a.exc.Some? || !C.Works(a.disk);
      WrittenReads(added);
      r := if a.exc.Some? then Raise(a.exc.value) else if ok then Ok(()) else Raise(OtherError);
    }

    lemma ReadingIsCurrent()
      requires FilesRead()
      ensures reading.writable == tree.Writable()
    {
      hide C.Classify;
      assert reading == Reading(C.Classify(tree.files, tree.lab), tree.Admits(tree.files));
    }

    /** A written configuration that fits is recognised. */
    lemma WrittenReads(added: Option<string>)
      requires FilesRead() && (added == None || added == Some(tree.lab.workspace))
      ensures C.Written(tree.files, tree.lab, added) && tree.Writable() && Fitting() ==>
                reading == Reading(Some(if added.None? then C.Base else C.Workspace), true)
    {
      C.RecognitionIsExact(tree.files, tree.lab);
      hide C.Written, C.Classify;
    }

    method ConfigureBase() returns (r: Reply<()>)
      requires Account()
      modifies this`trace, this`watch, this`caught, this`progress, this`asked, this`trouble, tree`files, this`reading
      ensures Account() && progress == old(progress) && caught == old(caught)
      ensures watch == old(watch).(restoredLast := true)
      ensures trouble <==> old(trouble) || world(old(asked)).exc.Some? || !C.Works(world(old(asked)).disk)
      ensures r.Ok? <==> old(reading.writable) && C.Works(world(old(asked)).disk) && world(old(asked)).exc.None?
      ensures r.Ok? && Fitting() ==> reading == Reading(Some(C.Base), true)
      ensures asked == old(asked) + 1
    {
      hide FilesRead, Fitting, WorkspaceText;
      var ok;
      r, ok := Configure(None);
      Log(BaseConfigured(ok));
    }

    /** The session runs and its transport is known. */
    predicate Live()
      reads this`live, this`activeBoot
    {
      activeBoot.Some? && activeBoot.value.port.Some? && activeBoot.value.id in live
    }

    /** A deployment was tried, on a guest whose transport is known. */
    predicate Reachable()
      reads this`deploymentAttempted, this`activeBoot
    {
      deploymentAttempted && activeBoot.Some? && activeBoot.value.port.Some?
    }

    /** Ask the running guest; a good answer is the wanted one, where one is wanted. */
    method Remote(ghost wanted: Option<string>) returns (r: Reply<string>)
      modifies this`asked, this`trouble
      ensures !Live() ==> r == Raise(SdkError) && asked == old(asked) && trouble == old(trouble)
      ensures Live() ==> asked == old(asked) + 1
      ensures Live() ==> (r.Raise? <==> world(old(asked)).exc.Some?)
      ensures Live() && r.Ok? ==> r.value == world(old(asked)).text
      ensures Live() ==>
        (trouble <==> old(trouble) || r.Raise? || (wanted.Some? && r.value != wanted.value))
    {
      if activeBoot.None? || activeBoot.value.port.None? || activeBoot.value.id !in live {
        return Raise(SdkError);
      }
      var a := world(asked);
      asked := asked + 1;
      trouble := trouble || a.exc.Some? || (wanted.Some? && a.text != wanted.value);
      r := if a.exc.Some? then Raise(a.exc.value) else Ok(a.text);
    }

    /** Stop the session; a deferred cancellation can be raised once it has stopped. */
    method StopSession() returns (r: Reply<()>)
      requires Account() && activeBoot.Some? && Sessions()
      modifies this`trace, this`watch, this`caught, this`progress, this`asked, this`trouble, this`live, this`activeBoot
      ensures Account() && watch == old(watch) && caught == old(caught)
      ensures Sessions() && live <= old(live)
      ensures activeBoot.Some? && activeBoot.value.id == old(activeBoot.value.id)
      ensures r.Ok? ==> live == {} && progress == Advance(old(progress), Stopped(activeBoot.value.id), expected)
      ensures Settled(old(progress)) ==> progress == old(progress)
      ensures r.Ok? <==> world(old(asked)).works && world(old(asked)).exc.None?
      ensures trouble <==> old(trouble) || r.Raise?
      ensures asked == old(asked) + 1
    {
      hide FilesRead, Fitting, WorkspaceText, Account;
      var a := world(asked);
      asked := asked + 1;
      trouble := trouble || !a.works || a.exc.Some?;
      if a.works {
        live := live - {activeBoot.value.id};
        activeBoot := Some(activeBoot.value.(port := None));
        Log(Stopped(activeBoot.value.id));
        return if a.exc.Some? then Raise(a.exc.value) else Ok(());
      }
      return Raise(if a.exc.Some? then a.exc.value else SdkError);
    }

    /** Ask BitBake for the four variables that make up the composition. */
    method AskVariables() returns (r: Reply<()>)
      requires Account() && watch.guarded && watch.baseRecognised
      modifies this`trace, this`watch, this`caught, this`progress, this`asked, this`trouble
      ensures Account() && progress == old(progress) && caught == old(caught) && watch == old(watch)
      ensures old(trouble) || r.Raise? ==> trouble
      ensures r.Ok? ==> asked == old(asked) + 4 && forall k :: old(asked) <= k < asked ==> world(k).exc.None?
    {
      hide FilesRead, Fitting, WorkspaceText, Account;
      r := Ok(());
      for i := 0 to 4
        invariant Account() && progress == old(progress) && caught == old(caught) && watch == old(watch)
        invariant (old(trouble) ==> trouble) && r.Ok?
        invariant asked == old(asked) + i && forall k :: old(asked) <= k < asked ==> world(k).exc.None?
      {
        Log(CompositionQuery);
        r := Outside();
        if r.Raise? {
          return;
        }
      }
    }

    method CompositionPreflight() returns (r: Reply<()>)
      requires Account() && watch.guarded
      modifies this`trace, this`watch, this`caught, this`progress, this`asked, this`trouble
      ensures Account() && progress == old(progress) && caught == old(caught)
      ensures Onward(old(watch), watch) && watch.guarded && watch.restoredLast == old(watch.restoredLast)
      ensures old(trouble) ==> trouble
      ensures r.Raise? ==> trouble || reading.state != Some(C.Base)
      ensures r.Ok? ==> asked == old(asked) + 6 && Composed(old(asked))
    {
      hide FilesRead, Fitting, WorkspaceText, Account, Authentic;
      r := VerifyClosedConfiguration(C.Base);
      if r.Raise? {
        return;
      }
      r := AskVariables();
      if r.Raise? {
        return;
      }
      var matches := Agrees();
      return if matches then Ok(()) else Raise(SdkError);
    }

    // ---- Cleanup, phase by phase ----

    /** The report agrees with what was caught, and no tool ran without its authority. */
    ghost predicate Good(report: Report)
      reads this`trace, this`watch, this`caught, this`progress, this`reading, tree`files, this`live, this`activeBoot, this`boots
      reads report`cancellation
    {
      && Account() && Sessions()
      && report.cancellation == caught
      && watch.guarded && !watch.leakedEarly && !watch.leakedLate
    }

    /** The report is as it was. */
    ghost predicate Same(report: Report, failures: seq<Issue>, cancellation: Option<D.Signal>)
      reads report
    {
      report.failures == failures && report.cancellation == cancellation
    }

    /** What cleanup can put right: a writable configuration and a workspace that fits what
        the files read as and what the controller has done. */
    ghost predicate Cleanable()
      reads this`workspace, this`reading, this`workspaceAdded, this`recipeModified, this`deploymentAttempted
      reads this`activeBoot, this`live
    {
      && Fitting() && reading.writable && reading.state.Some?
      && (match workspace
          case Absent =>
            && reading.state != Some(C.Workspace) && !workspaceAdded && !recipeModified
            && (reading.state == Some(C.Unknown) ==> !deploymentAttempted)
          case Resting => reading.state != Some(C.Unknown) && !recipeModified
          case Active => reading.state == Some(C.Workspace)
          case Unsafe => false)
      && (deploymentAttempted && activeBoot.Some? && activeBoot.value.port.Some? ==> Live())
    }

    /** The state cleanup leaves, as far as a further run is concerned. */
    ghost predicate Idle()
      reads this`workspace, this`reading, this`workspaceAdded, this`recipeModified, this`activeBoot
    {
      && reading == Reading(Some(C.Base), true) && (workspace.Absent? || workspace.Resting?)
      && !workspaceAdded && !recipeModified && activeBoot.None?
    }

    /** What a phase does not undo. */
    ghost predicate Steady(report: Report, failures: seq<Issue>, w: Watch, p: Progress)
      reads this`watch, this`progress, report`failures
    {
      && (failures != [] ==> report.failures != [])
      && Onward(w, watch)
      && (Settled(p) ==> progress == p)
    }

    /** A probe ended cleanup before the base was restored. */
    ghost predicate Abandoned(p: Progress)
      reads this`trace, this`watch, this`caught, this`progress, this`reading, tree`files, this`live, this`activeBoot, this`boots
    {
      && Account() && Sessions()
      && watch.guarded && watch.leakedEarly && !watch.leakedLate && !watch.restoredLast
      && (Settled(p) ==> progress == p)
    }

    /** No handler of the step accepts the error of a probe. */
    method Abandon(report: Report)
      requires Good(report) && !watch.restoredLast
      modifies this`trace, this`watch, this`caught, this`progress
      ensures Abandoned(old(progress)) && progress == old(progress)
    {
      hide FilesRead, Fitting, WorkspaceText;
      Log(LeakedEarly(OtherError));
    }

    method Catch(report: Report, exc: Exc)
      requires Good(report)
      modifies this`trace, this`watch, this`caught, this`progress, report`cancellation
      ensures Good(report) && watch == old(watch) && progress == old(progress)
      ensures caught == Hear(old(caught), Caught(exc))
    {
      hide FilesRead, Fitting, WorkspaceText;
      report.Note(exc);
      Log(Caught(exc));
    }

    method RecordFailure(report: Report, issue: Issue, exc: Option<Exc>)
      requires Good(report)
      modifies this`trace, this`watch, this`caught, this`progress, report
      ensures Good(report) && watch == old(watch) && progress == old(progress)
      ensures report.failures == old(report.failures) + [issue]
    {
      hide FilesRead, Fitting, WorkspaceText;
      report.failures := report.failures + [issue];
      if exc.Some? {
        Catch(report, exc.value);
      }
    }

    /** How a step that probes paths before the restoration ends. */
    ghost predicate Stepped(report: Report, raised: bool, failures: seq<Issue>, w: Watch, p: Progress, from: nat)
      reads this`trace, this`watch, this`caught, this`progress, this`reading, tree`files, this`live, this`activeBoot, this`boots, this`probes
      reads report`cancellation, report`failures
    {
      && from <= probes && (raised <==> !Clear(from, probes))
      && (if raised then Abandoned(p) else Good(report) && Steady(report, failures, w, p))
    }

    /** Move generated IDE output out of the workspace; the answer says whether that worked. */
    method RetainGenerated(report: Report) returns (r: Reply<bool>)
      requires Good(report) && !watch.restoredLast
      modifies this`trace, this`watch, this`caught, this`progress, this`asked, this`trouble, this`workspace, this`ideOutput, this`probes, report
      ensures Stepped(report, r.Raise?, old(report.failures), old(watch), old(progress), old(probes))
      ensures r.Raise? ==> r.exc.OtherError?
      ensures r.Ok? && !r.value ==> report.failures != []
      ensures !watch.restoredLast && old(probes) < probes
      ensures old(trouble) ==> trouble
      ensures !trouble ==> r == Ok(true) && workspace == old(workspace)
      ensures !trouble ==> Same(report, old(report.failures), old(report.cancellation))
    {
      hide FilesRead, Fitting, WorkspaceText;
      var probed := Probe();
      if probed.Raise? {
        Abandon(report);
        return Raise(OtherError);
      }
      if ideOutput {
        var retained := RetainIdeOutput();
        if retained.Raise? {
          RecordFailure(report, ResidualState, Some(retained.exc));
          return Ok(false);
        }
      }
      return Ok(true);
    }

    /** The state of the configuration; unknown, with a report, when reading it raises. The
        workspace configuration means that the workspace was added. */
    method ReadState(report: Report) returns (state: C.State)
      requires Good(report) && !watch.restoredLast
      modifies this`trace, this`watch, this`caught, this`progress, this`asked, this`trouble, this`workspaceAdded, report
      ensures Good(report) && Steady(report, old(report.failures), old(watch), old(progress)) && !watch.restoredLast
      ensures state == C.Workspace ==> watch.workspaceRecognised
      ensures workspaceAdded == (old(workspaceAdded) || state == C.Workspace)
      ensures if world(old(asked)).exc.None? && reading.state.Some?
              then state == reading.state.value && Same(report, old(report.failures), old(report.cancellation))
              else state.Unknown? && report.failures == old(report.failures) + [ConfigurationAuthority]
      ensures trouble <==> old(trouble) || world(old(asked)).exc.Some?
    {
      hide FilesRead, Fitting, WorkspaceText, Account;
      var found := ConfigurationState();
      if found.Raise? {
        RecordFailure(report, ConfigurationAuthority, Some(found.exc));
        return C.Unknown;
      }
      if found.value == C.Workspace {
        workspaceAdded := true;
      }
      return found.value;
    }

    /** Retain the IDE output and read the configuration: its state, and whether the output
        was retained. */
    method Survey(report: Report) returns (r: Reply<(C.State, bool)>)
      requires Good(report) && !watch.restoredLast
      modifies this`trace, this`watch, this`caught, this`progress, this`asked, this`trouble, this`workspace, this`ideOutput, this`probes
      modifies this`workspaceAdded, report
      ensures Stepped(report, r.Raise?, old(report.failures), old(watch), old(progress), old(probes))
      ensures old(probes) < probes && !watch.restoredLast
      ensures r.Raise? ==> r.exc.OtherError?
      ensures r.Ok? && !r.value.1 ==> report.failures != []
      ensures r.Ok? ==> workspaceAdded == (old(workspaceAdded) || r.value.0 == C.Workspace)
      ensures r.Ok? && r.value.0 == C.Workspace ==> watch.workspaceRecognised
      ensures old(trouble) ==> trouble
      ensures !trouble && reading.state.Some? ==>
        && r == Ok((reading.state.value, true)) && workspace == old(workspace)
        && Same(report, old(report.failures), old(report.cancellation))
    {
      hide FilesRead, Fitting, WorkspaceText, Account, Sessions, Settled, Clear;
      var retained := RetainGenerated(report);
      if retained.Raise? {
        return Raise(retained.exc);
      }
      var state := ReadState(report);
      r := Ok((state, retained.value));
    }

    /** Retain the IDE output, read the configuration, and verify the workspace. */
    method Examine(report: Report) returns (r: Reply<Exam>)
      requires Good(report) && !watch.restoredLast
      modifies this`trace, this`watch, this`caught, this`progress, this`asked, this`trouble, this`workspace, this`ideOutput, this`probes
      modifies this`workspaceAdded, report
      ensures Stepped(report, r.Raise?, old(report.failures), old(watch), old(progress), old(probes))
      ensures old(probes) < probes
      ensures r.Raise? ==> r.exc.OtherError?
      ensures r.Ok? ==> Examined(report, r.value) && !watch.restoredLast
      ensures old(trouble) ==> trouble
      ensures !trouble && old(Cleanable()) ==>
        && r.Ok? && r.value == Exam(reading.state.value, reading.state == Some(C.Workspace), workspace.Active?)
        && workspace == old(workspace) && Cleanable() && Same(report, old(report.failures), old(report.cancellation))
    {
      hide FilesRead, Fitting, WorkspaceText, Examined, Account, Sessions, Settled, Live, Clear;
      var surveyed := Survey(report);
      if surveyed.Raise? {
        return Raise(surveyed.exc);
      }
      ghost var reached := probes;
      r := ExamineWorkspace(report, surveyed.value.0, surveyed.value.1);
      ClearSplit(old(probes), reached, probes);
    }

    /** What an examination settles: with devtool usable, its authority; without, a
        modified recipe that has not been reported is still visible in the workspace. */
    ghost predicate Examined(report: Report, exam: Exam)
      reads this`watch, this`recipeModified, this`workspace, report`failures
    {
      && (exam.canUseDevtool ==> watch.workspaceRecognised && watch.workspaceVerified)
      && (!exam.canUseDevtool && recipeModified && !exam.configuration.Unknown? ==>
            report.failures != [] || workspace.Active?)
    }

    /** The tree is what the controller should find. */
    predicate TreeFits()
      reads this`workspace, this`workspaceAdded, this`recipeModified
    {
      match workspace
      case Absent => !workspaceAdded && !recipeModified
      case Resting => !recipeModified
      case Active => true
      case Unsafe => false
    }

    /** Look for the workspace and verify it, active if the recipe is modified. */
    method LookAtTree() returns (r: Reply<()>)
      requires Account()
      modifies this`trace, this`watch, this`caught, this`progress, this`asked, this`trouble, this`probes
      ensures Account() && progress == old(progress) && caught == old(caught)
      ensures watch == old(watch) || watch == Observe(old(watch), WorkspaceVerified)
      ensures r.Ok? && !workspace.Absent? ==> watch.workspaceVerified && Acceptable(workspace, false, recipeModified)
      ensures r.Raise? ==> r.exc.SdkError? || r.exc.OtherError?
      ensures old(probes) < probes && (r == Raise(OtherError) <==> !Clear(old(probes), probes))
      ensures old(trouble) ==> trouble
      ensures r.Raise? ==> trouble || !(workspace.Absent? || Acceptable(workspace, false, recipeModified))
      ensures r.Ok? ==> asked == old(asked) + if workspace.Absent? then 0 else 4
    {
      hide FilesRead, Fitting, WorkspaceText, Account;
      r := Probe();
      if r.Ok? && !workspace.Absent? {
        r := VerifyWorkspace(false, recipeModified);
        if r.Ok? {
          r := Probe();
        }
      }
    }

    /** Verify the workspace if there is one; the answer says whether it is safe, and active. */
    method ExamineTree(report: Report) returns (r: Reply<(bool, bool)>)
      requires Good(report) && !watch.restoredLast
      modifies this`trace, this`watch, this`caught, this`progress, this`asked, this`trouble, this`probes, report
      ensures Stepped(report, r.Raise?, old(report.failures), old(watch), old(progress), old(probes))
      ensures old(probes) < probes
      ensures r.Raise? ==> r.exc.OtherError?
      ensures r.Ok? ==> !watch.restoredLast
      ensures r.Ok? && !r.value.0 ==> report.failures != []
      ensures r.Ok? && r.value.0 && !workspace.Absent? ==> watch.workspaceVerified && (recipeModified ==> workspace.Active?)
      ensures r.Ok? && r.value.0 && workspace.Absent? ==> !workspaceAdded && !recipeModified
      ensures old(trouble) ==> trouble
      ensures !trouble && TreeFits() ==>
        r == Ok((true, workspace.Active?)) && Same(report, old(report.failures), old(report.cancellation))
      ensures r.Ok? && r.value.0 ==> asked == old(asked) + if workspace.Absent? then 0 else 4
    {
      hide FilesRead, Fitting, WorkspaceText, Sessions, Advance, Hear, Account;
      var verified := LookAtTree();
      if verified.Raise? && verified.exc.OtherError? {
        Abandon(report);
        return Raise(OtherError);
      }
      if verified.Raise? || (workspace.Absent? && (workspaceAdded || recipeModified)) {
        RecordFailure(report, ResidualState, if verified.Raise? then Some(verified.exc) else None);
        return Ok((false, false));
      }
      r := Ok((true, workspace.Active?));
    }

    /** Verify the workspace, and devtool's choice of it when it is configured. */
    method ExamineWorkspace(report: Report, configuration: C.State, safeSoFar: bool) returns (r: Reply<Exam>)
      requires Good(report) && !watch.restoredLast
      requires !safeSoFar ==> report.failures != []
      requires configuration == C.Workspace ==> watch.workspaceRecognised && workspaceAdded
      modifies this`trace, this`watch, this`caught, this`progress, this`asked, this`trouble, this`probes, report
      ensures Stepped(report, r.Raise?, old(report.failures), old(watch), old(progress), old(probes))
      ensures old(probes) < probes
      ensures r.Raise? ==> r.exc.OtherError?
      ensures r.Ok? ==> Examined(report, r.value) && !watch.restoredLast
      ensures old(trouble) ==> trouble
      ensures !trouble && TreeFits() && safeSoFar ==>
        && r == Ok(Exam(configuration, configuration == C.Workspace, workspace.Active?))
        && Same(report, old(report.failures), old(report.cancellation))
      ensures r.Ok? && r.value.canUseDevtool ==>
        asked == old(asked) + (if workspace.Absent? then 1 else 5) && world(asked - 1).works
    {
      hide FilesRead, Fitting, WorkspaceText;
      var examined := ExamineTree(report);
      if examined.Raise? {
        return Raise(examined.exc);
      }
      var safe := safeSoFar && examined.value.0;
      if configuration == C.Workspace && safe {
        var authoritative := Agrees();
        if !authoritative {
          RecordFailure(report, DevtoolConfiguration, Some(SdkError));
          safe := false;
        }
      }
      r := Ok(Exam(configuration, configuration == C.Workspace && safe, examined.value.1));
    }

    /** With an unknown configuration, anything left over is reported. */
    method ReportUnknown(report: Report) returns (r: Reply<()>)
      requires Good(report) && !watch.restoredLast
      modifies this`trace, this`watch, this`caught, this`progress, this`asked, this`trouble, this`probes, report
      ensures Stepped(report, r.Raise?, old(report.failures), old(watch), old(progress), old(probes))
      ensures r.Raise? ==> r.exc.OtherError?
      ensures r.Ok? ==>
        var present := workspace.Resting? || workspace.Active? || (workspace.Unsafe? && world(old(asked)).works);
        if present || workspaceAdded || recipeModified || deploymentAttempted
        then report.failures == old(report.failures) + [ConfigurationAuthority]
        else Same(report, old(report.failures), old(report.cancellation))
      ensures r.Ok? ==> !watch.restoredLast
      ensures trouble <==> old(trouble) || r.Raise?
    {
      hide FilesRead, Fitting, WorkspaceText, Account;
      r := Probe();
      if r.Raise? {
        Abandon(report);
        return;
      }
      var resolves := world(asked).works;
      asked := asked + 1;
      var present := workspace.Resting? || workspace.Active? || (workspace.Unsafe? && resolves);
      if present || workspaceAdded || recipeModified || deploymentAttempted {
        RecordFailure(report, ConfigurationAuthority, None);
      }
    }

    /** Configure the base, and report a failure. */
    method FallBack(report: Report)
      requires Good(report)
      modifies this`trace, this`watch, this`caught, this`progress, this`asked, this`trouble, this`workspaceAdded, report
      modifies tree`files, this`reading
      ensures Good(report) && Steady(report, old(report.failures), old(watch), old(progress)) && watch.restoredLast
      ensures
        if old(reading.writable) && C.Works(world(old(asked)).disk) && world(old(asked)).exc.None? then
          && !workspaceAdded && Same(report, old(report.failures), old(report.cancellation))
          && (Fitting() ==> reading == Reading(Some(C.Base), true))
        else
          workspaceAdded == old(workspaceAdded) && report.failures == old(report.failures) + [Restoration]
      ensures trouble <==> old(trouble) || world(old(asked)).exc.Some? || !C.Works(world(old(asked)).disk)
    {
      hide FilesRead, Fitting, WorkspaceText, Account, Sessions, C.Works;
      var restored := ConfigureBase();
      if restored.Ok? {
        workspaceAdded := false;
      } else {
        RecordFailure(report, Restoration, Some(restored.exc));
      }
    }

    /** Without devtool, fall back to the base configuration at once. */
    method RestoreEarly(report: Report, configuration: C.State) returns (r: Reply<()>)
      requires Good(report) && !watch.restoredLast
      modifies this`trace, this`watch, this`caught, this`progress, this`asked, this`trouble, this`workspaceAdded, this`probes, report, tree`files, this`reading
      ensures Stepped(report, r.Raise?, old(report.failures), old(watch), old(progress), old(probes))
      ensures r.Raise? ==> r.exc.OtherError?
      ensures r.Ok? && configuration.Unknown? && recipeModified ==> report.failures != []
      ensures r.Ok? ==> watch.restoredLast
      ensures old(trouble) ==> trouble
      ensures !trouble && old(Cleanable()) && old(reading.state) == Some(configuration) && !configuration.Workspace? ==>
        && r.Ok? && Same(report, old(report.failures), old(report.cancellation))
        && reading == Reading(Some(C.Base), true) && !workspaceAdded && Cleanable()
    {
      hide FilesRead, Fitting, WorkspaceText, Account, Sessions, C.Works;
      if configuration.Unknown? {
        var looked := ReportUnknown(report);
        if looked.Raise? {
          return looked;
        }
      }
      FallBack(report);
      return Ok(());
    }

    /** Undeploy by devtool; a failure is not reported, but a cancellation is kept. */
    method UndeployByTool(report: Report) returns (undeployed: bool)
      requires Good(report) && watch.workspaceRecognised && watch.workspaceVerified
      modifies this`trace, this`watch, this`caught, this`progress, this`asked, this`trouble
      modifies this`workspace, this`ideOutput, tree`files, this`reading, report`cancellation, this`residue
      ensures Good(report) && Steady(report, old(report.failures), old(watch), old(progress))
      ensures !watch.restoredLast
      ensures asked == old(asked) + 1
      ensures undeployed <==> world(old(asked)).exc.None? && world(old(asked)).exit == 0
      ensures residue == (old(residue) && !undeployed)
      ensures old(trouble) ==> trouble
      ensures !trouble ==>
        && undeployed && report.cancellation == old(report.cancellation)
        && workspace == old(workspace) && reading == old(reading)
    {
      hide FilesRead, Fitting, WorkspaceText;
      Log(UndeployTarget);
      var tool := RunTool(workspace, ideOutput, false);
      if tool.Raise? {
        Catch(report, tool.exc);
        return false;
      }
      undeployed := tool.value == 0;
      residue := residue && !undeployed;
    }

    /** From this question on, the guest removes the binary and finds it gone. */
    predicate Removes(from: nat)
    {
      world(from).exc.None? && world(from + 1).exc.None?
    }

    /** Remove the binary on the guest and check that it is gone. */
    method RemoveDirectly(report: Report)
      requires Good(report)
      modifies this`trace, this`watch, this`caught, this`progress, this`asked, this`trouble, report, this`residue
      ensures Good(report) && Steady(report, old(report.failures), old(watch), old(progress)) && watch == old(watch)
      ensures if Live() && Removes(old(asked))
              then !residue && Same(report, old(report.failures), old(report.cancellation))
              else residue == old(residue) && report.failures == old(report.failures) + [TargetUndeploy]
      ensures old(trouble) ==> trouble
      ensures !trouble && Live() ==> !residue
      ensures !trouble && Live() ==> Same(report, old(report.failures), old(report.cancellation))
    {
      hide FilesRead, Fitting, WorkspaceText;
      var removed := Remote(None);
      if removed.Ok? {
        removed := Remote(None);
      }
      if removed.Raise? {
        RecordFailure(report, TargetUndeploy, Some(removed.exc));
      } else {
        residue := false;
      }
    }

    /** Remove the deployed binary: by devtool when it may be used, else directly. */
    method Undeploy(report: Report, exam: Exam)
      requires Good(report)
      requires exam.canUseDevtool ==> watch.workspaceRecognised && watch.workspaceVerified
      modifies this`trace, this`watch, this`caught, this`progress, this`asked, this`trouble, this`workspace, this`ideOutput, tree`files, this`reading, report
      modifies this`deployed, this`deploymentAttempted, this`residue
      ensures Good(report) && Steady(report, old(report.failures), old(watch), old(progress))
      ensures !exam.canUseDevtool ==> workspace == old(workspace) && watch == old(watch)
      ensures !old(watch.restoredLast) ==> !watch.restoredLast
      ensures old(deploymentAttempted) && activeBoot.Some? && activeBoot.value.port.Some? ==>
        var byTool := exam.canUseDevtool && (exam.workspaceActive || recipeModified);
        var first := world(old(asked));
        if byTool && first.exc.None? && first.exit == 0 then !residue && report.failures == old(report.failures)
        else if Live() && Removes(if byTool then old(asked) + 1 else old(asked)) then
          !residue && report.failures == old(report.failures)
        else residue == old(residue) && report.failures == old(report.failures) + [TargetUndeploy]
      ensures old(trouble) ==> trouble
      ensures !trouble && (old(deploymentAttempted) && activeBoot.Some? && activeBoot.value.port.Some? ==> Live()) ==>
        Same(report, old(report.failures), old(report.cancellation))
      ensures !trouble ==> workspace == old(workspace) && reading == old(reading)
      ensures !exam.canUseDevtool ==> reading == old(reading)
      ensures deploymentAttempted == (old(deploymentAttempted) && !old(Reachable()))
      ensures deployed == (old(deployed) && !old(Reachable()))
    {
      hide FilesRead, Fitting, WorkspaceText, Account;
      if !deploymentAttempted || activeBoot.None? || activeBoot.value.port.None? {
        return;
      }
      var undeployed := false;
      if exam.canUseDevtool && (exam.workspaceActive || recipeModified) {
        undeployed := UndeployByTool(report);
      }
      if !undeployed {
        RemoveDirectly(report);
      }
      deployed, deploymentAttempted := false, false;
    }

    method StopActive(report: Report)
      requires Good(report)
      modifies this`trace, this`watch, this`caught, this`progress, this`asked, this`trouble, this`live, this`activeBoot, report
      ensures Good(report) && Steady(report, old(report.failures), old(watch), old(progress))
      ensures watch == old(watch)
      ensures activeBoot.Some? ==> report.failures != []
      ensures old(trouble) ==> trouble
      ensures !trouble ==> activeBoot.None? && Same(report, old(report.failures), old(report.cancellation))
    {
      hide FilesRead, Fitting, WorkspaceText;
      if activeBoot.Some? {
        var stopped := StopSession();
        if stopped.Ok? {
          activeBoot := None;
        } else {
          RecordFailure(report, RunqemuStop, Some(stopped.exc));
        }
      }
    }

    /** With devtool: reset the recipe and remove the workspace layer. */
    method ResetWorkspace(report: Report) returns (r: Reply<()>)
      requires Good(report) && watch.workspaceRecognised && watch.workspaceVerified
      modifies this`trace, this`watch, this`caught, this`progress, this`asked, this`trouble, this`probes
      modifies this`workspace, this`ideOutput, tree`files, this`reading
      modifies this`recipeModified, report
      ensures Stepped(report, r.Raise?, old(report.failures), old(watch), old(progress), old(probes))
      ensures r.Raise? ==> r.exc.OtherError?
      ensures r.Ok? && recipeModified ==> report.failures != []
      ensures old(trouble) ==> trouble
      ensures !trouble && old(reading.writable) && old(workspace.Active? || (workspace.Resting? && !recipeModified)) ==>
        && r.Ok? && Same(report, old(report.failures), old(report.cancellation))
        && workspace.Resting? && !recipeModified && reading.writable
      ensures r.Ok? && report.failures == [] ==>
        && old(report.failures) == []
        && asked == old(asked) + (if old(recipeModified) || world(old(asked)).listed then 12 else 7)
        && ToolDone(asked - 1)
    {
      hide FilesRead, Fitting, WorkspaceText, ToolDone, Verified, Account;
      DiscoverRecipes(report);
      if recipeModified {
        var verified := VerifyWorkspace(false, true);
        if verified.Raise? {
          if verified.exc.OtherError? {
            Abandon(report);
            return verified;
          }
          RecordFailure(report, ResidualState, Some(verified.exc));
          return Ok(());
        }
        ResetRecipe(report);
      }
      r := RemoveWorkspace(report);
    }

    method DiscoverRecipes(report: Report)
      requires Good(report) && watch.workspaceRecognised && watch.workspaceVerified
      modifies this`trace, this`watch, this`caught, this`progress, this`asked, this`trouble, this`workspace, this`ideOutput, tree`files, this`reading, report
      modifies this`recipeModified
      ensures Good(report) && Steady(report, old(report.failures), old(watch), old(progress))
      ensures !watch.restoredLast
      ensures var a := world(old(asked));
        if a.exc.None? && a.listed && !a.others then recipeModified && report.failures == old(report.failures)
        else
          && recipeModified == old(recipeModified)
          && report.failures == old(report.failures)
             + if a.exc.Some? then [StateDiscovery] else if a.others then [UnexpectedRecipes] else []
      ensures old(trouble) ==> trouble
      ensures !trouble ==>
        && Same(report, old(report.failures), old(report.cancellation))
        && workspace == old(workspace) && reading == old(reading)
        && recipeModified == (old(recipeModified) || workspace.Active?)
      ensures asked == old(asked) + 1
    {
      hide FilesRead, Fitting, WorkspaceText, Account, Sessions, Settled;
      Log(DevtoolStatus);
      var status, listed, others := ListRecipes(workspace.Active?);
      if status.Raise? {
        RecordFailure(report, StateDiscovery, Some(status.exc));
        return;
      }
      if listed && !others {
        recipeModified := true;
      } else if others {
        RecordFailure(report, UnexpectedRecipes, None);
      }
    }

    method ResetRecipe(report: Report)
      requires Good(report) && watch.workspaceRecognised && watch.workspaceVerified && workspace.Active?
      modifies this`trace, this`watch, this`caught, this`progress, this`asked, this`trouble, this`workspace, this`ideOutput, tree`files, this`reading, report
      modifies this`recipeModified
      ensures Good(report) && Steady(report, old(report.failures), old(watch), old(progress))
      ensures recipeModified ==> report.failures != []
      ensures !watch.restoredLast
      ensures old(trouble) ==> trouble
      ensures !trouble ==>
        && Same(report, old(report.failures), old(report.cancellation))
        && workspace.Resting? && reading == old(reading) && !recipeModified
      ensures asked == old(asked) + 1
    {
      hide FilesRead, Fitting, WorkspaceText;
      Log(DevtoolReset);
      var reset := RunTool(Resting, ideOutput, false);
      if reset.Raise? {
        RecordFailure(report, ResetIssue, Some(reset.exc));
      } else if reset.value != 0 {
        RecordFailure(report, ResetIssue, None);
      } else {
        recipeModified := false;
      }
    }

    method CheckStatus(report: Report)
      requires Good(report) && watch.workspaceRecognised && watch.workspaceVerified
      modifies this`trace, this`watch, this`caught, this`progress, this`asked, this`trouble, this`workspace, this`ideOutput, tree`files, this`reading, report
      ensures Good(report) && Steady(report, old(report.failures), old(watch), old(progress))
      ensures !watch.restoredLast
      ensures old(trouble) ==> trouble
      ensures !trouble ==>
        && Same(report, old(report.failures), old(report.cancellation))
        && workspace == old(workspace) && reading == old(reading)
      ensures asked == old(asked) + 1
      ensures var a := world(old(asked));
        report.failures == old(report.failures) + if a.exc.None? && !a.listed && !a.others then [] else [StatusIssue]
    {
      hide FilesRead, Fitting, WorkspaceText;
      Log(DevtoolStatus);
      var status, listed, others := ListRecipes(false);
      if status.Raise? {
        RecordFailure(report, StatusIssue, Some(status.exc));
      } else if listed || others {
        RecordFailure(report, StatusIssue, None);
      }
    }

    /** The workspace must be at rest after the reset. */
    method CheckResting(report: Report) returns (r: Reply<()>)
      requires Good(report) && watch.workspaceRecognised && watch.workspaceVerified && !watch.restoredLast
      modifies this`trace, this`watch, this`caught, this`progress, this`asked, this`trouble, this`probes, report
      ensures Stepped(report, r.Raise?, old(report.failures), old(watch), old(progress), old(probes))
      ensures r.Raise? ==> r.exc.OtherError?
      ensures r.Ok? && !workspace.Resting? ==> report.failures != []
      ensures old(trouble) ==> trouble
      ensures !trouble && workspace.Resting? ==> r.Ok? && Same(report, old(report.failures), old(report.cancellation))
      ensures r.Ok? && report.failures == [] ==> asked == old(asked) + 4
    {
      hide FilesRead, Fitting, WorkspaceText, Account, Sessions;
      r := VerifyWorkspace(true, false);
      if r.Raise? {
        if r.exc.OtherError? {
          Abandon(report);
          return;
        }
        RecordFailure(report, ResidualState, Some(r.exc));
      }
      return Ok(());
    }

    method RemoveWorkspaceLayer(report: Report)
      requires Good(report) && watch.workspaceRecognised && watch.workspaceVerified
      modifies this`trace, this`watch, this`caught, this`progress, this`asked, this`trouble
      modifies this`workspace, this`ideOutput, tree`files, this`reading, report
      ensures Good(report) && Steady(report, old(report.failures), old(watch), old(progress))
      ensures var a := world(old(asked));
        report.failures == old(report.failures) + if a.exc.None? && a.exit == 0 then [] else [LayerRemoval]
      ensures old(trouble) ==> trouble
      ensures !trouble ==>
        workspace == old(workspace) && reading.writable && Same(report, old(report.failures), old(report.cancellation))
      ensures asked == old(asked) + 1
    {
      hide FilesRead, Fitting, WorkspaceText, Account, Sessions, Settled;
      Log(RemoveLayer);
      var removed := RunTool(workspace, ideOutput, true);
      if removed.Raise? {
        RecordFailure(report, LayerRemoval, Some(removed.exc));
      } else if removed.value != 0 {
        RecordFailure(report, LayerRemoval, None);
      }
    }

    method RemoveWorkspace(report: Report) returns (r: Reply<()>)
      requires Good(report) && watch.workspaceRecognised && watch.workspaceVerified
      modifies this`trace, this`watch, this`caught, this`progress, this`asked, this`trouble, this`probes
      modifies this`workspace, this`ideOutput, tree`files, this`reading, report
      ensures Stepped(report, r.Raise?, old(report.failures), old(watch), old(progress), old(probes))
      ensures r.Raise? ==> r.exc.OtherError?
      ensures old(trouble) ==> trouble
      ensures !trouble && old(workspace.Resting?) ==>
        && r.Ok? && Same(report, old(report.failures), old(report.cancellation))
        && workspace.Resting? && reading.writable
      ensures r.Ok? && report.failures == [] ==>
        asked == old(asked) + 6 && world(old(asked)).exc.None? && ToolDone(old(asked) + 5)
    {
      hide FilesRead, Fitting, WorkspaceText, Account, Sessions;
      CheckStatus(report);
      r := CheckResting(report);
      if r.Ok? {
        RemoveWorkspaceLayer(report);
      }
    }

    /** Restore the base configuration, always. */
    method RestoreBase(report: Report) returns (restored: bool)
      requires Good(report)
      modifies this`trace, this`watch, this`caught, this`progress, this`asked, this`trouble, this`workspaceAdded, report, tree`files, this`reading
      ensures Good(report) && Steady(report, old(report.failures), old(watch), old(progress))
      ensures watch.restoredLast
      ensures if restored then Authentic(C.Base) else report.failures != []
      ensures old(trouble) ==> trouble
      ensures !trouble && old(reading.writable) && Fitting() ==>
        && restored && Same(report, old(report.failures), old(report.cancellation))
        && reading == Reading(Some(C.Base), true) && !workspaceAdded
      ensures restored ==> asked == old(asked) + 2
    {
      hide FilesRead, Fitting, WorkspaceText;
      var base := ConfigureBase();
      if base.Ok? {
        workspaceAdded := false;
        base := VerifyClosedConfiguration(C.Base);
      }
      if base.Raise? {
        RecordFailure(report, Restoration, Some(base.exc));
      }
      return base.Ok?;
    }

    /** The residual check. It keeps no cancellation, and need not: what it swallows is
        logged as caught, and is never a cancellation. */
    method CheckResidue(report: Report) returns (r: Reply<()>)
      requires Good(report) && watch.restoredLast
      modifies this`trace, this`watch, this`caught, this`progress, this`asked, this`trouble, this`probes, report
      ensures Account() && Sessions() && watch.guarded && watch.restoredLast && !watch.leakedEarly
      ensures progress == old(progress) && report.cancellation == caught
      ensures old(probes) <= probes && (watch.leakedLate <==> !Clear(old(probes), probes))
      ensures r == if watch.leakedLate then Raise(OtherError) else Ok(())
      ensures old(report.failures) != [] ==> report.failures != []
      ensures r.Ok? && report.failures == [] ==> workspace.Absent? || workspace.Resting?
      ensures old(trouble) ==> trouble
      ensures !trouble && (workspace.Absent? || workspace.Resting?) ==>
        r.Ok? && Same(report, old(report.failures), old(report.cancellation))
      ensures r.Ok? && report.failures == [] ==> asked == old(asked) + if workspace.Absent? then 0 else 4
    {
      hide FilesRead, Fitting, WorkspaceText, Account, Sessions, Verified;
      var verified := Probe();
      if verified.Ok? && !workspace.Absent? {
        verified := VerifyWorkspace(true, false);
      }
      if verified.Raise? {
        if verified.exc.OtherError? {
          Log(LeakedLate(OtherError));
          return verified;
        }
        Log(Caught(verified.exc));
        if ResidualState !in report.failures {
          RecordFailure(report, ResidualState, None);
        }
      }
      return Ok(());
    }

    /** The last checks, and the exception that reports what went wrong. */
    method Conclude(report: Report, restored: bool) returns (r: Reply<()>)
      requires Good(report) && watch.restoredLast
      requires !restored ==> report.failures != []
      modifies this`trace, this`watch, this`caught, this`progress, this`asked, this`trouble, this`probes, report
      ensures Account() && Sessions() && watch.guarded && watch.restoredLast && !watch.leakedEarly
      ensures Settled(old(progress)) ==> progress == old(progress)
      ensures old(probes) <= probes && (watch.leakedLate <==> !Clear(old(probes), probes))
      ensures watch.leakedLate ==> r == Raise(OtherError)
      ensures !watch.leakedLate ==> Reported(report, r)
      ensures r.Ok? ==> old(report.failures) == [] && restored && (workspace.Absent? || workspace.Resting?)
      ensures old(trouble) ==> trouble
      ensures !trouble && restored && reading.state == Some(C.Base) ==>
        (workspace.Absent? || workspace.Resting?) && old(Same(report, [], None)) ==> r.Ok?
      ensures r.Ok? ==> asked == old(asked) + (if workspace.Absent? then 6 else 10) && Composed(asked - 6)
    {
      hide FilesRead, Fitting, WorkspaceText;
      r := CheckResidue(report);
      if r.Raise? {
        return;
      }
      if restored {
        var queried := CompositionPreflight();
        if queried.Raise? {
          RecordFailure(report, Verification, Some(queried.exc));
        }
      }
      if report.cancellation.Some? {
        return Raise(Cancelled(report.cancellation.value));
      }
      return if report.failures != [] then Raise(SdkError) else Ok(());
    }

    /** The first cancellation caught is raised; any failure raises. */
    ghost predicate Reported(report: Report, r: Reply<()>)
      reads this`caught, report`failures
    {
      && (caught.Some? ==> r == Raise(Cancelled(caught.value)))
      && (caught.None? && report.failures != [] ==> r == Raise(SdkError))
      && (r.Ok? <==> caught.None? && report.failures == [])
    }

    /** For any answers of the probes the last cleanup made outside a handler: base was
        restored last exactly when none of those before the restoration raised. */
    ghost predicate RestorationExact()
      reads this`watch, this`probes, this`cleanupFrom, this`restoredFrom
    {
      && cleanupFrom < restoredFrom <= probes
      && (watch.restoredLast <==> Clear(cleanupFrom, restoredFrom))
      && (watch.leakedEarly <==> !Clear(cleanupFrom, restoredFrom))
      && (watch.leakedLate <==> !Clear(restoredFrom, probes))
    }

    /** How a cleanup ends: the first cancellation caught is raised exactly when no probe
        outside a handler raised, and nothing else hides a failure. */
    ghost predicate CleanedUp(r: Reply<()>, p: Progress)
      reads this`trace, this`watch, this`caught, this`progress, this`reading, tree`files, this`live, this`activeBoot, this`boots
      reads this`recipeModified, this`workspace, tree`files, this`probes, this`cleanupFrom, this`restoredFrom
    {
      && Account() && Sessions() && watch.guarded
      && (Settled(p) ==> progress == p)
      && RestorationExact()
      && (r == Raise(OtherError) <==> !Clear(cleanupFrom, probes))
      && (caught.Some? ==> (r == Raise(Cancelled(caught.value)) <==> Clear(cleanupFrom, probes)))
      && (caught.None? && Clear(cleanupFrom, probes) ==> r.Ok? || r == Raise(SdkError))
      && (r.Ok? ==> AtRest())
    }

    /** Examine what is there, and restore the base at once when devtool cannot be used. */
    method Recognise(report: Report) returns (r: Reply<Exam>)
      requires Good(report) && !watch.restoredLast
      modifies this`trace, this`watch, this`caught, this`progress, this`asked, this`trouble, this`probes
      modifies this`workspace, this`ideOutput, tree`files, this`reading, this`workspaceAdded, report
      ensures Stepped(report, r.Raise?, old(report.failures), old(watch), old(progress), old(probes))
      ensures old(probes) < probes
      ensures r.Raise? ==> r.exc.OtherError?
      ensures r.Ok? ==> Examined(report, r.value) && (r.value.canUseDevtool ==> !watch.restoredLast)
      ensures r.Ok? && !r.value.canUseDevtool && recipeModified ==> report.failures != [] || workspace.Active?
      ensures old(trouble) ==> trouble
      ensures !trouble && old(Cleanable()) ==>
        && r.Ok? && Same(report, old(report.failures), old(report.cancellation))
        && (r.value.canUseDevtool <==> old(reading.state) == Some(C.Workspace))
        && workspace == old(workspace) && reading.writable
        && (deploymentAttempted && activeBoot.Some? && activeBoot.value.port.Some? ==> Live())
    {
      hide FilesRead, Fitting, WorkspaceText, Account, Sessions;
      r := Examine(report);
      if r.Raise? || r.value.canUseDevtool {
        return;
      }
      var restored := RestoreEarly(report, r.value.configuration);
      if restored.Raise? {
        return Raise(restored.exc);
      }
    }

    /** From recognition to the stopped guest. */
    method Retreat(report: Report) returns (r: Reply<Exam>)
      requires Good(report) && !watch.restoredLast
      modifies this`trace, this`watch, this`caught, this`progress, this`asked, this`trouble, this`probes
      modifies this`workspace, this`ideOutput, tree`files, this`reading
      modifies this`workspaceAdded, this`recipeModified, this`deployed, this`deploymentAttempted, this`residue
      modifies this`live, this`activeBoot
      modifies report
      ensures Stepped(report, r.Raise?, old(report.failures), old(watch), old(progress), old(probes))
      ensures old(probes) < probes
      ensures r.Raise? ==> r.exc.OtherError?
      ensures r.Ok? ==> Examined(report, r.value)
      ensures r.Ok? && !r.value.canUseDevtool && recipeModified ==> report.failures != [] || workspace.Active?
      ensures old(trouble) ==> trouble
      ensures !trouble && old(Cleanable()) ==>
        && r.Ok? && Same(report, old(report.failures), old(report.cancellation))
        && (r.value.canUseDevtool <==> old(reading.state) == Some(C.Workspace))
        && workspace == old(workspace) && recipeModified == old(recipeModified) && activeBoot.None? && reading.writable
      ensures r.Ok? && old(Reachable()) ==> !residue || report.failures != []
    {
      hide FilesRead, Fitting, WorkspaceText, Account, Cleanable;
      r := Recognise(report);
      if r.Raise? {
        return;
      }
      Undeploy(report, r.value);
      StopActive(report);
    }

    /** With devtool, undo what it did; then stop a session that still runs. */
    method Undo(report: Report, usable: bool) returns (r: Reply<()>)
      requires Good(report) && (usable ==> watch.workspaceRecognised && watch.workspaceVerified)
      modifies this`trace, this`watch, this`caught, this`progress, this`asked, this`trouble, this`probes
      modifies this`workspace, this`ideOutput, tree`files, this`reading, this`recipeModified
      modifies this`live, this`activeBoot, report
      ensures Stepped(report, r.Raise?, old(report.failures), old(watch), old(progress), old(probes))
      ensures r.Raise? ==> r.exc.OtherError?
      ensures r.Ok? && activeBoot.Some? ==> report.failures != []
      ensures r.Ok? && usable && recipeModified ==> report.failures != []
      ensures !usable ==> recipeModified == old(recipeModified) && workspace == old(workspace)
      ensures old(trouble) ==> trouble
      ensures !trouble && old(reading.writable)
              && (usable ==> old(workspace.Active? || (workspace.Resting? && !recipeModified))) ==>
        && r.Ok? && Same(report, old(report.failures), old(report.cancellation)) && activeBoot.None? && reading.writable
        && (if usable then workspace.Resting? && !recipeModified else workspace == old(workspace))
    {
      hide FilesRead, Fitting, WorkspaceText, Account, Sessions;
      if usable {
        r := ResetWorkspace(report);
        if r.Raise? {
          return;
        }
      }
      StopActive(report);
      return Ok(());
    }

    /** Everything up to the restoration of the base; the answer says whether it stands. */
    method Restore(report: Report) returns (r: Reply<bool>)
      requires Good(report) && !watch.restoredLast
      modifies this`trace, this`watch, this`caught, this`progress, this`asked, this`trouble, this`probes
      modifies this`workspace, this`ideOutput, tree`files, this`reading
      modifies this`workspaceAdded, this`recipeModified, this`deployed, this`deploymentAttempted, this`residue
      modifies this`live, this`activeBoot
      modifies report
      ensures Stepped(report, r.Raise?, old(report.failures), old(watch), old(progress), old(probes))
      ensures old(probes) < probes
      ensures r.Raise? ==> r.exc.OtherError?
      ensures r.Ok? ==> watch.restoredLast
      ensures r.Ok? ==> if r.value then Authentic(C.Base) else report.failures != []
      ensures r.Ok? && activeBoot.Some? ==> report.failures != []
      ensures r.Ok? && recipeModified ==> report.failures != [] || workspace.Active?
      ensures r.Ok? && old(Reachable()) ==> !residue || report.failures != []
      ensures old(trouble) ==> trouble
      ensures !trouble && old(Cleanable()) ==>
        r == Ok(true) && Same(report, old(report.failures), old(report.cancellation)) && Idle()
    {
      hide FilesRead, Fitting, WorkspaceText, Account, Sessions, Authentic, Advance, Observe, Hear, Settled, Reachable;
      var examined := Retreat(report);
      if examined.Raise? {
        return Raise(examined.exc);
      }
      var undone := Undo(report, examined.value.canUseDevtool);
      if undone.Raise? {
        return Raise(undone.exc);
      }
      var restored := RestoreBase(report);
      r := Ok(restored);
    }

    lemma NoSession()
      requires Sessions()
      ensures activeBoot.None? ==> live == {}
    {
    }

    /** Cleanup with its report. */
    method Clean(report: Report) returns (r: Reply<()>)
      requires Good(report) && !watch.restoredLast && Same(report, [], None)
      modifies this`trace, this`watch, this`caught, this`progress, this`asked, this`trouble, this`probes
      modifies this`workspace, this`ideOutput, tree`files, this`reading
      modifies this`workspaceAdded, this`recipeModified, this`deployed, this`deploymentAttempted, this`residue
      modifies this`live, this`activeBoot, this`restoredFrom, report
      ensures Account() && Sessions() && watch.guarded
      ensures Settled(old(progress)) ==> progress == old(progress)
      ensures old(probes) < restoredFrom <= probes
      ensures if Clear(old(probes), restoredFrom)
              then watch.restoredLast && !watch.leakedEarly && (watch.leakedLate <==> !Clear(restoredFrom, probes))
              else !watch.restoredLast && watch.leakedEarly && !watch.leakedLate && restoredFrom == probes
      ensures watch.leakedEarly || watch.leakedLate ==> r == Raise(OtherError)
      ensures !watch.leakedEarly && !watch.leakedLate ==> Reported(report, r)
      ensures r.Ok? ==> AtRest()
      ensures old(trouble) ==> trouble
      ensures !trouble && old(Cleanable()) ==> r.Ok? && Idle()
      ensures r.Ok? && old(Reachable()) ==> !residue
    {
      hide FilesRead, Fitting, WorkspaceText, Authentic, Sessions, Account, Settled, Onward, Clear, Cleanable;
      var restored := Restore(report);
      restoredFrom := probes;
      if restored.Raise? {
        return Raise(restored.exc);
      }
      NoSession();
      r := Conclude(report, restored.value);
    }

    method CleanupUninterrupted() returns (r: Reply<()>)
      requires Account() && Sessions() && watch.guarded
      modifies this`trace, this`watch, this`caught, this`progress, this`asked, this`trouble, this`probes
      modifies this`workspace, this`ideOutput, tree`files, this`reading
      modifies this`workspaceAdded, this`recipeModified, this`deployed, this`deploymentAttempted, this`residue
      modifies this`live, this`activeBoot, this`cleanupFrom, this`restoredFrom
      ensures CleanedUp(r, old(progress)) && cleanupFrom == old(probes)
      ensures old(trouble) ==> trouble
      ensures !trouble && old(Cleanable()) ==> r.Ok? && Idle()
      ensures r.Ok? && old(Reachable()) ==> !residue
    {
      hide FilesRead, Fitting, WorkspaceText, Authentic, Sessions, Account, Settled, Onward, AtRest, Cleanable;
      Log(CleanupBegins);
      cleanupFrom := probes;
      var report := new Report();
      r := Clean(report);
    }

    /** Leave the region around cleanup: a signal that arrived in it is raised, or noted on
        the exception that cleanup raised. */
    method LeaveCleanup(block: Reply<()>) returns (r: Reply<()>, ghost notes: seq<D.Signal>)
      modifies this`asked, this`trouble, this`heard
      ensures block.Raise? ==> r == block
      ensures var signals := world(old(asked)).signals;
        block.Ok? ==> r == if signals == [] then block else Raise(Cancelled(signals[0]))
      ensures heard == old(heard) + (if world(old(asked)).signals == [] then {} else {world(old(asked)).signals[0]})
      ensures r.Raise? ==> heard <= old(heard) + D.Tells(Ending(r, notes))
      ensures trouble <==> old(trouble) || world(old(asked)).signals != []
    {
      var arrivals := Arrivals();
      var signum;
      r, signum, notes := LeaveRegion(block, arrivals, true, []);
      heard := heard + Of(signum);
    }

    /** Cleanup with host signals deferred: one that arrives is raised if cleanup returns,
        and noted on its exception otherwise. */
    method Cleanup() returns (r: Reply<()>, ghost notes: seq<D.Signal>)
      requires Account() && Sessions() && watch.guarded
      modifies this`trace, this`watch, this`caught, this`progress, this`asked, this`trouble, this`probes
      modifies this`workspace, this`ideOutput, tree`files, this`reading
      modifies this`workspaceAdded, this`recipeModified, this`deployed, this`deploymentAttempted, this`residue
      modifies this`live, this`activeBoot, this`cleanupFrom, this`restoredFrom, this`heard
      ensures Account() && Sessions() && watch.guarded
      ensures cleanupFrom == old(probes) && RestorationExact()
      ensures r == Raise(OtherError) <==> !Clear(cleanupFrom, probes)
      ensures caught.Some? ==> (r == Raise(Cancelled(caught.value)) <==> Clear(cleanupFrom, probes))
      ensures r.Ok? ==> AtRest() && caught.None? && heard == old(heard)
      ensures r.Raise? ==> !r.exc.Interrupted? && old(heard) <= heard <= old(heard) + D.Tells(Ending(r, notes))
      ensures Settled(old(progress)) ==>
                progress == if r.Ok? then Advance(old(progress), CleanupReturned, expected) else old(progress)
      ensures old(trouble) ==> trouble
      ensures !trouble && old(Cleanable()) ==> r.Ok? && Idle()
      ensures r.Ok? && old(Reachable()) ==> !residue
    {
      hide FilesRead, Fitting, WorkspaceText, Account, Authentic, Settled;
      r := CleanupUninterrupted();
      r, notes := LeaveCleanup(r);
      if r.Ok? {
        Log(CleanupReturned);
      }
    }

    // ---- The lifecycle ----

    /** Removing the evidence works, or the run is marked as having failed to. */
    method ClearEvidence() returns (r: Reply<()>)
      modifies this`evidence, this`uncleared, this`asked, this`trouble
      ensures r.Ok? ==> evidence == None && uncleared == old(uncleared)
      ensures r.Raise? ==> evidence == old(evidence) && uncleared
      ensures r == Said(world(old(asked))) && asked == old(asked) + 1
      ensures trouble <==> old(trouble) || r.Raise?
    {
      r := Outside();
      if r.Ok? {
        evidence := None;
      } else {
        uncleared := true;
      }
    }

    /** Clear stale evidence and check tooling; `ready` once the tools are authenticated. */
    method Preflight() returns (r: Reply<()>)
      modifies this`evidence, this`uncleared, this`asked, this`trouble
      ensures r.Ok? ==> evidence == None
      ensures evidence == None || uncleared
      ensures trouble <==> old(trouble) || r.Raise?
      ensures r.Ok? <==> world(old(asked)).exc.None? && world(old(asked) + 1).exc.None?
    {
      r := ClearEvidence();
      if r.Ok? {
        r := Outside();
      }
    }

    /** A tree a run can start from: no workspace yet, or one that cleanup can put right. */
    ghost predicate Startable()
      reads this`workspace, this`reading, this`workspaceAdded, this`recipeModified, this`deploymentAttempted
      reads this`activeBoot, this`live
    {
      && Fitting() && reading.writable && !workspaceAdded && !recipeModified && !deploymentAttempted
      && activeBoot.None? && (workspace.Absent? || Cleanable())
    }

    /** From the n-th answer on, the base was authenticated, its composition and the security
        preflight passed, and the image was built. */
    predicate Founded(n: nat)
    {
      world(n).exc.None? && Composed(n + 1) && world(n + 7).exc.None? && world(n + 8).exc.None?
    }

    /** Authenticate the base configuration and build the image. */
    method CheckBase() returns (r: Reply<()>)
      requires Account() && watch.guarded
      modifies this`trace, this`watch, this`caught, this`progress, this`asked, this`trouble
      ensures Account() && watch.guarded
      ensures old(trouble) ==> trouble
      ensures r.Raise? ==> trouble || reading.state != Some(C.Base)
      ensures r.Ok? ==> asked == old(asked) + 9 && Founded(old(asked))
    {
      hide FilesRead, Fitting, WorkspaceText, Account;
      r := VerifyClosedConfiguration(C.Base);
      if r.Raise? {
        return;
      }
      r := CompositionPreflight();
      if r.Raise? {
        return;
      }
      r := Outside();  // the security preflight
      if r.Ok? {
        r := Outside();  // the image
      }
    }

    /** Reach the authenticated base configuration and build the image. */
    method PrepareBase() returns (r: Reply<()>, ghost notes: seq<D.Signal>)
      requires Account() && Sessions() && watch.guarded
      modifies this`trace, this`watch, this`caught, this`progress, this`asked, this`trouble, this`probes
      modifies this`workspace, this`ideOutput, tree`files, this`reading
      modifies this`workspaceAdded, this`recipeModified, this`deployed, this`deploymentAttempted, this`residue
      modifies this`live, this`activeBoot, this`cleanupFrom, this`restoredFrom, this`heard
      ensures Account() && Sessions() && watch.guarded
      ensures r.Ok? && old(activeBoot).None? ==> activeBoot.None?
      ensures if r.Ok? then heard == old(heard) else old(heard) <= heard <= old(heard) + D.Tells(Ending(r, notes))
      ensures old(trouble) ==> trouble
      ensures !trouble && old(Startable()) ==> r.Ok? && Idle()
      ensures r.Ok? ==> asked >= 9 && Founded(asked - 9)
    {
      hide FilesRead, Fitting, WorkspaceText, Account, Authentic, Sessions, Founded, Composed;
      r := Probe();
      notes := [];
      if r.Raise? {
        return;
      }
      if !workspace.Absent? {
        r, notes := Cleanup();
      } else {
        r := ConfigureBase();
      }
      if r.Raise? {
        return;
      }
      notes := [];
      r := CheckBase();
    }

    /** Check what is already there: nothing, or a resting devtool layer. */
    method CheckExisting() returns (r: Reply<()>)
      requires Account() && watch.guarded
      modifies this`trace, this`watch, this`caught, this`progress, this`asked, this`trouble, this`probes
      ensures Account() && watch.guarded
      ensures old(trouble) ==> trouble
      ensures r.Raise? ==> trouble || !(workspace.Absent? || workspace.Resting?)
      ensures r.Ok? ==>
        && asked == old(asked) + (if workspace.Absent? then 3 else 7)
        && world(old(asked)).exc.None? && world(asked - 1).exc.None?
        && (!workspace.Absent? ==> world(old(asked) + 1).works && Verified(old(asked) + 2))
      ensures asked <= old(asked) + if workspace.Absent? then 3 else 7
    {
      hide FilesRead, Fitting, WorkspaceText, Verified;
      r := Outside();
      if r.Raise? {
        return;
      }
      var layered := Layered();
      if !workspace.Absent? && layered {
        r := VerifyWorkspace(true, false);
      } else if !workspace.Absent? {
        r := Raise(SdkError);
      }
      if r.Ok? {
        r := Outside();
      }
    }

    /** Whether the workspace holds a regular layer configuration, as it should when there is
        a workspace. */
    method Layered() returns (layered: bool)
      modifies this`asked, this`trouble
      ensures layered == world(old(asked)).works
      ensures trouble <==> old(trouble) || (!layered && !workspace.Absent?)
      ensures asked == old(asked) + 1
    {
      layered := world(asked).works;
      asked := asked + 1;
      trouble := trouble || (!layered && !workspace.Absent?);
    }

    /** Create the workspace, and configure the build with it. */
    method CreateWorkspace() returns (r: Reply<()>)
      requires Account() && watch.guarded
      modifies this`trace, this`watch, this`caught, this`progress, this`asked, this`trouble, this`probes
      modifies this`workspace, this`ideOutput, tree`files, this`reading, this`workspaceAdded
      ensures Account() && watch.guarded
      ensures old(trouble) ==> trouble
      ensures !trouble && (old(workspace.Absent?) || old(workspace.Resting?)) && Fitting() ==>
        r.Ok? && workspace.Resting? && !ideOutput && reading == Reading(Some(C.Workspace), true)
      ensures r.Ok? ==>
        && asked == old(asked) + (if old(workspace.Absent?) then 5 else 9)
        && world(old(asked)).exc.None? && ToolDone(asked - 2) && world(asked - 1).exc.None?
      ensures r.Ok? ==> workspaceAdded
      ensures var tool := old(asked) + if old(workspace.Absent?) then 3 else 7;
        asked > tool && ToolDone(tool) ==> workspaceAdded
    {
      hide FilesRead, Fitting, WorkspaceText, Account, C.Works;
      r := CheckExisting();
      if r.Raise? {
        return;
      }
      var created := RunTool(Resting, false, true);
      if created.Raise? || created.value != 0 {
        return Raise(if created.Raise? then created.exc else SdkError);
      }
      workspaceAdded := true;
      var written;
      r, written := Configure(Some(tree.lab.workspace));
    }

    /** Check the workspace just created, and that no recipe is modified in it. */
    method CheckCreated() returns (r: Reply<()>)
      requires Account() && watch.guarded
      modifies this`trace, this`watch, this`caught, this`progress, this`asked, this`trouble, this`probes
      modifies this`workspace, this`ideOutput, tree`files, this`reading
      ensures Account() && watch.guarded
      ensures old(trouble) ==> trouble
      ensures !trouble ==> workspace == old(workspace) && ideOutput == old(ideOutput) && reading == old(reading)
      ensures !trouble && old(workspace.Resting?) && old(reading.state) == Some(C.Workspace) ==> r.Ok?
      ensures r.Ok? ==>
        && asked == old(asked) + 7
        && world(old(asked)).exc.None? && Verified(old(asked) + 1) && world(old(asked) + 5).works
        && world(old(asked) + 6).exc.None? && !world(old(asked) + 6).listed && !world(old(asked) + 6).others
    {
      hide FilesRead, Fitting, WorkspaceText, Account;
      r := VerifyClosedConfiguration(C.Workspace);
      if r.Raise? {
        return;
      }
      r := VerifyWorkspace(true, false);
      if r.Raise? {
        return;
      }
      var authoritative := Agrees();
      if !authoritative {
        return Raise(SdkError);
      }
      var status, listed, others := ListRecipes(false);
      if status.Raise? || listed || others {
        return Raise(if status.Raise? then status.exc else SdkError);
      }
    }

    /** Create the workspace and the learner source in it. */
    method PrepareWorkspace() returns (r: Reply<Digest>)
      requires Account() && watch.guarded
      modifies this`trace, this`watch, this`caught, this`progress, this`asked, this`trouble, this`probes
      modifies this`workspace, this`ideOutput, tree`files, this`reading, this`workspaceAdded
      ensures Account() && watch.guarded
      ensures r.Ok? ==> progress == HasSource(r.value)
      ensures old(trouble) ==> trouble
      ensures !trouble && (old(workspace.Absent?) || old(workspace.Resting?)) && Fitting() ==>
        r.Ok? && workspace.Resting? && !ideOutput && reading == Reading(Some(C.Workspace), true)
      ensures r.Ok? ==> asked == old(asked) + (if old(workspace.Absent?) then 13 else 17)
    {
      hide FilesRead, Fitting, WorkspaceText, Account, ToolDone, Verified;
      var step := CreateWorkspace();
      if step.Raise? {
        return Raise(step.exc);
      }
      step := CheckCreated();
      if step.Raise? {
        return Raise(step.exc);
      }
      var path;
      r, path := ReadDigest(None, None);
      if r.Ok? {
        Log(SourcePrepared(r.value));
      }
    }

    /** Hash a file, or find that it cannot be had; a good answer is the wanted digest, where
        one is wanted. The path is the one the hash is printed for. */
    method ReadDigest(ghost wanted: Option<Digest>, ghost wantedPath: Option<string>)
      returns (r: Reply<Digest>, path: string)
      modifies this`asked, this`trouble
      ensures r.Raise? <==> world(old(asked)).exc.Some?
      ensures r.Ok? ==> r.value == world(old(asked)).digest
      ensures path == world(old(asked)).path
      ensures trouble <==>
        || old(trouble) || r.Raise? || (wanted.Some? && r.value != wanted.value)
        || (wantedPath.Some? && path != wantedPath.value)
      ensures asked == old(asked) + 1
    {
      var a := world(asked);
      path := a.path;
      var said := Outside();
      r := if said.Raise? then Raise(said.exc) else Ok(a.digest);
      trouble :=
        || trouble || (wanted.Some? && a.digest != wanted.value) || (wantedPath.Some? && path != wantedPath.value);
    }

    /** A command of the lifecycle: a failing exit raises. */
    method RunChecked(ghost wanted: Tree, ghost ide: bool) returns (r: Reply<()>)
      requires Account()
      modifies this`workspace, this`ideOutput, tree`files, this`reading, this`asked, this`trouble
      ensures Account() && asked == old(asked) + 1
      ensures r.Ok? <==> world(old(asked)).exc.None? && world(old(asked)).exit == 0
      ensures trouble <==>
        old(trouble) || r.Raise? || workspace != wanted || ideOutput != ide || reading != old(reading)
    {
      hide FilesRead, Fitting, WorkspaceText;
      var tool := RunTool(wanted, ide, false);
      return if tool.Raise? then Raise(tool.exc) else if tool.value != 0 then Raise(SdkError) else Ok(());
    }

    /** Put the recipe into the workspace, build it, and hash what was built. */
    method ModifyAndBuild() returns (r: Reply<Digest>)
      requires Account()
      modifies this`workspace, this`ideOutput, tree`files, this`reading, this`recipeModified, this`asked, this`trouble
      ensures Account()
      ensures r.Ok? ==> recipeModified
      ensures old(trouble) || r.Raise? ==> trouble
      ensures !trouble ==> workspace.Active? && !ideOutput && recipeModified && reading == old(reading)
      ensures r.Ok? ==> asked == old(asked) + 3 && ToolDone(old(asked)) && ToolDone(old(asked) + 1)
    {
      hide FilesRead, Fitting, WorkspaceText, Account;
      var step := RunChecked(Active, false);  // devtool modify
      if step.Raise? {
        return Raise(step.exc);
      }
      recipeModified := true;
      step := RunChecked(Active, false);  // devtool build
      if step.Raise? {
        return Raise(step.exc);
      }
      var path;
      r, path := ReadDigest(None, None);
    }

    /** Build the sample and its IDE output, and move the latter out of the workspace. */
    method BuildSample(ghost source: Digest) returns (r: Reply<Digest>)
      requires Account() && watch.guarded && progress == HasSource(source)
      modifies this`trace, this`watch, this`caught, this`progress, this`asked, this`trouble
      modifies this`workspace, this`ideOutput, tree`files, this`reading, this`recipeModified
      ensures Account() && watch.guarded
      ensures r.Ok? ==> progress == HasArtifact(source, r.value)
      ensures old(trouble) ==> trouble
      ensures !trouble ==>
        r.Ok? && workspace.Active? && !ideOutput && recipeModified && reading == old(reading)
      ensures r.Ok? ==>
        && asked == old(asked) + 5 && ToolDone(old(asked)) && ToolDone(old(asked) + 1) && ToolDone(old(asked) + 3)
        && world(old(asked) + 4).works
    {
      hide FilesRead, Fitting, WorkspaceText, Account;
      r := ModifyAndBuild();
      if r.Raise? {
        return;
      }
      Log(ArtifactBuilt(r.value));
      var step := RunChecked(Active, true);  // devtool ide-sdk
      if step.Raise? {
        return Raise(step.exc);
      }
      step := RetainIdeOutput();
      if step.Raise? {
        return Raise(step.exc);
      }
    }

    /** Start a fresh session. It becomes the active one before it is known to run. */
    method BootUp() returns (r: Reply<()>)
      requires Account() && Sessions() && activeBoot.None?
      modifies this`trace, this`watch, this`caught, this`progress, this`asked, this`trouble, this`live, this`activeBoot, this`boots
      ensures Account() && Sessions() && watch == old(watch)
      ensures activeBoot.Some? && activeBoot.value.id == old(boots)
      ensures boots == old(boots) + 1
      ensures r.Ok? ==> progress == Advance(old(progress), Booted(old(boots)), expected)
      ensures r.Ok? <==> world(old(asked)).exc.None? && world(old(asked)).works && world(old(asked)).port.Some?
      ensures r.Ok? ==> Live()
      ensures trouble <==> old(trouble) || r.Raise?
      ensures asked == old(asked) + 1
    {
      hide FilesRead, Fitting, WorkspaceText, Account, Advance;
      var a := world(asked);
      asked := asked + 1;
      trouble := trouble || a.exc.Some? || !a.works || a.port.None?;
      activeBoot := Some(Boot(boots, a.port));
      boots := boots + 1;
      live := if a.works then {boots - 1} else {};
      if a.exc.Some? || !a.works || a.port.None? {
        return Raise(if a.exc.Some? then a.exc.value else SdkError);
      }
      Log(Booted(boots - 1));
      return Ok(());
    }

    /** The guest has no sample binary. */
    method CheckAbsent() returns (r: Reply<()>)
      requires Account() && activeBoot.Some?
      modifies this`trace, this`watch, this`caught, this`progress, this`asked, this`trouble
      ensures Account() && watch == old(watch)
      ensures progress == if r.Ok? then Advance(old(progress), AbsentOn(activeBoot.value.id), expected) else old(progress)
      ensures old(trouble) ==> trouble
      ensures r.Raise? && Live() ==> trouble
      ensures r.Ok? ==> asked == old(asked) + 1 && world(old(asked)).exc.None?
    {
      hide FilesRead, Fitting, WorkspaceText;
      var answer := Remote(None);
      if answer.Raise? {
        return Raise(answer.exc);
      }
      Log(AbsentOn(activeBoot.value.id));
      return Ok(());
    }

    method StopAndForget() returns (r: Reply<()>)
      requires Account() && activeBoot.Some? && Sessions()
      modifies this`live, this`activeBoot, this`trace, this`watch, this`caught, this`progress, this`asked, this`trouble
      ensures Account() && Sessions() && watch == old(watch)
      ensures r.Ok? ==> activeBoot.None?
      ensures r.Ok? ==> progress == Advance(old(progress), Stopped(old(activeBoot.value.id)), expected)
      ensures trouble <==> old(trouble) || r.Raise?
      ensures asked == old(asked) + 1 && (r.Ok? ==> world(old(asked)).works)
    {
      hide FilesRead, Fitting, WorkspaceText;
      r := StopSession();
      if r.Ok? {
        activeBoot := None;
      }
    }

    /** Boot the built image and check the guest before anything is deployed. */
    method StartGuest(ghost source: Digest, ghost artifact: Digest) returns (r: Reply<()>)
      requires Account() && Sessions() && watch.guarded && activeBoot.None?
      requires progress == HasArtifact(source, artifact)
      modifies this`trace, this`watch, this`caught, this`progress, this`asked, this`trouble, this`live, this`activeBoot, this`boots
      ensures Account() && Sessions() && watch.guarded
      ensures r.Ok? ==> activeBoot.Some? && progress == RightMachine(source, artifact, activeBoot.value.id)
      ensures r.Ok? ==> Live()
      ensures old(trouble) || r.Raise? ==> trouble
      ensures r.Ok? ==> asked == old(asked) + 3 && world(old(asked)).works && world(old(asked) + 1).exc.None?
    {
      hide FilesRead, Fitting, WorkspaceText;
      StartSteps(source, artifact, boots, expected);
      hide Advance;
      r := BootUp();
      if r.Raise? {
        return;
      }
      r := CheckAbsent();
      if r.Raise? {
        return;
      }
      var machine := Remote(Some(expected.architecture));
      if machine.Raise? {
        return Raise(machine.exc);
      }
      Log(MachineOn(activeBoot.value.id, machine.value));
      if machine.value != expected.architecture {
        return Raise(SdkError);
      }
      return Ok(());
    }

    /** Deploy, and compare the bytes in the guest with the built ones. */
    method Deploy(ghost source: Digest, artifact: Digest) returns (r: Reply<()>)
      requires Account() && watch.guarded && activeBoot.Some?
      requires progress == RightMachine(source, artifact, activeBoot.value.id)
      modifies this`trace, this`watch, this`caught, this`progress, this`asked, this`trouble, this`workspace, this`ideOutput, tree`files, this`reading
      modifies this`deployed, this`deploymentAttempted, this`residue
      ensures Account() && watch.guarded
      ensures r.Ok? ==> progress == SameDigest(source, artifact, activeBoot.value.id)
      ensures old(trouble) || r.Raise? ==> trouble
      ensures !trouble ==> workspace == old(workspace) && reading == old(reading)
      ensures r.Ok? ==> asked == old(asked) + 2 && ToolDone(old(asked))
      ensures deploymentAttempted && residue && (r.Ok? ==> deployed)
    {
      hide FilesRead, Fitting, WorkspaceText, Account;
      var boot := activeBoot.value.id;
      DeploySteps(source, artifact, boot, expected);
      hide Advance;
      deploymentAttempted, residue := true, true;
      r := RunChecked(workspace, ideOutput);
      if r.Raise? {
        return;
      }
      Log(DeployedTo(boot));
      deployed := true;
      var digest, path := ReadDigest(Some(artifact), Some(expected.guestBinary));
      if digest.Raise? {
        return Raise(digest.exc);
      }
      Log(DigestOn(boot, digest.value, path));
      if digest.value != artifact || path != expected.guestBinary {
        return Raise(SdkError);
      }
    }

    /** Run the sample; it must print the text of the learner source. */
    method AskSample() returns (r: Reply<()>)
      requires Account() && activeBoot.Some?
      modifies this`trace, this`watch, this`caught, this`progress, this`asked, this`trouble
      ensures Account() && watch == old(watch)
      ensures r.Ok? ==> progress == Advance(old(progress), OutputOn(activeBoot.value.id, WorkspaceText()), expected)
      ensures old(trouble) || (r.Raise? && Live()) ==> trouble
      ensures r.Ok? ==> asked == old(asked) + 1
    {
      hide FilesRead, Fitting, WorkspaceText, Account, Advance;
      var output := Remote(Some(WorkspaceText()));
      if output.Raise? {
        return Raise(output.exc);
      }
      Log(OutputOn(activeBoot.value.id, output.value));
      return if output.value == WorkspaceText() then Ok(()) else Raise(SdkError);
    }

    /** Run the sample, and undeploy it again. */
    method RunSample(ghost source: Digest, ghost artifact: Digest) returns (r: Reply<()>)
      requires Account() && watch.guarded && activeBoot.Some?
      requires progress == SameDigest(source, artifact, activeBoot.value.id)
      modifies this`trace, this`watch, this`caught, this`progress, this`asked, this`trouble, this`workspace, this`ideOutput, tree`files, this`reading
      modifies this`deployed, this`deploymentAttempted, this`residue
      ensures Account() && watch.guarded
      ensures r.Ok? ==> progress == Undeployed(source, artifact, activeBoot.value.id)
      ensures r.Ok? ==> !deploymentAttempted
      ensures old(trouble) || (r.Raise? && Live()) ==> trouble
      ensures !trouble ==> workspace == old(workspace) && reading == old(reading)
      ensures r.Ok? ==> asked == old(asked) + 2 && ToolDone(old(asked) + 1)
      ensures if r.Ok? then !deployed && !residue
              else deploymentAttempted == old(deploymentAttempted) && residue == old(residue)
    {
      hide FilesRead, Fitting, WorkspaceText, Account, SignalOf, Live;
      SampleSteps(source, artifact, activeBoot.value.id, expected);
      hide Advance;
      r := AskSample();
      if r.Raise? {
        return;
      }
      r := RunChecked(workspace, ideOutput);
      if r.Raise? {
        return;
      }
      Log(UndeployedFrom(activeBoot.value.id));
      deployed, deploymentAttempted, residue := false, false, false;
    }

    /** Start the guest, deploy the artifact, run it and undeploy it. */
    method TryOut(ghost source: Digest, artifact: Digest) returns (r: Reply<()>)
      requires Account() && Sessions() && watch.guarded && activeBoot.None?
      requires progress == HasArtifact(source, artifact)
      modifies this`trace, this`watch, this`caught, this`progress, this`asked, this`trouble, this`live, this`activeBoot, this`boots
      modifies this`workspace, this`ideOutput, tree`files, this`reading, this`deployed, this`deploymentAttempted, this`residue
      ensures Account() && Sessions() && watch.guarded
      ensures r.Ok? ==>
        && activeBoot.Some? && Live() && !deploymentAttempted
        && progress == Undeployed(source, artifact, activeBoot.value.id)
      ensures old(trouble) || r.Raise? ==> trouble
      ensures !trouble ==> workspace == old(workspace) && reading == old(reading)
      ensures r.Ok? ==>
        asked == old(asked) + 7 && world(old(asked)).works && ToolDone(old(asked) + 3) && ToolDone(old(asked) + 6)
      ensures residue ==> deploymentAttempted || old(residue)
    {
      hide FilesRead, Fitting, WorkspaceText, Account, Sessions, Advance, Live, ToolDone, Said;
      r := StartGuest(source, artifact);
      if r.Raise? {
        return;
      }
      r := Deploy(source, artifact);
      if r.Raise? {
        return;
      }
      r := RunSample(source, artifact);
    }

    /** The guest part of the run, ending with the session stopped. */
    method Exercise(ghost source: Digest, artifact: Digest) returns (r: Reply<()>, ghost boot: nat)
      requires Account() && Sessions() && watch.guarded && activeBoot.None?
      requires progress == HasArtifact(source, artifact)
      modifies this`trace, this`watch, this`caught, this`progress, this`asked, this`trouble, this`live, this`activeBoot, this`boots
      modifies this`workspace, this`ideOutput, tree`files, this`reading, this`deployed, this`deploymentAttempted, this`residue
      ensures Account() && Sessions() && watch.guarded
      ensures r.Ok? ==> activeBoot.None? && boot < boots && progress == SessionStopped(source, artifact, boot)
      ensures old(trouble) || r.Raise? ==> trouble
      ensures !trouble ==> workspace == old(workspace) && reading == old(reading) && !deploymentAttempted
      ensures r.Ok? ==>
        && asked == old(asked) + 9 && world(old(asked)).works && ToolDone(old(asked) + 3) && ToolDone(old(asked) + 6)
        && world(old(asked) + 7).exc.None? && world(old(asked) + 8).works
      ensures residue ==> deploymentAttempted || old(residue)
    {
      hide FilesRead, Fitting, WorkspaceText, Account, Advance, Live, ToolDone, Said;
      boot := 0;
      r := TryOut(source, artifact);
      if r.Raise? {
        return;
      }
      boot := activeBoot.value.id;
      LeavingSteps(source, artifact, boot, expected);
      r := CheckAbsent();
      if r.Raise? {
        return;
      }
      r := StopAndForget();
    }

    /** After cleanup: the source must be retained, and a cold boot must find nothing. */
    method ColdBoot(source: Digest, ghost artifact: Digest, ghost boot: nat) returns (r: Reply<Digest>)
      requires Account() && Sessions() && watch.guarded && activeBoot.None? && boot < boots
      requires progress == Restored(source, artifact, boot)
      modifies this`trace, this`watch, this`caught, this`progress, this`asked, this`trouble, this`live, this`activeBoot, this`boots
      ensures Account() && Sessions() && watch.guarded
      ensures r.Ok? ==> r.value == source && progress.Complete? && progress.source == source && progress.artifact == artifact
      ensures r.Ok? ==> activeBoot.None?
      ensures old(trouble) || r.Raise? ==> trouble
      ensures r.Ok? ==>
        asked == old(asked) + 4 && world(old(asked) + 1).works && world(old(asked) + 2).exc.None? && world(old(asked) + 3).works
    {
      hide FilesRead, Fitting, WorkspaceText, Account, Live, Said;
      ColdSteps(source, artifact, boot, boots, expected);
      hide Advance;
      var path;
      r, path := ReadDigest(Some(source), None);
      if r.Raise? {
        return;
      }
      Log(SourceRetained(r.value));
      if r.value != source {
        return Raise(SdkError);
      }
      var step := BootUp();
      if step.Raise? {
        return Raise(step.exc);
      }
      step := CheckAbsent();
      if step.Raise? {
        return Raise(step.exc);
      }
      step := StopAndForget();
      if step.Raise? {
        return Raise(step.exc);
      }
    }

    /** The document's claims are constants of the builder. */
    method BuildEvidence(source: Digest, artifact: Digest) returns (r: Reply<Evidence>)
      modifies this`asked, this`trouble
      ensures r.Raise? <==> world(old(asked)).exc.Some?
      ensures r.Ok? ==> r.value == Evidence(source, artifact, true, true, true, true)
      ensures trouble <==> old(trouble) || r.Raise?
      ensures asked == old(asked) + 1
    {
      var inputs := Outside();
      return if inputs.Raise? then Raise(inputs.exc) else Ok(Evidence(source, artifact, true, true, true, true));
    }

    /** From the workspace to the stopped guest; the digests are the source's and the artifact's. */
    method BuildAndExercise() returns (r: Reply<(Digest, Digest)>, ghost boot: nat)
      requires Account() && Sessions() && watch.guarded && activeBoot.None?
      modifies this`trace, this`watch, this`caught, this`progress, this`asked, this`trouble, this`probes
      modifies this`workspace, this`ideOutput, tree`files, this`reading
      modifies this`workspaceAdded, this`recipeModified, this`deployed, this`deploymentAttempted, this`residue
      modifies this`live, this`activeBoot, this`boots
      ensures Account() && Sessions() && watch.guarded
      ensures r.Ok? ==> activeBoot.None? && boot < boots && progress == SessionStopped(r.value.0, r.value.1, boot)
      ensures old(trouble) ==> trouble
      ensures !trouble && old(Idle()) && Fitting() ==> r.Ok? && Cleanable()
      ensures residue ==> deploymentAttempted || old(residue)
    {
      hide FilesRead, Fitting, WorkspaceText, Advance;
      boot := 0;
      var source := PrepareWorkspace();
      if source.Raise? {
        return Raise(source.exc), boot;
      }
      var artifact := BuildSample(source.value);
      if artifact.Raise? {
        return Raise(artifact.exc), boot;
      }
      var step;
      step, boot := Exercise(source.value, artifact.value);
      if step.Raise? {
        return Raise(step.exc), boot;
      }
      r := Ok((source.value, artifact.value));
    }

    /** The cold boot, and the document built from what was retained. */
    method Conclusion(source: Digest, artifact: Digest, ghost boot: nat) returns (r: Reply<Evidence>)
      requires Account() && Sessions() && watch.guarded && activeBoot.None? && boot < boots
      requires progress == Restored(source, artifact, boot)
      modifies this`trace, this`watch, this`caught, this`progress, this`asked, this`trouble, this`live, this`activeBoot, this`boots
      ensures Account() && Sessions() && watch.guarded
      ensures r.Ok? ==> Documented(r.value) && activeBoot.None?
      ensures old(trouble) || r.Raise? ==> trouble
      ensures r.Ok? ==> asked == old(asked) + 6 && world(old(asked) + 4).exc.None? && world(old(asked) + 5).exc.None?
    {
      hide FilesRead, Fitting, WorkspaceText, Account, Sessions, Advance;
      var retained := ColdBoot(source, artifact, boot);
      if retained.Raise? {
        return Raise(retained.exc);
      }
      r := BuildEvidence(retained.value, artifact);
      if r.Raise? {
        return;
      }
      var accepted := Outside();
      if accepted.Raise? {
        r := Raise(accepted.exc);
      }
    }

    lemma IdleIsCleanable()
      ensures Idle() && Fitting() ==> Cleanable()
      ensures Startable() ==> Fitting()
    {
    }

    /** Everything after the tools are authenticated, up to the validated document. */
    method Lifecycle() returns (r: Reply<Evidence>, ghost notes: seq<D.Signal>)
      requires Account() && Sessions() && watch.guarded && activeBoot.None?
      modifies this`trace, this`watch, this`caught, this`progress, this`asked, this`trouble, this`probes
      modifies this`workspace, this`ideOutput, tree`files, this`reading
      modifies this`workspaceAdded, this`recipeModified, this`deployed, this`deploymentAttempted, this`residue
      modifies this`live, this`activeBoot, this`boots, this`cleanupFrom, this`restoredFrom, this`heard
      ensures Account() && Sessions() && watch.guarded
      ensures r.Ok? ==> Documented(r.value)
      ensures if r.Ok? then heard == old(heard) else old(heard) <= heard <= old(heard) + D.Tells(Ending(r, notes))
      ensures old(trouble) ==> trouble
      ensures !trouble && old(Startable()) ==> r.Ok? && Cleanable()
    {
      hide FilesRead, Fitting, WorkspaceText, D.Tells, Authentic, RestorationExact, Clear, Advance, Account, Sessions,
        Said, Documented, Live, Founded, Composed, ToolDone, Cleanable, Startable;
      IdleIsCleanable();
      var step;
      step, notes := PrepareBase();
      if step.Raise? {
        return Raise(step.exc), notes;
      }
      notes := [];
      ghost var boot;
      var built;
      built, boot := BuildAndExercise();
      if built.Raise? {
        return Raise(built.exc), notes;
      }
      var (source, artifact) := built.value;
      LeavingSteps(source, artifact, boot, expected);
      step, notes := Cleanup();
      if step.Raise? {
        return Raise(step.exc), notes;
      }
      notes := [];
      r := Conclusion(source, artifact, boot);
      IdleIsCleanable();
    }

    /** The run so far established all that the document claims. */
    ghost predicate Documented(e: Evidence)
      reads this`progress
    {
      && progress.Complete? && progress.source == e.source && progress.artifact == e.artifact
      && e.baseAbsent && e.undeployedAbsent && e.preserved && e.coldBootAbsent
    }

    /** The last cleanup, and the removal of the transport wrappers. */
    method LastCleanup() returns (r: Reply<()>, ghost notes: seq<D.Signal>)
      requires Account() && Sessions() && watch.guarded
      modifies this`trace, this`watch, this`caught, this`progress, this`asked, this`trouble, this`probes
      modifies this`workspace, this`ideOutput, tree`files, this`reading
      modifies this`workspaceAdded, this`recipeModified, this`deployed, this`deploymentAttempted, this`residue
      modifies this`live, this`activeBoot, this`cleanupFrom, this`restoredFrom, this`heard
      ensures Account() && Sessions() && watch.guarded && RestorationExact()
      ensures r.Ok? ==> AtRest() && heard == old(heard)
      ensures old(heard) <= heard <= old(heard) + D.Tells(Ending(r, notes))
      ensures old(progress).Complete? ==> progress == old(progress)
      ensures old(trouble) ==> trouble
      ensures !trouble && old(Cleanable()) ==> r.Ok?
      ensures r.Ok? ==> asked >= 1 && world(asked - 1).works
    {
      hide FilesRead, Fitting, WorkspaceText, Account, Sessions, Authentic, RestorationExact, Clear, D.Tells, Ending, Advance;
      CompleteStays(progress, expected);
      r, notes := Cleanup();
      var removed := Agrees();
      if !removed && r.Ok? {
        r, notes := Raise(SdkError), [];
      }
    }

    /** What the finally clause does: clean up once the tools were ready, and withdraw the
        evidence unless body and cleanup both returned. */
    method FinalSteps(body: Reply<Evidence>, ready: bool)
      returns (cleaned: Reply<()>, cleared: Reply<()>, ghost noted: seq<D.Signal>)
      requires Account() && Sessions() && watch.guarded
      requires body.Ok? ==> ready && Documented(body.value)
      requires evidence == None || uncleared
      modifies this`trace, this`watch, this`caught, this`progress, this`asked, this`trouble, this`probes
      modifies this`workspace, this`ideOutput, tree`files, this`reading
      modifies this`workspaceAdded, this`recipeModified, this`deployed, this`deploymentAttempted, this`residue
      modifies this`live, this`activeBoot, this`cleanupFrom, this`restoredFrom, this`heard
      modifies this`evidence, this`uncleared
      ensures Account() && watch.guarded
      ensures ready ==> RestorationExact()
      ensures evidence == None || uncleared
      ensures cleaned.Ok? && body.Ok? ==> AtRest() && Documented(body.value) && cleared.Ok?
      ensures cleared.Raise? ==> uncleared
      ensures old(heard) <= heard <= old(heard) + D.Tells(Ending(cleaned, noted))
      ensures old(trouble) ==> trouble
      ensures !trouble && body.Ok? && old(Cleanable()) ==> cleaned.Ok?
    {
      hide FilesRead, Fitting, WorkspaceText, Live, Said, D.Tells, Authentic, RestorationExact, Clear, Advance, Sessions, Ending,
        Account;
      cleaned, cleared, noted := Ok(()), Ok(()), [];
      if ready {
        cleaned, noted := LastCleanup();
      }
      if body.Raise? || cleaned.Raise? {
        cleared := ClearEvidence();
      }
    }

    /** Leave the region of the finally clause, with the signals that arrived in it. */
    method LeaveFinally(body: Reply<Evidence>, cleaned: Reply<()>, cleared: Reply<()>,
                        ghost before: seq<D.Signal>, ghost noted: seq<D.Signal>)
      returns (r: Reply<()>, ghost notes: seq<D.Signal>, ghost finish: Finish)
      requires body.Ok? && cleaned.Ok? ==> cleared.Ok?
      modifies this`asked, this`trouble, this`deferred, this`heard
      ensures finish == Finish(Ending(cleaned, noted), Ending(cleared, []), world(old(asked)).signals)
      ensures Ending(InFlight(body, r), notes) == FinallyEnds(Ending(body, before), finish)
      ensures deferred == if finish.arrivals == [] then None else Some(finish.arrivals[0])
      ensures finish.unlink.Raised? <==> cleared.Raise?
      ensures cleared.Raise? ==> r.Raise?
      ensures body.Ok? ==> (r.Ok? <==> cleaned.Ok? && deferred.None?)
      ensures heard == old(heard) + Of(deferred)
      ensures trouble <==> old(trouble) || deferred.Some?
    {
      hide FinallyEnds, Ending, Of;
      var arrivals := Arrivals();
      finish := Finish(Ending(cleaned, noted), Ending(cleared, []), arrivals);
      EndingOf(cleared, []);
      var signum;
      r, signum, notes := EndFinally(body, cleaned, cleared, arrivals, before, noted);
      deferred, heard := signum, heard + Of(signum);
    }

    /** The finally clause: clean up, and withdraw evidence unless the run completed. Its
        own failure, or a signal deferred meanwhile, is raised when nothing else is, and
        noted otherwise, as the account of the clause says. */
    method Finalize(body: Reply<Evidence>, ready: bool, ghost before: seq<D.Signal>)
      returns (r: Reply<()>, ghost notes: seq<D.Signal>, ghost finish: Finish)
      requires Account() && Sessions() && watch.guarded
      requires body.Ok? ==> ready && Documented(body.value)
      requires evidence == None || uncleared
      modifies this`trace, this`watch, this`caught, this`progress, this`asked, this`trouble, this`probes
      modifies this`workspace, this`ideOutput, tree`files, this`reading
      modifies this`workspaceAdded, this`recipeModified, this`deployed, this`deploymentAttempted, this`residue
      modifies this`live, this`activeBoot, this`cleanupFrom, this`restoredFrom, this`heard
      modifies this`evidence, this`uncleared, this`deferred
      ensures Account() && watch.guarded
      ensures ready ==> RestorationExact()
      ensures evidence == None || uncleared
      ensures r.Ok? && body.Ok? ==> AtRest() && Documented(body.value)
      ensures Ending(InFlight(body, r), notes) == FinallyEnds(Ending(body, before), finish)
      ensures deferred == if finish.arrivals == [] then None else Some(finish.arrivals[0])
      ensures finish.unlink.Raised? ==> uncleared
      ensures old(heard) <= heard <= old(heard) + D.Tells(finish.cleanup) + Of(deferred)
      ensures old(trouble) ==> trouble
      ensures !trouble && body.Ok? && old(Cleanable()) ==> r.Ok?
    {
      hide FilesRead, Fitting, WorkspaceText, Live, Said, D.Tells, Authentic, RestorationExact, Clear, FinallyEnds, Advance, Sessions, Ending, Account, AtRest, Documented;
      ghost var noted;
      var cleaned, cleared;
      cleaned, cleared, noted := FinalSteps(body, ready);
      r, notes, finish := LeaveFinally(body, cleaned, cleared, before, noted);
    }

    /** Replace the file, then read it back and validate it. */
    method WriteEvidence(document: Evidence) returns (r: Reply<()>)
      modifies this`asked, this`trouble, this`evidence
      ensures r.Ok? ==> evidence == Some(document)
      ensures r.Raise? ==> evidence == old(evidence) || evidence == Some(document)
      ensures trouble <==> old(trouble) || r.Raise?
      ensures r.Ok? ==> asked == old(asked) + 2 && world(old(asked)).exc.None? && world(old(asked) + 1).exc.None?
    {
      var replaced := world(asked).works;
      r := Outside();
      if r.Ok? || replaced {
        evidence := Some(document);
      }
      if r.Ok? {
        r := Outside();
      }
    }

    /** Write the document and commit the run to it, or withdraw it. */
    method Commit(document: Evidence) returns (r: Reply<()>)
      requires Account() && !committed && Documented(document)
      requires evidence == None || uncleared
      modifies this`trace, this`watch, this`caught, this`progress, this`asked, this`trouble
      modifies this`evidence, this`uncleared, this`committed
      ensures Account() && watch == old(watch)
      ensures committed == r.Ok?
      ensures r.Ok? ==> evidence == Some(document) && Documented(document)
      ensures r.Raise? ==> evidence == None || uncleared
      ensures old(trouble) || r.Raise? ==> trouble
      ensures r.Ok? ==> asked == old(asked) + 2 && world(old(asked)).exc.None? && world(old(asked) + 1).exc.None?
    {
      hide FilesRead, Fitting, WorkspaceText, Account;
      r := WriteEvidence(document);
      if r.Raise? {
        var cleared := ClearEvidence();
        if cleared.Raise? {
          r := cleared;
        }
      } else {
        committed := true;
        Log(Published);
      }
    }

    /** Write and re-read the document. A signal recorded meanwhile is dropped once the run is
        committed, and noted on the exception otherwise. */
    method Publish(document: Evidence) returns (r: Reply<()>, ghost notes: seq<D.Signal>)
      requires Account() && !committed && Documented(document)
      requires evidence == None || uncleared
      modifies this`trace, this`watch, this`caught, this`progress, this`asked, this`trouble, this`evidence, this`uncleared, this`committed
      modifies this`heard, this`dropped
      ensures Account() && watch == old(watch)
      ensures committed == r.Ok?
      ensures r.Ok? ==> evidence == Some(document) && Documented(document)
      ensures r.Raise? ==> evidence == None || uncleared
      ensures heard == old(heard) + Of(dropped)
      ensures !committed ==> Of(dropped) <= D.Tells(Ending(r, notes))
      ensures old(trouble) || r.Raise? ==> trouble
    {
      hide FilesRead, Fitting, WorkspaceText, Account, D.Tells, Ending, Of, Documented;
      var block := Commit(document);
      var arrivals := Arrivals();
      var signum;
      r, signum, notes := LeaveRegion(block, arrivals, false, []);
      dropped, heard := signum, heard + Of(signum);
    }

    /** What is known of the signals after a run: publication alone drops one, and only once
        committed; otherwise all recorded ones are told, but for those the finally clause
        lets go of together with its cleanup's exception. */
    ghost predicate SignalsTold(r: Reply<()>, notes: seq<D.Signal>, failed: bool)
      reads this`heard, this`deferred, this`dropped, this`committed, this`uncleared, this`muffled
    {
      && (committed ==> deferred == None && heard == Of(dropped))
      && (!committed ==> heard <= D.Tells(Ending(r, notes)) + muffled)
      && (muffled != {} ==> uncleared || failed)
    }

    /** The body of the run; `ready` once the tools are authenticated. */
    method Body() returns (ready: bool, r: Reply<Evidence>, ghost notes: seq<D.Signal>)
      requires Account() && Sessions() && watch.guarded && activeBoot.None? && heard == {}
      modifies this`trace, this`watch, this`caught, this`progress, this`asked, this`trouble, this`probes
      modifies this`workspace, this`ideOutput, tree`files, this`reading
      modifies this`workspaceAdded, this`recipeModified, this`deployed, this`deploymentAttempted, this`residue
      modifies this`live, this`activeBoot, this`boots, this`cleanupFrom, this`restoredFrom, this`heard
      modifies this`evidence, this`uncleared
      ensures Account() && Sessions() && watch.guarded
      ensures evidence == None || uncleared
      ensures r.Ok? ==> ready && Documented(r.value)
      ensures ready <==> world(old(asked)).exc.None? && world(old(asked) + 1).exc.None?
      ensures if r.Ok? then heard == {} else heard <= D.Tells(Ending(r, notes))
      ensures old(trouble) ==> trouble
      ensures !trouble && old(Startable()) ==> r.Ok? && Cleanable()
    {
      hide FilesRead, Fitting, WorkspaceText, Account, Sessions, Documented, D.Tells, Ending, Cleanable, Startable;
      notes := [];
      var preflight := Preflight();
      ready := preflight.Ok?;
      if !ready {
        return false, Raise(preflight.exc), notes;
      }
      r, notes := Lifecycle();
    }

    /** The body, its finalization and the publication. */
    method Attempt() returns (r: Reply<()>, ghost ready: bool, ghost failed: bool, ghost notes: seq<D.Signal>)
      requires Account() && Sessions() && watch.guarded && activeBoot.None?
      requires !committed && !uncleared && heard == {}
      modifies this`trace, this`watch, this`caught, this`progress, this`asked, this`trouble, this`probes
      modifies this`workspace, this`ideOutput, tree`files, this`reading
      modifies this`workspaceAdded, this`recipeModified, this`deployed, this`deploymentAttempted, this`residue
      modifies this`live, this`activeBoot, this`boots, this`cleanupFrom, this`restoredFrom, this`heard
      modifies this`evidence, this`uncleared, this`deferred, this`dropped, this`muffled, this`committed
      ensures Account() && watch.guarded
      ensures r.Ok? <==> committed
      ensures r.Ok? ==> evidence.Some? && Documented(evidence.value) && AtRest()
      ensures r.Raise? ==> evidence == None || uncleared
      ensures ready ==> RestorationExact()
      ensures ready <==> world(old(asked)).exc.None? && world(old(asked) + 1).exc.None?
      ensures SignalsTold(r, notes, failed)
      ensures old(trouble) ==> trouble
      ensures r.Raise? ==> trouble || !old(Startable())
    {
      hide FilesRead, Fitting, WorkspaceText, FinallyEnds, Muffled, D.Tells, Authentic, RestorationExact, Sessions,
        Account, Documented, KindOf, Cleanable, Startable;
      ghost var before;
      var tooling, body;
      tooling, body, before := Body();
      ready, failed := tooling, body.Raise?;
      ghost var finish;
      var finalized;
      finalized, notes, finish := Finalize(body, tooling, before);
      muffled := Muffled(Ending(body, before), finish);
      AllTold(Ending(body, before), finish);
      if finalized.Raise? {
        r := finalized;
      } else if body.Raise? {
        r := Raise(body.exc);
      } else {
        r, notes := Publish(body.value);
      }
    }

    /** What the fields say of the trace. */
    lemma AccountIsCurrent()
      requires Account()
      ensures watch == Watched(trace) && progress == Reached(trace, expected)
    {
      hide FilesRead, Fitting, WorkspaceText;
      assert watch == Watched(trace);
    }

    /** One run. Published evidence claims only what the run established, and an unpublished
        run leaves none, unless the evidence could not be unlinked. Once the tools are ready
        the base configuration is restored last, exactly unless a probe of the last cleanup
        raised before. */
    method Execute() returns (r: Reply<()>, ghost ready: bool, ghost failed: bool, ghost notes: seq<D.Signal>)
      requires Account() && Sessions() && watch.guarded && activeBoot.None?
      requires !committed && !uncleared && heard == {}
      modifies this`trace, this`watch, this`caught, this`progress, this`asked, this`trouble, this`probes
      modifies this`workspace, this`ideOutput, tree`files, this`reading
      modifies this`workspaceAdded, this`recipeModified, this`deployed, this`deploymentAttempted, this`residue
      modifies this`live, this`activeBoot, this`boots, this`cleanupFrom, this`restoredFrom, this`heard
      modifies this`evidence, this`uncleared, this`deferred, this`dropped, this`muffled, this`committed
      ensures r.Ok? <==> committed
      ensures r.Raise? ==> evidence == None || uncleared
      ensures r.Ok? ==> evidence.Some? && exists boot, cold :: Claims(trace, expected, evidence.value, boot, cold)
      ensures r.Ok? ==> AtRest()
      ensures watch == Watched(trace) && watch.guarded
      ensures ready ==> RestorationExact()
      ensures ready <==> world(old(asked)).exc.None? && world(old(asked) + 1).exc.None?
      ensures SignalsTold(r, notes, failed)
      ensures r.Raise? ==> trouble || !old(Startable())
    {
      hide FilesRead, Fitting, WorkspaceText;
      r, ready, failed, notes := Attempt();
      AccountIsCurrent();
      if r.Ok? {
        JustifiedMeansEveryClaim(trace, expected, evidence.value);
      }
    }
  }

  /** Cleanup whose first probe raises, from any workspace: it ends there with that error, and
      the base configuration is not restored. */
  method RefusedProbeLeavesTheBaseUnrestored(
      tree: C.BuildTree, expected: Expected, refused: nat -> bool, world: nat -> Answer, workspace: Tree)
    returns (run: DirectSdkIteration, r: Reply<()>)
    requires refused(0)
    modifies tree`files
    ensures r == Raise(OtherError) && !RestorationStands(run.trace)
  {
    run := new DirectSdkIteration(tree, expected, refused, world, workspace, None);
    r := run.CleanupUninterrupted();
    run.AccountIsCurrent();
    RestorationMeans(run.trace);
  }
}
