// Runtime evidence (runtime_evidence.py and platform_runtime_evidence.py,
// validate_evidence): counting, the derived result, and what a required pass adds.

module RuntimeEvidence {
  import opened Wrappers

  /** A text, known by what it equals and by which grammars accept it. */
  type Word = nat

  datatype TestStatus = Passed | Failed | Errored | Skipped | ExpectedFail | Unknown

  datatype Kind = Pci | Platform | OtherKind

  datatype Summary = Summary(
    total: nat, passed: nat, failed: nat, skipped: nat, errors: nat, expectedFailures: nat, unknown: nat)

  /** An evidence document whose fields have the declared types. `exercised` lists the
      contract's exercised flags in the order of `Paths`. */
  datatype Document = Document(
    kind: Kind,
    version: nat,
    projectVersion: Word,
    revision: Word,
    dirty: bool,
    sourceLock: Word,
    oeqaResult: Word,
    labIndex: Option<Word>,
    labManifest: Option<Word>,
    lab: Option<Word>,
    machine: Word,
    image: Word,
    exitCode: int,
    passes: bool,
    summary: Summary,
    exercised: seq<bool>,
    tests: seq<TestStatus>)

  /** The string grammars, each as the set of texts it accepts. */
  datatype Grammar = Grammar(
    sha1: Word -> bool,
    sha256: Word -> bool,
    version: Word -> bool,
    token: Word -> bool,          // a token of any length
    bounded: Word -> bool,        // short enough for a catalogue string
    labId: Word -> bool,
    buildDirectory: Word -> bool,
    path: Word -> bool,
    branchRef: Word -> bool,
    releaseRef: Word -> bool,
    taskId: Word -> bool,
    platformBuild: (Word, Word, Word) -> bool)   // the lab, machine and image of the platform profile

  /** The number of required cases, for the supported kinds and versions. */
  function SuiteSize(kind: Kind, version: nat): Option<nat>
  {
    match kind
    case Pci => if version == 1 then Some(11) else if version == 2 then Some(14) else if version == 3 then Some(19) else None
    case Platform => if version == 1 then Some(9) else None
    case OtherKind => None
  }

  /** The cases behind the exercised contract paths. */
  function Paths(kind: Kind, version: nat): seq<nat>
  {
    match kind
    case Pci =>
      if version == 1 then [9, 10]
      else if version == 2 then [12, 13, 7, 8, 9, 10, 10]
      else [12, 13, 7, 8, 9, 10, 10, 14, 15, 16, 17, 18]
    case _ => [1, 4, 5, 6, 7, 8]
  }

  function Tally(tests: seq<TestStatus>, status: TestStatus): nat
    decreases |tests|
  {
    if tests == [] then 0
    else Tally(tests[..|tests| - 1], status) + if tests[|tests| - 1] == status then 1 else 0
  }

  function Tallies(tests: seq<TestStatus>): Summary
  {
    Summary(|tests|, Tally(tests, Passed), Tally(tests, Failed), Tally(tests, Skipped), Tally(tests, Errored),
            Tally(tests, ExpectedFail), Tally(tests, Unknown))
  }

  /** The declared paths are exactly the passed cases. */
  predicate PathsMatch(d: Document)
  {
    var paths := Paths(d.kind, d.version);
    && |d.exercised| == |paths|
    && forall k :: 0 <= k < |paths| ==> paths[k] < |d.tests| && d.exercised[k] == d.tests[paths[k]].Passed?
  }

  predicate InputsSound(d: Document, g: Grammar)
  {
    && g.sha256(d.sourceLock) && g.sha256(d.oeqaResult)
    && match d.kind
       case Platform =>
         && d.labIndex.Some? && g.sha256(d.labIndex.value)
         && d.labManifest.Some? && g.sha256(d.labManifest.value)
         && d.lab.Some? && g.platformBuild(d.lab.value, d.machine, d.image)
       case _ => d.labIndex.None? && d.labManifest.None? && d.lab.None?
  }

  /** What validation without a required pass accepts. */
  predicate Accepted(d: Document, g: Grammar)
  {
    && SuiteSize(d.kind, d.version) == Some(|d.tests|)
    && g.sha1(d.revision)
    && InputsSound(d, g)
    && 0 <= d.exitCode <= 255
    && PathsMatch(d)
    && d.summary == Tallies(d.tests)
    && d.passes == (d.summary.passed == |d.tests| && d.exitCode == 0)
  }

  lemma {:induction false} TallyBound(tests: seq<TestStatus>, status: TestStatus)
    ensures Tally(tests, status) <= |tests|
    ensures Tally(tests, status) == |tests| <==> forall k :: 0 <= k < |tests| ==> tests[k] == status
    decreases |tests|
  {
    if tests != [] {
      TallyBound(tests[..|tests| - 1], status);
    }
  }

  /** The categories of an accepted summary add up. */
  lemma {:induction false} TalliesAddUp(tests: seq<TestStatus>)
    ensures
      var s := Tallies(tests);
      s.total == s.passed + s.failed + s.skipped + s.errors + s.expectedFailures + s.unknown
    decreases |tests|
  {
    if tests != [] {
      TalliesAddUp(tests[..|tests| - 1]);
    }
  }

  lemma {:induction false} TallyIsMultiplicity(tests: seq<TestStatus>, status: TestStatus)
    ensures Tally(tests, status) == multiset(tests)[status]
    decreases |tests|
  {
    if tests != [] {
      var n := |tests| - 1;
      TallyIsMultiplicity(tests[..n], status);
      assert tests == tests[..n] + [tests[n]];
    }
  }

  /** Each category of the summary is the number of cases with that status. */
  lemma SummaryMeans(tests: seq<TestStatus>)
    ensures
      var s, cases := Tallies(tests), multiset(tests);
      && s.total == |cases|
      && s.passed == cases[Passed] && s.failed == cases[Failed] && s.skipped == cases[Skipped]
      && s.errors == cases[Errored] && s.expectedFailures == cases[ExpectedFail] && s.unknown == cases[Unknown]
  {
    forall status ensures Tally(tests, status) == multiset(tests)[status] {
      TallyIsMultiplicity(tests, status);
    }
  }

  /** Accepted platform evidence names the platform's lab, machine and image and both digests
      of its configuration; accepted device evidence names none of them. */
  lemma PlatformIsBound(d: Document, g: Grammar)
    requires Accepted(d, g)
    ensures d.kind.Platform? ==>
      && d.lab.Some? && g.platformBuild(d.lab.value, d.machine, d.image)
      && d.labIndex.Some? && g.sha256(d.labIndex.value) && d.labManifest.Some? && g.sha256(d.labManifest.value)
    ensures d.kind.Pci? ==> d.lab.None? && d.labIndex.None? && d.labManifest.None?
    ensures d.kind.Pci? || d.kind.Platform?
    ensures g.sha256(d.sourceLock) && g.sha256(d.oeqaResult) && g.sha1(d.revision) && 0 <= d.exitCode <= 255
  {
    hide PathsMatch, Tallies;
  }

  /** In accepted evidence with a passing result every case passed, so every contract path
      is declared exercised. */
  lemma PassingExercisesEveryPath(d: Document, g: Grammar)
    requires Accepted(d, g) && d.passes
    ensures forall k :: 0 <= k < |d.tests| ==> d.tests[k].Passed?
    ensures forall k :: 0 <= k < |d.exercised| ==> d.exercised[k]
  {
    TallyBound(d.tests, Passed);
  }

  method CountStatuses(tests: seq<TestStatus>) returns (summary: Summary)
    ensures summary == Tallies(tests)
  {
    summary := Summary(0, 0, 0, 0, 0, 0, 0);
    for i := 0 to |tests|
      invariant summary == Tallies(tests[..i])
    {
      assert tests[..i + 1][..i] == tests[..i];
      summary := summary.(total := summary.total + 1);
      match tests[i]
      case Passed => summary := summary.(passed := summary.passed + 1);
      case Failed => summary := summary.(failed := summary.failed + 1);
      case Errored => summary := summary.(errors := summary.errors + 1);
      case Skipped => summary := summary.(skipped := summary.skipped + 1);
      case ExpectedFail => summary := summary.(expectedFailures := summary.expectedFailures + 1);
      case Unknown => summary := summary.(unknown := summary.unknown + 1);
    }
    assert tests[..|tests|] == tests;
  }

  /** Whether the declared paths match the cases, and whether all are exercised. */
  method CheckPaths(d: Document) returns (matching: bool, all: bool)
    requires SuiteSize(d.kind, d.version) == Some(|d.tests|)
    ensures matching <==> PathsMatch(d)
    ensures matching ==> (all <==> forall k :: 0 <= k < |d.exercised| ==> d.exercised[k])
  {
    var paths := Paths(d.kind, d.version);
    all := true;
    if |d.exercised| != |paths| {
      return false, all;
    }
    for i := 0 to |paths|
      invariant forall k :: 0 <= k < i ==> d.exercised[k] == d.tests[paths[k]].Passed?
      invariant all <==> forall k :: 0 <= k < i ==> d.exercised[k]
    {
      if d.exercised[i] != d.tests[paths[i]].Passed? {
        return false, all;
      }
      all := all && d.exercised[i];
    }
    return true, all;
  }

  /** A required pass asks for a passing result, a clean tree and every path; on accepted
      evidence that is a passing result and a clean tree. */
  method ValidateEvidence(d: Document, g: Grammar, requirePass: bool) returns (ok: bool)
    ensures ok <==> Accepted(d, g) && (requirePass ==> d.passes && !d.dirty)
  {
    if SuiteSize(d.kind, d.version) != Some(|d.tests|) {
      return false;
    }
    if !g.sha1(d.revision) || !InputsSound(d, g) || !(0 <= d.exitCode <= 255) {
      return false;
    }
    var matching, all := CheckPaths(d);
    if !matching {
      return false;
    }
    var summary := CountStatuses(d.tests);
    if d.summary != summary {
      return false;
    }
    if d.passes != (summary.passed == |d.tests| && d.exitCode == 0) {
      return false;
    }
    if d.passes {
      PassingExercisesEveryPath(d, g);
    }
    if requirePass && !d.passes {
      return false;
    }
    if requirePass && d.dirty {
      return false;
    }
    if requirePass && !all {
      return false;
    }
    return true;
  }
}
