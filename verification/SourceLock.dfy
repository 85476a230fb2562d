// Locked sources (source_lock.py): accepted paths never overlap, and synchronisation over
// an abstract state of the Git checkouts neither moves a HEAD nor disturbs a neighbour.

module SourceLock {
  import opened Wrappers
  import opened Strings

  /** A full commit id, as a number. */
  type Commit = nat

  datatype Source = Source(
    id: string, url: string, objectFormat: string, commit: Commit, path: string, requiredPaths: seq<string>)

  // ---- Paths ----

  /** The segments of a path text. */
  function Parts(text: string): (parts: seq<string>)
    ensures |parts| > 0
    decreases |text|
  {
    if text == "" then [""]
    else
      var rest := Parts(text[1..]);
      if text[0] == '/' then [""] + rest else [[text[0]] + rest[0]] + rest[1..]
  }

  /** The lock's own test, on the texts. */
  predicate TextsOverlap(p: string, q: string)
  {
    p == q || p + "/" <= q || q + "/" <= p
  }

  /** One path is the other, or lies above or below it. */
  predicate Overlap(p: string, q: string)
  {
    Parts(p) <= Parts(q) || Parts(q) <= Parts(p)
  }

  lemma PrefixHead<T>(a: seq<T>, b: seq<T>)
    requires a != []
    ensures a <= b ==> b != [] && a[0] == b[0] && |a| <= |b|
  {
  }

  /** Text prefixes up to a slash are exactly segment prefixes. */
  lemma {:induction false} PrefixIsAncestor(p: string, q: string)
    ensures (p == q || p + "/" <= q) <==> Parts(p) <= Parts(q)
    decreases |p|
  {
    if p == "" {
      if q != "" {
        assert Parts(q)[0] == "" <==> q[0] == '/';
      }
    } else if q == "" {
      PrefixHead(Parts(p), Parts(q));
    } else if p[0] == q[0] {
      PrefixIsAncestor(p[1..], q[1..]);
      SameFirst(p, q);
    } else {
      assert p[0] != '/' ==> Parts(p)[0][0] == p[0];
      assert q[0] != '/' ==> Parts(q)[0][0] == q[0];
      PrefixHead(Parts(p), Parts(q));
      PrefixHead(p + "/", q);
    }
  }

  lemma ConsPrefix<T>(x: T, a: seq<T>, y: T, b: seq<T>)
    ensures [x] + a <= [y] + b <==> x == y && a <= b
  {
    assert ([x] + a)[0] == x && ([x] + a)[1..] == a;
    assert ([y] + b)[0] == y && ([y] + b)[1..] == b;
  }

  lemma ConsEqual<T>(x: T, a: seq<T>, y: T, b: seq<T>)
    ensures [x] + a == [y] + b <==> x == y && a == b
  {
    assert ([x] + a)[0] == x && ([x] + a)[1..] == a;
    assert ([y] + b)[0] == y && ([y] + b)[1..] == b;
  }

  lemma SameFirst(p: string, q: string)
    requires p != "" && q != "" && p[0] == q[0]
    ensures p == q <==> p[1..] == q[1..]
    ensures p + "/" <= q <==> p[1..] + "/" <= q[1..]
    ensures Parts(p) <= Parts(q) <==> Parts(p[1..]) <= Parts(q[1..])
  {
    assert p == [p[0]] + p[1..] && q == [q[0]] + q[1..];
    ConsEqual(p[0], p[1..], q[0], q[1..]);
    assert p + "/" == [p[0]] + (p[1..] + "/");
    ConsPrefix(p[0], p[1..] + "/", q[0], q[1..]);
    var a, b := Parts(p[1..]), Parts(q[1..]);
    if p[0] == '/' {
      ConsPrefix("", a, "", b);
    } else {
      ConsPrefix([p[0]] + a[0], a[1..], [q[0]] + b[0], b[1..]);
      ConsEqual(p[0], a[0], q[0], b[0]);
      ConsPrefix(a[0], a[1..], b[0], b[1..]);
      assert a == [a[0]] + a[1..] && b == [b[0]] + b[1..];
    }
  }

  lemma TextsOverlapIsOverlap(p: string, q: string)
    ensures TextsOverlap(p, q) <==> Overlap(p, q)
  {
    PrefixIsAncestor(p, q);
    PrefixIsAncestor(q, p);
  }

  // ---- The lock ----

  /** A normalized relative path. A lone dot survives normalization and is accepted
      unless a parent directory is demanded. */
  predicate RelativePath(text: string)
  {
    && text != "" && |text| <= MAX_STRING_LENGTH
    && '\\' !in text
    && (forall i :: 0 <= i < |text| ==> !IsSpace(text[i]))
    && (text == "." || forall i :: 0 <= i < |Parts(text)| ==> Parts(text)[i] !in ["", ".", ".."])
  }

  /** Where a path leads from a directory, segment by segment. */
  function Walk(at: seq<string>, parts: seq<string>): seq<string>
    decreases |parts|
  {
    if parts == [] then at
    else if parts[0] == "" || parts[0] == "." then Walk(at, parts[1..])
    else if parts[0] == ".." then Walk(if at == [] then [] else at[..|at| - 1], parts[1..])
    else Walk(at + [parts[0]], parts[1..])
  }

  predicate Plain(parts: seq<string>)
  {
    forall i :: 0 <= i < |parts| ==> parts[i] != "" && parts[i] != "." && parts[i] != ".."
  }

  lemma {:induction false} PlainWalks(at: seq<string>, parts: seq<string>)
    requires Plain(parts)
    ensures Walk(at, parts) == at + parts
    decreases |parts|
  {
    if parts == [] {
      assert at + parts == at;
    } else {
      PlainWalks(at + [parts[0]], parts[1..]);
      assert at + [parts[0]] + parts[1..] == at + parts;
    }
  }

  lemma {:induction false} WalkedIsPlain(at: seq<string>, parts: seq<string>)
    requires Plain(at)
    ensures Plain(Walk(at, parts))
    decreases |parts|
  {
    if parts != [] {
      if parts[0] == "" || parts[0] == "." {
        WalkedIsPlain(at, parts[1..]);
      } else if parts[0] == ".." {
        WalkedIsPlain(if at == [] then [] else at[..|at| - 1], parts[1..]);
      } else {
        WalkedIsPlain(at + [parts[0]], parts[1..]);
      }
    }
  }

  /** Among texts of a legal length without spaces and backslashes, the accepted ones but a
      lone dot are those that lead, segment by segment, exactly where they read. */
  lemma RelativePathMeans(text: string)
    requires text != "" && |text| <= MAX_STRING_LENGTH && '\\' !in text && text != "."
    requires forall i :: 0 <= i < |text| ==> !IsSpace(text[i])
    ensures RelativePath(text) <==> Walk([], Parts(text)) == Parts(text)
  {
    PlainStays(Parts(text));
    PlainMeans(Parts(text));
    hide Parts, Walk, Plain;
  }

  lemma PlainMeans(parts: seq<string>)
    ensures Plain(parts) <==> forall i :: 0 <= i < |parts| ==> parts[i] !in ["", ".", ".."]
  {
  }

  lemma PlainStays(parts: seq<string>)
    ensures Walk([], parts) == parts <==> Plain(parts)
  {
    if Plain(parts) {
      PlainWalks([], parts);
      assert [] + parts == parts;
    }
    WalkedIsPlain([], parts);
    hide Walk, Plain;
  }

  const MAX_STRING_LENGTH := 4096

  const SOURCE_IDS: set<string> := {"bitbake", "openembedded-core", "meta-yocto"}

  predicate SourceFields(source: Source)
  {
    && source.objectFormat == "sha1"
    && RelativePath(source.path) && Parts(source.path)[0] == "layers"
    && source.requiredPaths != []
    && (forall i :: 0 <= i < |source.requiredPaths| ==> RelativePath(source.requiredPaths[i]))
  }

  function Ids(sources: seq<Source>): set<string>
  {
    set i | 0 <= i < |sources| :: sources[i].id
  }

  function Paths(sources: seq<Source>): set<string>
  {
    set i | 0 <= i < |sources| :: sources[i].path
  }

  predicate Apart(sources: seq<Source>)
  {
    forall i, j :: 0 <= i < j < |sources| ==> !Overlap(sources[i].path, sources[j].path)
  }

  /** What acceptance promises: complete fields, the closed set of ids, each once, and
      checkouts of which none lies in another. */
  predicate ValidLock(sources: seq<Source>)
  {
    && (forall i :: 0 <= i < |sources| ==> SourceFields(sources[i]))
    && (forall i, j :: 0 <= i < j < |sources| ==> sources[i].id != sources[j].id)
    && Apart(sources)
    && Ids(sources) == SOURCE_IDS
  }

  /** The checkouts of an accepted lock lie where their paths lead: below the layers
      directory, and none at, above or below another. */
  lemma CheckoutsLieApart(sources: seq<Source>)
    requires ValidLock(sources)
    ensures forall i :: 0 <= i < |sources| ==>
      |Walk([], Parts(sources[i].path))| > 0 && Walk([], Parts(sources[i].path))[0] == "layers"
    ensures forall i, j :: 0 <= i < j < |sources| ==>
      var a, b := Walk([], Parts(sources[i].path)), Walk([], Parts(sources[j].path));
      !(a <= b) && !(b <= a)
  {
    forall i | 0 <= i < |sources| ensures Walk([], Parts(sources[i].path)) == Parts(sources[i].path) {
      LoneDot(sources[i].path);
      RelativePathMeans(sources[i].path);
    }
    forall i, j | 0 <= i < j < |sources|
      ensures !(Parts(sources[i].path) <= Parts(sources[j].path)) && !(Parts(sources[j].path) <= Parts(sources[i].path)) {
      assert !Overlap(sources[i].path, sources[j].path);
    }
  }

  lemma LoneDot(text: string)
    ensures text == "." ==> Parts(text) == ["."]
  {
    if text == "." {
      assert text[0] == '.' && text[1..] == "" && Parts("") == [""];
      assert [text[0]] + Parts("")[0] == ".";
    }
  }

  predicate Clashes(path: string, paths: set<string>)
  {
    path in paths || exists p :: p in paths && (path + "/" <= p || p + "/" <= path)
  }

  lemma ClashIsOverlap(path: string, paths: set<string>)
    ensures Clashes(path, paths) <==> exists p :: p in paths && Overlap(p, path)
  {
    forall p: string ensures TextsOverlap(path, p) <==> Overlap(p, path) {
      TextsOverlapIsOverlap(path, p);
    }
    assert path in paths ==> TextsOverlap(path, path);
    assert forall p :: (path + "/" <= p || p + "/" <= path) ==> TextsOverlap(path, p);
  }

  /** The loop's verdict so far, the latest source last. */
  predicate Passed(sources: seq<Source>)
    decreases |sources|
  {
    sources == [] ||
    var earlier, source := sources[..|sources| - 1], sources[|sources| - 1];
    && Passed(earlier)
    && SourceFields(source)
    && source.id !in Ids(earlier)
    && !Clashes(source.path, Paths(earlier))
  }

  lemma PassedMeans(sources: seq<Source>)
    ensures (Passed(sources) && Ids(sources) == SOURCE_IDS) <==> ValidLock(sources)
  {
    if Passed(sources) {
      forall i | 0 <= i < |sources| ensures SourceFields(sources[i]) {
        PassedAt(sources, i);
      }
      forall i, j | 0 <= i < j < |sources|
        ensures sources[i].id != sources[j].id && !Overlap(sources[i].path, sources[j].path) {
        PassedPair(sources, i, j);
      }
    }
    if ValidLock(sources) {
      Passes(sources);
    }
  }

  lemma {:induction false} PassedAt(sources: seq<Source>, i: nat)
    requires Passed(sources) && i < |sources|
    ensures SourceFields(sources[i])
    decreases |sources|
  {
    if i < |sources| - 1 {
      PassedAt(sources[..|sources| - 1], i);
    }
  }

  lemma {:induction false} PassedPair(sources: seq<Source>, i: nat, j: nat)
    requires Passed(sources) && i < j < |sources|
    ensures sources[i].id != sources[j].id && !Overlap(sources[i].path, sources[j].path)
    decreases |sources|
  {
    if j < |sources| - 1 {
      PassedPair(sources[..|sources| - 1], i, j);
    } else {
      assert sources[..j][i] == sources[i];
      assert sources[i].id in Ids(sources[..j]) && sources[i].path in Paths(sources[..j]);
      ClashIsOverlap(sources[j].path, Paths(sources[..j]));
    }
  }

  lemma {:induction false} Passes(sources: seq<Source>)
    requires forall i :: 0 <= i < |sources| ==> SourceFields(sources[i])
    requires forall i, j :: 0 <= i < j < |sources| ==> sources[i].id != sources[j].id
    requires Apart(sources)
    ensures Passed(sources)
    decreases |sources|
  {
    if sources != [] {
      var n := |sources| - 1;
      Passes(sources[..n]);
      NewId(sources, n);
      NewPath(sources, n);
    }
  }

  lemma NewId(sources: seq<Source>, n: nat)
    requires n < |sources|
    ensures sources[n].id !in Ids(sources[..n]) <==> forall i :: 0 <= i < n ==> sources[i].id != sources[n].id
  {
    assert forall i :: 0 <= i < n ==> sources[i] == sources[..n][i];
  }

  lemma NewPath(sources: seq<Source>, n: nat)
    requires n < |sources|
    ensures (!Clashes(sources[n].path, Paths(sources[..n])) <==>
             forall i :: 0 <= i < n ==> !Overlap(sources[i].path, sources[n].path))
  {
    ClashIsOverlap(sources[n].path, Paths(sources[..n]));
    assert forall i :: 0 <= i < n ==> sources[i] == sources[..n][i];
    forall i | 0 <= i < n ensures sources[i].path in Paths(sources[..n]) {
      assert sources[i] == sources[..n][i];
    }
  }

  lemma {:induction false} PassedPrefix(sources: seq<Source>, n: nat)
    requires n <= |sources| && Passed(sources)
    ensures Passed(sources[..n])
    decreases |sources|
  {
    if n < |sources| {
      PassedPrefix(sources[..|sources| - 1], n);
      assert sources[..|sources| - 1][..n] == sources[..n];
    } else {
      assert sources[..n] == sources;
    }
  }

  lemma NonePassed()
    ensures Passed([])
  {
  }

  lemma PassedNext(sources: seq<Source>, i: nat)
    requires i < |sources|
    ensures Passed(sources[..i + 1]) <==>
              && Passed(sources[..i]) && SourceFields(sources[i])
              && sources[i].id !in Ids(sources[..i]) && !Clashes(sources[i].path, Paths(sources[..i]))
    ensures Ids(sources[..i + 1]) == Ids(sources[..i]) + {sources[i].id}
    ensures Paths(sources[..i + 1]) == Paths(sources[..i]) + {sources[i].path}
  {
    hide SourceFields, Clashes;
    var longer := sources[..i + 1];
    assert longer[..i] == sources[..i] && longer[i] == sources[i];
    assert forall k :: 0 <= k < i ==> longer[k] == sources[..i][k];
  }

  /** The loop over the sources, as far as paths and ids are concerned. */
  method ValidateSources(sources: seq<Source>) returns (ok: bool)
    ensures ok <==> ValidLock(sources)
  {
    hide Passed, SourceFields, Clashes, ValidLock;
    PassedMeans(sources);
    NonePassed();
    var ids: set<string>, paths: set<string> := {}, {};
    for i := 0 to |sources|
      invariant ids == Ids(sources[..i]) && paths == Paths(sources[..i])
      invariant Passed(sources[..i])
    {
      var source := sources[i];
      PassedNext(sources, i);
      if !SourceFields(source) || source.id in ids || Clashes(source.path, paths) {
        if Passed(sources) {
          PassedPrefix(sources, i + 1);
        }
        return false;
      }
      ids := ids + {source.id};
      paths := paths + {source.path};
    }
    assert sources[..|sources|] == sources;
    ok := ids == SOURCE_IDS;
  }

  // ---- Checkouts ----

  /** What Git reports of a checkout. HEAD, once it names a commit, names one that is here. */
  datatype RepoData = RepoData(
    origin: Option<string>,
    format: string,
    head: Option<Commit>,
    detached: bool,
    dirty: bool,
    objects: set<Commit>,
    files: set<string>)

  type Repo = r: RepoData | r.head.Some? ==> r.head.value in r.objects
    witness RepoData(None, "sha1", None, false, false, {}, {})

  datatype Node = Missing | NotGit | Git(repo: Repo)

  /** Why a checkout is not ready. */
  datatype Fault =
    | CheckoutMissing | NotWorktree | WrongOrigin | WrongFormat | WrongHead | AttachedHead | NoHead | Dirty
    | RequiredMissing(path: string)

  datatype Status = IsMissing | IsInvalid | IsDrifted | IsReady

  predicate HasFault(node: Node, source: Source, fault: Fault)
  {
    match fault
    case CheckoutMissing => node.Missing?
    case NotWorktree => node.NotGit?
    case WrongOrigin => node.Git? && node.repo.origin != Some(source.url)
    case WrongFormat => node.Git? && node.repo.format != source.objectFormat
    case WrongHead => node.Git? && node.repo.head.Some? && node.repo.head.value != source.commit
    case AttachedHead => node.Git? && node.repo.head.Some? && !node.repo.detached
    case NoHead => node.Git? && node.repo.head.None?
    case Dirty => node.Git? && node.repo.dirty
    case RequiredMissing(p) => node.Git? && p in source.requiredPaths && p !in node.repo.files
  }

  /** The checkout is exactly what the lock names. */
  predicate Ready(node: Node, source: Source)
  {
    && node.Git?
    && node.repo.origin == Some(source.url)
    && node.repo.format == source.objectFormat
    && node.repo.head == Some(source.commit) && node.repo.detached
    && !node.repo.dirty
    && forall p :: p in source.requiredPaths ==> p in node.repo.files
  }

  /** An existing checkout that synchronisation will not touch. */
  predicate Refused(node: Node, source: Source)
  {
    || node.NotGit?
    || (node.Git? &&
        (|| node.repo.origin != Some(source.url)
         || node.repo.format != source.objectFormat
         || node.repo.dirty
         || (node.repo.head.Some? && (node.repo.head.value != source.commit || !node.repo.detached))))
  }

  /** The refusals are the faults that fetching and checking out cannot mend. */
  lemma RefusedIsFaulty(node: Node, source: Source)
    ensures Refused(node, source) <==>
      exists f :: f in {NotWorktree, WrongOrigin, WrongFormat, Dirty, WrongHead, AttachedHead} && HasFault(node, source, f)
  {
    var unmendable := {NotWorktree, WrongOrigin, WrongFormat, Dirty, WrongHead, AttachedHead};
    if Refused(node, source) {
      var f :=
        if node.NotGit? then NotWorktree
        else if node.repo.origin != Some(source.url) then WrongOrigin
        else if node.repo.format != source.objectFormat then WrongFormat
        else if node.repo.dirty then Dirty
        else if node.repo.head.value != source.commit then WrongHead
        else AttachedHead;
      assert f in unmendable && HasFault(node, source, f);
    }
    if f :| f in unmendable && HasFault(node, source, f) {
      match f case WrongOrigin => case WrongFormat => case WrongHead => case AttachedHead => case NoHead =>
        case Dirty => case CheckoutMissing => case NotWorktree => case RequiredMissing(_) =>
    }
  }

  predicate HasHead(node: Node)
  {
    node.Git? && node.repo.head.Some?
  }

  /** The Git commands that fetch, write or vouch for the commit. */
  datatype Command = InitCheckout | AddOrigin | FindCommit | FetchRefs | ReadRelease | TestBranch | CheckOut

  /** What a command asked of a checkout came to: good when it exits with zero and, for the
      release ref, names the locked commit; for the checkout, leaves a clean tree with the
      required paths. */
  datatype Answer = Answer(path: string, command: Command, good: bool)

  /** What one run of Git does: whether it exits with zero, the commit it names, the objects
      it brings, and what a checkout leaves behind. */
  datatype Reply = Reply(works: bool, commit: Commit, objects: set<Commit>, dirty: bool, files: set<string>)

  /** A checkout that leaves a clean tree with the required paths. */
  predicate Clean(source: Source, reply: Reply)
  {
    !reply.dirty && forall p :: p in source.requiredPaths ==> p in reply.files
  }

  ghost predicate AllGood(answers: seq<Answer>)
  {
    forall k :: 0 <= k < |answers| ==> answers[k].good
  }

  /** The commands a synchronisation goes through when nothing stops it. */
  function Steps(node: Node, offline: bool): seq<Command>
  {
    Obtaining(node, offline) + (if HasHead(node) then [] else [CheckOut])
  }

  /** From its n-th run on, Git fetches both refs, the release ref names the locked commit and
      the branch holds it. */
  predicate Vouched(source: Source, repo: Repo, git: nat -> Reply, n: nat)
  {
    && git(n).works
    && git(n + 1).works && git(n + 1).commit == source.commit && source.commit in repo.objects + git(n).objects
    && git(n + 2).works
  }

  /** The commands were asked in order, none after a bad answer. */
  ghost predicate Asks(path: string, commands: seq<Command>, answers: seq<Answer>)
  {
    && |answers| <= |commands|
    && forall k :: 0 <= k < |answers| ==>
         && answers[k].path == path && answers[k].command == commands[k]
         && (k + 1 < |answers| ==> answers[k].good)
  }

  /** Nothing Git answers can make this checkout ready. */
  predicate Hopeless(node: Node, source: Source, offline: bool)
  {
    || Refused(node, source)
    || (offline && (node.Missing? || (node.Git? && source.commit !in node.repo.objects)))
    || (node.Missing? && source.objectFormat != "sha1")
    || (HasHead(node) && exists p :: p in source.requiredPaths && p !in node.repo.files)
  }

  /** Every source in turn, all its commands answered well. */
  ghost function GoodAnswers(path: string, commands: seq<Command>): (answers: seq<Answer>)
    ensures |answers| == |commands|
  {
    seq(|commands|, k requires 0 <= k < |commands| => Answer(path, commands[k], true))
  }

  ghost function AllAnswers(sources: seq<Source>, tree: Tree, offline: bool): seq<Answer>
  {
    if sources == [] then []
    else
      var last := sources[|sources| - 1];
      AllAnswers(sources[..|sources| - 1], tree, offline)
      + GoodAnswers(last.path, Steps(Look(tree, last.path), offline))
  }

  /** The commands before the checkout itself. */
  function Obtaining(node: Node, offline: bool): seq<Command>
  {
    (if node.Missing? then [InitCheckout, AddOrigin] else [])
    + (if offline then [FindCommit] else [FetchRefs, ReadRelease, TestBranch])
  }

  lemma OneAsked(path: string, command: Command, answers: seq<Answer>)
    requires |answers| == 1 && answers[0].path == path && answers[0].command == command
    ensures AllGood(answers) <==> answers[0].good
    ensures Asks(path, [command], answers)
  {
  }

  lemma NoAnswers(path: string, commands: seq<Command>)
    ensures AllGood([]) && Asks(path, commands, [])
  {
  }

  lemma JoinedGood(first: seq<Answer>, second: seq<Answer>)
    ensures AllGood(first + second) <==> AllGood(first) && AllGood(second)
  {
    forall k | 0 <= k < |first| ensures (first + second)[k] == first[k] {}
    forall k | 0 <= k < |second| ensures (first + second)[|first| + k] == second[k] {}
  }

  lemma AskedOn(path: string, first: seq<Command>, second: seq<Command>, early: seq<Answer>, late: seq<Answer>)
    requires Asks(path, first, early) && |early| == |first| && AllGood(early)
    requires Asks(path, second, late)
    ensures Asks(path, first + second, early + late)
    ensures AllGood(early + late) <==> AllGood(late)
  {
    JoinedGood(early, late);
  }

  lemma AskedFirst(path: string, first: seq<Command>, second: seq<Command>, early: seq<Answer>)
    requires Asks(path, first, early)
    ensures Asks(path, first + second, early)
  {
  }

  ghost predicate NoneHopeless(sources: seq<Source>, tree: Tree, offline: bool)
  {
    forall i :: 0 <= i < |sources| ==> !Hopeless(Look(tree, sources[i].path), sources[i], offline)
  }

  lemma CompletedIsGood(path: string, commands: seq<Command>, answers: seq<Answer>)
    requires Asks(path, commands, answers) && |answers| == |commands| && AllGood(answers)
    ensures answers == GoodAnswers(path, commands)
  {
  }

  /** The same checkout, with at most more objects fetched into it. */
  predicate SameCheckout(before: Node, after: Node)
  {
    before.Git? && after.Git?
    && before.repo.objects <= after.repo.objects
    && after.repo.(objects := {}, head := None) == before.repo.(objects := {}, head := None)
    && after.repo.head == before.repo.head
  }

  lemma FaultlessIsReady(node: Node, source: Source)
    ensures (forall f: Fault :: !HasFault(node, source, f)) <==> Ready(node, source)
  {
    if forall f: Fault :: !HasFault(node, source, f) {
      assert !HasFault(node, source, CheckoutMissing) && !HasFault(node, source, NotWorktree);
      assert !HasFault(node, source, WrongOrigin) && !HasFault(node, source, WrongFormat);
      assert !HasFault(node, source, WrongHead) && !HasFault(node, source, AttachedHead);
      assert !HasFault(node, source, NoHead) && !HasFault(node, source, Dirty);
      forall p | p in source.requiredPaths ensures p in node.repo.files {
        assert !HasFault(node, source, RequiredMissing(p));
      }
    }
  }

  lemma ReadyHasHead(node: Node, source: Source)
    ensures Ready(node, source) ==> HasHead(node)
  {
  }

  type Tree = map<string, Node>

  function Look(tree: Tree, path: string): Node
  {
    if path in tree then tree[path] else Missing
  }

  /** Paths beside the given one are as they were. */
  ghost predicate Beside(before: Tree, after: Tree, path: string)
  {
    forall q: string :: !Overlap(path, q) ==> Look(after, q) == Look(before, q)
  }

  ghost predicate AllReady(sources: seq<Source>, tree: Tree)
  {
    forall i :: 0 <= i < |sources| ==> Ready(Look(tree, sources[i].path), sources[i])
  }

  /** A source that had a HEAD is the same checkout still. */
  ghost predicate HeadsKept(sources: seq<Source>, before: Tree, after: Tree)
  {
    forall i :: 0 <= i < |sources| ==> HeadKept(sources[i], before, after)
  }

  predicate HeadKept(source: Source, before: Tree, after: Tree)
  {
    HasHead(Look(before, source.path)) ==> SameCheckout(Look(before, source.path), Look(after, source.path))
  }

  /** Synchronising one source leaves the others as they were. */
  lemma OneSynced(sources: seq<Source>, i: nat, before: Tree, after: Tree)
    requires i < |sources| && Apart(sources) && Beside(before, after, sources[i].path)
    ensures forall k :: 0 <= k < |sources| && k != i ==> Look(after, sources[k].path) == Look(before, sources[k].path)
  {
    forall k | 0 <= k < |sources| && k != i
      ensures Look(after, sources[k].path) == Look(before, sources[k].path) {
      assert !Overlap(sources[i].path, sources[k].path);
    }
  }

  lemma KeptOn(sources: seq<Source>, i: nat, start: Tree, before: Tree, after: Tree)
    requires i < |sources| && HeadsKept(sources[..i], start, before)
    requires forall k :: 0 <= k < |sources| && k != i ==> Look(after, sources[k].path) == Look(before, sources[k].path)
    requires Look(before, sources[i].path) == Look(start, sources[i].path)
    requires HeadKept(sources[i], before, after)
    ensures HeadsKept(sources[..i + 1], start, after)
  {
    forall k | 0 <= k < i ensures HeadKept(sources[k], start, after) {
      assert HeadKept(sources[..i][k], start, before);
    }
  }

  lemma KeptRest(sources: seq<Source>, n: nat, start: Tree, after: Tree)
    requires n <= |sources| && HeadsKept(sources[..n], start, after)
    requires forall k :: n <= k < |sources| ==> Look(after, sources[k].path) == Look(start, sources[k].path)
    ensures HeadsKept(sources, start, after)
  {
    forall k | 0 <= k < |sources| ensures HeadKept(sources[k], start, after) {
      if k < n {
        assert HeadKept(sources[..n][k], start, after);
      }
    }
  }

  lemma KeptUnchanged(sources: seq<Source>, tree: Tree)
    ensures HeadsKept(sources, tree, tree)
  {
  }

  lemma ValidIsApart(sources: seq<Source>)
    ensures ValidLock(sources) ==> Apart(sources)
  {
  }

  class Checkouts {
    var nodes: Tree

    /** What Git does when it is asked for the n-th time. */
    const git: nat -> Reply

    /** What has been asked of Git, and what it answered. */
    var asked: seq<Answer>

    function At(path: string): Node
      reads this
    {
      Look(nodes, path)
    }

    /** A writing command: the checkout becomes `node`, and anything above or below it can
        change with it. */
    method Become(path: string, node: Node)
      modifies this
      ensures At(path) == node
      ensures Beside(old(nodes), nodes, path)
      ensures asked == old(asked)
    {
      var changed: map<string, Node> := *;
      if forall q | q in changed.Keys + nodes.Keys ::
           Overlap(path, q) || (q in changed && q in nodes && changed[q] == nodes[q]) {
        nodes := changed;
      }
      nodes := nodes[path := node];
      assert Overlap(path, path);
    }

    /** The faults of a repository other than missing files. */
    method RepositoryFaults(repo: Repo, source: Source) returns (faults: seq<Fault>)
      ensures forall f :: f in faults <==> !f.RequiredMissing? && HasFault(Git(repo), source, f)
    {
      faults := [];
      if repo.origin != Some(source.url) {
        faults := faults + [WrongOrigin];
      }
      if repo.format != source.objectFormat {
        faults := faults + [WrongFormat];
      }
      if repo.head.Some? {
        if repo.head.value != source.commit {
          faults := faults + [WrongHead];
        }
        if !repo.detached {
          faults := faults + [AttachedHead];
        }
      } else {
        faults := faults + [NoHead];
      }
      if repo.dirty {
        faults := faults + [Dirty];
      }
      forall f: Fault ensures f in faults <==> !f.RequiredMissing? && HasFault(Git(repo), source, f) {
        match f case WrongOrigin => case WrongFormat => case WrongHead => case AttachedHead => case NoHead =>
          case Dirty => case CheckoutMissing => case NotWorktree => case RequiredMissing(_) =>
      }
    }

    /** Every fault of a checkout, and the state they amount to. */
    method InspectSource(source: Source) returns (status: Status, faults: seq<Fault>)
      ensures forall f :: f in faults <==> HasFault(At(source.path), source, f)
      ensures status.IsReady? <==> Ready(At(source.path), source)
      ensures status.IsMissing? <==> At(source.path).Missing?
      ensures status.IsInvalid? <==> At(source.path).NotGit?
    {
      FaultlessIsReady(At(source.path), source);
      match At(source.path)
      case Missing =>
        return IsMissing, [CheckoutMissing];
      case NotGit =>
        return IsInvalid, [NotWorktree];
      case Git(repo) =>
        faults := RepositoryFaults(repo, source);
        ghost var before := faults;
        for i := 0 to |source.requiredPaths|
          invariant forall f :: f in faults <==>
            f in before || (f.RequiredMissing? && f.path in source.requiredPaths[..i] && f.path !in repo.files)
        {
          assert source.requiredPaths[..i + 1] == source.requiredPaths[..i] + [source.requiredPaths[i]];
          if source.requiredPaths[i] !in repo.files {
            faults := faults + [RequiredMissing(source.requiredPaths[i])];
          }
        }
        assert source.requiredPaths[..|source.requiredPaths|] == source.requiredPaths;
        if faults == [] {
          assert forall f: Fault :: !HasFault(At(source.path), source, f);
          status := IsReady;
        } else {
          assert HasFault(At(source.path), source, faults[0]);
          status := IsDrifted;
        }
    }

    /** Whether the checkout already has a HEAD; a checkout that must not be touched is an
        error. */
    method PreflightExisting(source: Source) returns (hasHead: Checked<bool>)
      ensures hasHead.Raise? <==> Refused(At(source.path), source)
      ensures hasHead.Ok? ==> hasHead.value == HasHead(At(source.path))
    {
      match At(source.path)
      case Missing =>
        return Ok(false);
      case NotGit =>
        return Raise(Invalid);
      case Git(repo) =>
        if repo.origin != Some(source.url) {
          return Raise(Invalid);
        }
        if repo.format != source.objectFormat {
          return Raise(Invalid);
        }
        if repo.dirty {
          return Raise(Invalid);
        }
        if repo.head.Some? {
          if repo.head.value != source.commit {
            return Raise(Invalid);
          }
          if !repo.detached {
            return Raise(Invalid);
          }
        }
        return Ok(repo.head.Some?);
    }

    /** A command is asked and answered. */
    method Note(path: string, command: Command, good: bool)
      modifies this`asked
      ensures asked == old(asked) + [Answer(path, command, good)]
    {
      asked := asked + [Answer(path, command, good)];
    }

    /** Fetch both refs; objects arrive whether or not Git succeeds in the end. */
    method Fetch(source: Source) returns (ok: bool)
      requires At(source.path).Git?
      modifies this
      ensures Beside(old(nodes), nodes, source.path)
      ensures SameCheckout(old(At(source.path)), At(source.path))
      ensures At(source.path).repo.objects == old(At(source.path)).repo.objects + git(|old(asked)|).objects
      ensures ok <==> git(|old(asked)|).works
      ensures asked == old(asked) + [Answer(source.path, FetchRefs, ok)]
    {
      var repo, reply := At(source.path).repo, git(|asked|);
      Become(source.path, Git(repo.(objects := repo.objects + reply.objects)));
      Note(source.path, FetchRefs, reply.works);
      return reply.works;
    }

    /** The commit that the release ref names, when it names one. */
    method ReleaseCommit(source: Source) returns (release: Checked<Commit>)
      requires At(source.path).Git?
      modifies this`asked
      ensures release.Ok? <==> git(|old(asked)|).works && git(|old(asked)|).commit in At(source.path).repo.objects
      ensures release.Ok? ==> release.value == git(|old(asked)|).commit
      ensures asked == old(asked) + [Answer(source.path, ReadRelease, release == Ok(source.commit))]
    {
      var reply := git(|asked|);
      release := if reply.works && reply.commit in At(source.path).repo.objects then Ok(reply.commit) else Raise(Invalid);
      Note(source.path, ReadRelease, release == Ok(source.commit));
    }

    /** Whether the locked commit is an ancestor of the branch. */
    method IsOnBranch(source: Source) returns (onBranch: bool)
      modifies this`asked
      ensures onBranch <==> git(|old(asked)|).works
      ensures asked == old(asked) + [Answer(source.path, TestBranch, onBranch)]
    {
      onBranch := git(|asked|).works;
      Note(source.path, TestBranch, onBranch);
    }

    /** Whether the locked commit is among the objects at hand. */
    method HasCommit(source: Source) returns (found: bool)
      requires At(source.path).Git?
      modifies this`asked
      ensures found <==> source.commit in At(source.path).repo.objects
      ensures asked == old(asked) + [Answer(source.path, FindCommit, found)]
    {
      found := source.commit in At(source.path).repo.objects;
      Note(source.path, FindCommit, found);
    }

    /** Check the locked commit out. Git may refuse, and may succeed and leave the tree dirty
        or without a required path. */
    method CheckoutDetached(source: Source) returns (ok: bool)
      requires At(source.path).Git?
      modifies this
      ensures Beside(old(nodes), nodes, source.path)
      ensures ok <==> git(|old(asked)|).works && source.commit in old(At(source.path)).repo.objects
      ensures asked == old(asked) + [Answer(source.path, CheckOut, ok && Clean(source, git(|old(asked)|)))]
      ensures ok ==> At(source.path) == Git(old(At(source.path)).repo.(
        head := Some(source.commit), detached := true, dirty := git(|old(asked)|).dirty, files := git(|old(asked)|).files))
    {
      var repo, reply := At(source.path).repo, git(|asked|);
      if !reply.works || source.commit !in repo.objects {
        if source.commit in repo.objects {
          Become(source.path, Git(repo.(dirty := reply.dirty, files := reply.files)));
        }
        Note(source.path, CheckOut, false);
        return false;
      }
      Become(source.path, Git(repo.(
        head := Some(source.commit), detached := true, dirty := reply.dirty, files := reply.files)));
      Note(source.path, CheckOut, Clean(source, reply));
      return true;
    }

    /** Initialise a repository with its origin; a failure can leave a part of it. */
    method Initialise(source: Source) returns (ok: bool)
      requires At(source.path).Missing?
      modifies this
      ensures Beside(old(nodes), nodes, source.path)
      ensures |old(asked)| <= |asked| && asked[..|old(asked)|] == old(asked)
      ensures Asks(source.path, [InitCheckout, AddOrigin], asked[|old(asked)|..])
      ensures ok <==> git(|old(asked)|).works && git(|old(asked)| + 1).works
      ensures ok <==> |asked| == |old(asked)| + 2 && AllGood(asked[|old(asked)|..])
      ensures !ok ==> !AllGood(asked[|old(asked)|..])
      ensures ok ==>
        At(source.path) == Git(RepoData(Some(source.url), "sha1", None, false, false, {}, {}))
    {
      ghost var before := asked;
      var made := git(|asked|).works;
      Note(source.path, InitCheckout, made);
      if !made {
        var left: Node := *;
        Become(source.path, left);
        assert asked[|before|..][0] == Answer(source.path, InitCheckout, false);
        return false;
      }
      var added := git(|asked|).works;
      Become(source.path, Git(RepoData(if added then Some(source.url) else None, "sha1", None, false, false, {}, {})));
      Note(source.path, AddOrigin, added);
      assert asked[|before|..] == [Answer(source.path, InitCheckout, true), Answer(source.path, AddOrigin, added)];
      assert asked[|before|..][1].good == added;
      return added;
    }

    /** Bring in the locked commit and check that its refs vouch for it. */
    method FetchLocked(source: Source) returns (ok: bool)
      requires At(source.path).Git?
      modifies this
      ensures Beside(old(nodes), nodes, source.path)
      ensures SameCheckout(old(At(source.path)), At(source.path))
      ensures |old(asked)| <= |asked| && asked[..|old(asked)|] == old(asked)
      ensures Asks(source.path, [FetchRefs, ReadRelease, TestBranch], asked[|old(asked)|..])
      ensures ok <==> |asked| == |old(asked)| + 3 && AllGood(asked[|old(asked)|..])
      ensures !ok ==> !AllGood(asked[|old(asked)|..])
      ensures ok ==> source.commit in At(source.path).repo.objects
      ensures ok <==> Vouched(source, old(At(source.path)).repo, git, |old(asked)|)
    {
      ghost var before := asked;
      var fetched := Fetch(source);
      if !fetched {
        assert asked[|before|..][0] == Answer(source.path, FetchRefs, false);
        return false;
      }
      var release := ReleaseCommit(source);
      ghost var named := release == Ok(source.commit);
      assert asked[|before|..] == [Answer(source.path, FetchRefs, true), Answer(source.path, ReadRelease, named)];
      assert asked[|before|..][1].good == named;
      if release.Raise? {
        return false;
      }
      if release.value != source.commit {
        return false;
      }
      ok := IsOnBranch(source);
      assert asked[|before|..] ==
        [Answer(source.path, FetchRefs, true), Answer(source.path, ReadRelease, true), Answer(source.path, TestBranch, ok)];
      assert asked[|before|..][2].good == ok;
    }

    /** Bring the locked commit into the checkout, making the checkout where there is none. */
    method Obtain(source: Source, offline: bool) returns (ok: bool, made: bool)
      requires !Refused(At(source.path), source)
      modifies this
      ensures Beside(old(nodes), nodes, source.path)
      ensures |old(asked)| <= |asked| && asked[..|old(asked)|] == old(asked)
      ensures Asks(source.path, Obtaining(old(At(source.path)), offline), asked[|old(asked)|..])
      ensures old(At(source.path)).Git? ==> SameCheckout(old(At(source.path)), At(source.path))
      ensures ok ==> At(source.path).Git? && source.commit in At(source.path).repo.objects
      ensures ok && old(At(source.path)).Missing? ==>
        At(source.path).repo.(objects := {}) == RepoData(Some(source.url), "sha1", None, false, false, {}, {})
      ensures ok ==> made == old(At(source.path)).Missing?
      ensures ok ==> |asked| == |old(asked)| + |Obtaining(old(At(source.path)), offline)|
      ensures ok <==>
        AllGood(asked[|old(asked)|..]) && !(offline && old(At(source.path)).Missing?)
      ensures offline ==> nodes == old(nodes)
      ensures offline && old(At(source.path)).Missing? ==> asked == old(asked)
      ensures offline && old(At(source.path)).Git? ==> (ok <==> source.commit in old(At(source.path)).repo.objects)
    {
      hide Overlap, Vouched, AllGood, Clean, Asks;
      ghost var before := asked;
      made := false;
      NoAnswers(source.path, Obtaining(At(source.path), offline));
      NoAnswers(source.path, []);
      assert asked[|before|..] == [];
      if At(source.path).Missing? {
        if offline {
          return false, false;
        }
        ok := Initialise(source);
        AskedFirst(source.path, [InitCheckout, AddOrigin], [FetchRefs, ReadRelease, TestBranch], asked[|before|..]);
        if !ok {
          return false, false;
        }
        made := true;
      }
      ghost var begun := asked;
      if offline {
        ok := HasCommit(source);
        assert asked[|before|..] == [Answer(source.path, FindCommit, ok)];
        OneAsked(source.path, FindCommit, asked[|before|..]);
        assert old(Obtaining(At(source.path), offline)) == [FindCommit];
      } else {
        ok := FetchLocked(source);
        assert asked[|before|..] == begun[|before|..] + asked[|begun|..];
        AskedOn(source.path, if made then [InitCheckout, AddOrigin] else [], [FetchRefs, ReadRelease, TestBranch],
                begun[|before|..], asked[|begun|..]);
      }
    }

    /** Synchronise one source; the answer says whether the checkout was created. It succeeds
        exactly when the checkout can be made ready and Git answers every command well, and
        the commands are those of `Steps`, none after a bad answer. */
    method SyncSource(source: Source, offline: bool) returns (created: Checked<bool>)
      modifies this
      ensures Beside(old(nodes), nodes, source.path)
      ensures created.Ok? ==> Ready(At(source.path), source) && (created.value <==> old(At(source.path)).Missing?)
      ensures HasHead(old(At(source.path))) ==> SameCheckout(old(At(source.path)), At(source.path))
      ensures Refused(old(At(source.path)), source) ==> created.Raise? && nodes == old(nodes) && asked == old(asked)
      ensures offline && old(At(source.path)).Missing? ==> created.Raise? && nodes == old(nodes) && asked == old(asked)
      ensures offline && HasHead(old(At(source.path))) ==> nodes == old(nodes)
      ensures offline && Ready(old(At(source.path)), source) ==> created == Ok(false)
      ensures |old(asked)| <= |asked| && asked[..|old(asked)|] == old(asked)
      ensures Asks(source.path, Steps(old(At(source.path)), offline), asked[|old(asked)|..])
      ensures created.Ok? <==>
        !Hopeless(old(At(source.path)), source, offline) && AllGood(asked[|old(asked)|..])
      ensures created.Ok? ==> |asked| == |old(asked)| + |Steps(old(At(source.path)), offline)|
    {
      hide Overlap, AllGood, Vouched, Asks, Obtaining;
      ghost var before := asked;
      NoAnswers(source.path, Steps(At(source.path), offline));
      assert asked[|before|..] == [];
      var hasHead := PreflightExisting(source);
      if hasHead.Raise? {
        return Raise(Invalid);
      }
      ghost var obtaining := Obtaining(At(source.path), offline);
      ghost var last := if hasHead.value then [] else [CheckOut];
      var ok, made := Obtain(source, offline);
      AskedFirst(source.path, obtaining, last, asked[|before|..]);
      if !ok {
        return Raise(Invalid);
      }
      ghost var obtained := asked;
      if !hasHead.value {
        ok := CheckoutDetached(source);
        OneAsked(source.path, CheckOut, asked[|obtained|..]);
        assert asked[|before|..] == obtained[|before|..] + asked[|obtained|..];
        AskedOn(source.path, obtaining, last, obtained[|before|..], asked[|obtained|..]);
        if !ok {
          return Raise(Invalid);
        }
      }
      var status, _ := InspectSource(source);
      return if status.IsReady? then Ok(made) else Raise(Invalid);
    }

    /** Synchronise every source in turn, stopping at the first that fails. Whether or not
        it succeeds, no HEAD that existed moves and nothing beside the sources changes; it
        succeeds exactly when every checkout can be made ready and Git answers every command
        well; and with every source ready, an offline run changes nothing. */
    method SyncResult(sources: seq<Source>, offline: bool) returns (ok: bool)
      requires Apart(sources)
      modifies this
      ensures ok ==> AllReady(sources, nodes)
      ensures HeadsKept(sources, old(nodes), nodes)
      ensures forall q: string :: (forall i :: 0 <= i < |sources| ==> !Overlap(sources[i].path, q)) ==> At(q) == old(At(q))
      ensures offline && AllReady(sources, old(nodes)) ==> ok && nodes == old(nodes)
      ensures |old(asked)| <= |asked| && asked[..|old(asked)|] == old(asked)
      ensures ok <==> NoneHopeless(sources, old(nodes), offline) && AllGood(asked[|old(asked)|..])
      ensures ok ==> asked[|old(asked)|..] == AllAnswers(sources, old(nodes), offline)
    {
      hide Ready, HasHead, SameCheckout, Refused, Overlap, Hopeless, Steps, Asks, AllGood, Apart;
      ghost var start := nodes;
      ghost var before := asked;
      NoAnswers("", []);
      assert asked[|before|..] == [];
      for i := 0 to |sources|
        invariant AllReady(sources[..i], nodes)
        invariant HeadsKept(sources[..i], start, nodes)
        invariant forall k :: i <= k < |sources| ==> Look(nodes, sources[k].path) == Look(start, sources[k].path)
        invariant forall q: string ::
          (forall k :: 0 <= k < |sources| ==> !Overlap(sources[k].path, q)) ==> Look(nodes, q) == Look(start, q)
        invariant offline && AllReady(sources, start) ==> nodes == start
        invariant |before| <= |asked| && asked[..|before|] == before
        invariant NoneHopeless(sources[..i], start, offline) && AllGood(asked[|before|..])
        invariant asked[|before|..] == AllAnswers(sources[..i], start, offline)
      {
        ghost var tree := nodes;
        ghost var earlier := asked;
        ReadyHasHead(At(sources[i].path), sources[i]);
        var created := SyncSource(sources[i], offline);
        OneSynced(sources, i, tree, nodes);
        KeptOn(sources, i, start, tree, nodes);
        assert asked[|before|..] == earlier[|before|..] + asked[|earlier|..];
        JoinedGood(earlier[|before|..], asked[|earlier|..]);
        if created.Raise? {
          KeptRest(sources, i + 1, start, nodes);
          return false;
        }
        CompletedIsGood(sources[i].path, Steps(Look(start, sources[i].path), offline), asked[|earlier|..]);
        assert sources[..i + 1] == sources[..i] + [sources[i]];
        assert sources[..i + 1][..i] == sources[..i];
      }
      assert sources[..|sources|] == sources;
      return true;
    }

    method StatusResult(sources: seq<Source>) returns (ok: bool)
      ensures ok <==> AllReady(sources, nodes)
    {
      ok := true;
      for i := 0 to |sources|
        invariant ok <==> AllReady(sources[..i], nodes)
      {
        var status, _ := InspectSource(sources[i]);
        ok := ok && status.IsReady?;
        assert sources[..i + 1] == sources[..i] + [sources[i]];
      }
      assert sources[..|sources|] == sources;
    }

    /** A validated lock, synchronised: the status is ok, and synchronising again offline
        succeeds and leaves every checkout alone. A lock that is not valid is left alone; a
        valid one is synchronised exactly when every checkout can be made ready and Git
        answers each command well, and the offline rerun only looks for the locked commits. */
    method SyncThenStatus(sources: seq<Source>, offline: bool)
      returns (synced: bool, ok: bool, again: bool, ghost answers: seq<Answer>)
      modifies this
      ensures synced <==> ValidLock(sources) && NoneHopeless(sources, old(nodes), offline) && AllGood(answers)
      ensures synced ==> ok && again && AllReady(sources, nodes)
      ensures |old(asked)| + |answers| <= |asked| && asked[..|old(asked)|] == old(asked)
      ensures asked[|old(asked)|..|old(asked)| + |answers|] == answers
      ensures synced ==> answers == AllAnswers(sources, old(nodes), offline)
      ensures synced ==> asked[|old(asked)| + |answers|..] == AllAnswers(sources, nodes, true)
      ensures !synced ==> |asked| == |old(asked)| + |answers|
      ensures !ValidLock(sources) ==> nodes == old(nodes) && answers == []
      ensures HeadsKept(sources, old(nodes), nodes)
    {
      hide *;
      synced, ok, again, answers := false, false, false, [];
      ghost var before := asked;
      KeptUnchanged(sources, nodes);
      ValidIsApart(sources);
      var valid := ValidateSources(sources);
      if valid {
        synced := SyncResult(sources, offline);
        answers := asked[|before|..];
        assert asked == before + answers;
        if synced {
          ok := StatusResult(sources);
          ghost var settled := asked;
          again := SyncResult(sources, true);
          assert asked == settled + asked[|settled|..];
        }
      }
    }
  }
}
