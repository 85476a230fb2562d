// Deferral of host signals around restorative critical sections (sdk_iteration.py).
//
// A program of nested `with DeferredCancellation(...)` blocks is a `Body`: signals
// arriving, failures, and nested regions. Running it on the real handler table is
// proved equal to a table-free account of which signal each region records and how
// each region ends.

module DeferredCancellation {
  import opened Wrappers

  datatype Signal = SIGTERM | SIGHUP | SIGINT

  /** An exception: a cancellation or any other failure, with the signals noted on it. */
  datatype Kind = Cancelled(signal: Signal) | Failed(code: nat)

  datatype Exc = Exc(kind: Kind, notes: seq<Signal>)

  datatype Outcome = Returned | Raised(exc: Exc)

  /** What happens inside a block, in order. A signal that cannot be deferred raises at once. */
  datatype Body =
    | Done
    | Arrive(signal: Signal, rest: Body)
    | Fail(exc: Exc)
    | Region(raiseOnExit: bool, inner: Body, rest: Body)

  /** How a region ends, given how its block ended and the signal it recorded first. */
  function Close(block: Outcome, recorded: Option<Signal>, raiseOnExit: bool): Outcome
  {
    match recorded
    case None => block
    case Some(s) =>
      match block
      case Returned => if raiseOnExit then Raised(Exc(Cancelled(s), [])) else Returned
      case Raised(e) => Raised(e.(notes := e.notes + [s]))
  }

  datatype Effect = Effect(outcome: Outcome, recorded: Option<Signal>)

  /** How a block ends and which deferrable signal arrived first in it outside its nested
      regions. Outside every region, and for a signal that cannot be deferred, the
      controller raises at once unless the evidence is already committed. */
  function EffectOf(body: Body, inRegion: bool, deferrable: set<Signal>, committed: bool): Effect
  {
    match body
    case Done => Effect(Returned, None)
    case Fail(exc) => Effect(Raised(exc), None)
    case Arrive(s, rest) =>
      if inRegion && s in deferrable then
        EffectOf(rest, inRegion, deferrable, committed).(recorded := Some(s))
      else if committed then
        EffectOf(rest, inRegion, deferrable, committed)
      else
        Effect(Raised(Exc(Cancelled(s), [])), None)
    case Region(raiseOnExit, inner, rest) =>
      var e := EffectOf(inner, true, deferrable, committed);
      var closed := Close(e.outcome, e.recorded, raiseOnExit);
      if closed.Raised? then Effect(closed, None) else EffectOf(rest, inRegion, deferrable, committed)
  }

  /** The handler installed for a signal: the controller's, or one region's recorder. */
  datatype Handler = Cancel | Recorder(region: Deferral)

  const SIGNALS: seq<Signal> := [SIGTERM, SIGHUP, SIGINT]

  lemma EverySignalIsListed(s: Signal)
    ensures s in SIGNALS
  {
    match s
    case SIGTERM => assert SIGNALS[0] == s;
    case SIGHUP => assert SIGNALS[1] == s;
    case SIGINT => assert SIGNALS[2] == s;
  }

  /** The process: its handler table and which signals it lets a block divert. */
  class Host {
    var handlers: map<Signal, Handler>
    const deferrable: set<Signal>
    const committed: bool

    constructor (deferrable: set<Signal>, committed: bool)
      ensures this.deferrable == deferrable && this.committed == committed
      ensures Routed(null)
    {
      handlers := map[SIGTERM := Cancel, SIGHUP := Cancel, SIGINT := Cancel];
      this.deferrable := deferrable;
      this.committed := committed;
      new;
      forall s: Signal ensures s in handlers && handlers[s] == Cancel {
        match s case SIGTERM => case SIGHUP => case SIGINT =>
      }
    }

    /** Deferrable signals go to the innermost region, all others to the controller. */
    ghost predicate Routed(region: Deferral?)
      reads this
    {
      forall s: Signal ::
        s in handlers && handlers[s] == if region != null && s in deferrable then Recorder(region) else Cancel
    }
  }

  class Deferral {
    const raiseOnExit: bool
    var signum: Option<Signal>
    var saved: map<Signal, Handler>

    constructor (raiseOnExit: bool)
      ensures signum == None && saved == map[] && this.raiseOnExit == raiseOnExit
    {
      this.raiseOnExit := raiseOnExit;
      signum := None;
      saved := map[];
    }

    method Record(s: Signal)
      modifies this`signum
      ensures signum == if old(signum).None? then Some(s) else old(signum)
    {
      if signum.None? {
        signum := Some(s);
      }
    }

    /** Divert every signal whose handler can be replaced. */
    method Enter(host: Host, ghost outer: Deferral?)
      requires saved == map[] && host.Routed(outer)
      modifies this`saved, host`handlers
      ensures host.Routed(this)
      ensures saved == map s | s in old(host.handlers) && s in host.deferrable :: old(host.handlers)[s]
    {
      ghost var before := host.handlers;
      var i := 0;
      while i < |SIGNALS|
        invariant 0 <= i <= |SIGNALS|
        invariant saved == map s | s in before && s in host.deferrable && s in SIGNALS[..i] :: before[s]
        invariant host.handlers == map s | s in before :: if s in saved then Recorder(this) else before[s]
      {
        var s := SIGNALS[i];
        if s in host.deferrable {
          saved := saved[s := host.handlers[s]];
          host.handlers := host.handlers[s := Recorder(this)];
        }
        i := i + 1;
      }
      assert SIGNALS[..i] == SIGNALS;
      forall s: Signal ensures s in SIGNALS { EverySignalIsListed(s); }
    }

    /** Put the saved handlers back, then raise or note what was recorded. */
    method Exit(host: Host, block: Outcome) returns (o: Outcome)
      modifies host`handlers
      ensures host.handlers == old(host.handlers) + saved
      ensures o == Close(block, signum, raiseOnExit)
    {
      ghost var before := host.handlers;
      var pending := saved;
      while pending != map[]
        invariant pending.Keys <= saved.Keys
        invariant forall s :: s in pending ==> pending[s] == saved[s]
        invariant host.handlers == before + (saved - pending.Keys)
        decreases pending.Keys
      {
        var s :| s in pending;
        host.handlers := host.handlers[s := pending[s]];
        pending := pending - {s};
      }
      o := block;
      if signum.Some? {
        if block.Returned? && raiseOnExit {
          o := Raised(Exc(Cancelled(signum.value), []));
        } else if block.Raised? {
          o := Raised(block.exc.(notes := block.exc.notes + [signum.value]));
        }
      }
    }
  }

  /** Run a block with the given innermost region. Every nested region restores the handler
      table, and the block ends as the table-free account says. */
  method RunBody(host: Host, body: Body, region: Deferral?) returns (o: Outcome)
    requires host.Routed(region)
    modifies host`handlers
    modifies (if region == null then {} else {region})`signum
    ensures host.handlers == old(host.handlers)
    ensures
      var e := EffectOf(body, region != null, host.deferrable, host.committed);
      && o == e.outcome
      && (region != null ==>
            region.signum == if old(region.signum).Some? then old(region.signum) else e.recorded)
    decreases body
  {
    match body
    case Done =>
      return Returned;
    case Fail(exc) =>
      return Raised(exc);
    case Arrive(s, rest) =>
      match host.handlers[s] {
        case Recorder(r) =>
          r.Record(s);
        case Cancel =>
          if !host.committed {
            return Raised(Exc(Cancelled(s), []));
          }
      }
      o := RunBody(host, rest, region);
    case Region(raiseOnExit, inner, rest) =>
      ghost var before := host.handlers;
      var nested := new Deferral(raiseOnExit);
      nested.Enter(host, region);
      var block := RunBody(host, inner, nested);
      o := nested.Exit(host, block);
      assert host.handlers == before;
      if o.Returned? {
        o := RunBody(host, rest, region);
      }
  }

  /** The signals that arrive in a block itself, in order, up to its first exception. */
  function OwnSignals(body: Body, deferrable: set<Signal>, committed: bool): seq<Signal>
  {
    match body
    case Done => []
    case Fail(_) => []
    case Arrive(s, rest) =>
      if s in deferrable then [s] + OwnSignals(rest, deferrable, committed)
      else if committed then OwnSignals(rest, deferrable, committed) else []
    case Region(raiseOnExit, inner, rest) =>
      var e := EffectOf(inner, true, deferrable, committed);
      if Close(e.outcome, e.recorded, raiseOnExit).Raised? then [] else OwnSignals(rest, deferrable, committed)
  }

  /** No signal is lost: the first one a region records is raised at its exit, or noted on
      the exception in flight; only a region that does not raise, left without an
      exception, keeps it recorded for its owner. */
  lemma {:induction false} FirstSignalIsNotLost(inner: Body, raiseOnExit: bool, deferrable: set<Signal>, committed: bool)
    ensures
      var own := OwnSignals(inner, deferrable, committed);
      var e := EffectOf(inner, true, deferrable, committed);
      var o := Close(e.outcome, e.recorded, raiseOnExit);
      && (e.recorded == if own == [] then None else Some(own[0]))
      && (own == [] ==> o == e.outcome)
      && (own != [] && e.outcome.Raised? ==> o == Raised(Exc(e.outcome.exc.kind, e.outcome.exc.notes + [own[0]])))
      && (own != [] && e.outcome.Returned? && raiseOnExit ==> o == Raised(Exc(Cancelled(own[0]), [])))
      && (own != [] && e.outcome.Returned? && !raiseOnExit ==> o == Returned && e.recorded == Some(own[0]))
  {
    RecordedIsFirst(inner, deferrable, committed);
  }

  lemma {:induction false} RecordedIsFirst(body: Body, deferrable: set<Signal>, committed: bool)
    ensures
      var own := OwnSignals(body, deferrable, committed);
      EffectOf(body, true, deferrable, committed).recorded == if own == [] then None else Some(own[0])
  {
    match body
    case Done =>
    case Fail(_) =>
    case Arrive(s, rest) => RecordedIsFirst(rest, deferrable, committed);
    case Region(raiseOnExit, inner, rest) => RecordedIsFirst(rest, deferrable, committed);
  }

  // ---- A signal that no region takes ----

  /** One block after another. */
  function Then(first: Body, second: Body): Body
  {
    match first
    case Done => second
    case Fail(exc) => first
    case Arrive(s, rest) => Arrive(s, Then(rest, second))
    case Region(raiseOnExit, inner, rest) => Region(raiseOnExit, inner, Then(rest, second))
  }

  /** The second block runs exactly when the first returns, and the earlier of the signals
      they record is the one recorded. */
  lemma {:induction false} ThenEnds(first: Body, second: Body, inRegion: bool, deferrable: set<Signal>, committed: bool)
    ensures
      var a, b := EffectOf(first, inRegion, deferrable, committed), EffectOf(second, inRegion, deferrable, committed);
      EffectOf(Then(first, second), inRegion, deferrable, committed) ==
      if a.outcome.Raised? then a else Effect(b.outcome, if a.recorded.Some? then a.recorded else b.recorded)
  {
    match first
    case Done =>
    case Fail(_) =>
    case Arrive(s, rest) => ThenEnds(rest, second, inRegion, deferrable, committed);
    case Region(_, _, rest) => ThenEnds(rest, second, inRegion, deferrable, committed);
  }

  /** A signal outside every region, or one that cannot be deferred, after a block that
      returns: before the commitment it is raised at once, whatever would follow; after the
      commitment the run goes on as if it had not arrived. */
  lemma UntakenSignal(first: Body, s: Signal, rest: Body, inRegion: bool, deferrable: set<Signal>, committed: bool)
    requires !inRegion || s !in deferrable
    requires EffectOf(first, inRegion, deferrable, committed).outcome.Returned?
    ensures !committed ==>
      EffectOf(Then(first, Arrive(s, rest)), inRegion, deferrable, committed).outcome == Raised(Exc(Cancelled(s), []))
    ensures committed ==>
      EffectOf(Then(first, Arrive(s, rest)), inRegion, deferrable, committed)
      == EffectOf(Then(first, rest), inRegion, deferrable, committed)
  {
    ThenEnds(first, Arrive(s, rest), inRegion, deferrable, committed);
    ThenEnds(first, rest, inRegion, deferrable, committed);
  }

  /** A signal that the region takes stops nothing: the block ends as it would have without
      it, and the signal is recorded unless an earlier one was. */
  lemma TakenSignal(first: Body, s: Signal, rest: Body, deferrable: set<Signal>, committed: bool)
    requires s in deferrable
    ensures
      var a := EffectOf(first, true, deferrable, committed);
      var e := EffectOf(Then(first, Arrive(s, rest)), true, deferrable, committed);
      && e.outcome == EffectOf(Then(first, rest), true, deferrable, committed).outcome
      && (a.outcome.Returned? ==> e.recorded == if a.recorded.Some? then a.recorded else Some(s))
  {
    ThenEnds(first, Arrive(s, rest), true, deferrable, committed);
    ThenEnds(first, rest, true, deferrable, committed);
  }

  // ---- A region around a given block ----

  /** A block in which these signals arrive and which then ends as given. */
  function Block(arrivals: seq<Signal>, end: Outcome): Body
  {
    if arrivals != [] then Arrive(arrivals[0], Block(arrivals[1..], end))
    else match end
      case Returned => Done
      case Raised(exc) => Fail(exc)
  }

  const ALL_SIGNALS: set<Signal> := {SIGTERM, SIGHUP, SIGINT}

  /** How a region around that block ends, and what it recorded. */
  function Leave(arrivals: seq<Signal>, end: Outcome, raiseOnExit: bool): Effect
  {
    var e := EffectOf(Block(arrivals, end), true, ALL_SIGNALS, false);
    Effect(Close(e.outcome, e.recorded, raiseOnExit), e.recorded)
  }

  /** The signals an exception tells of: its own and those noted on it. */
  function Tells(o: Outcome): set<Signal>
  {
    match o
    case Returned => {}
    case Raised(exc) =>
      (set s | s in exc.notes) + (if exc.kind.Cancelled? then {exc.kind.signal} else {})
  }

  lemma {:induction false} BlockEnds(arrivals: seq<Signal>, end: Outcome)
    ensures EffectOf(Block(arrivals, end), true, ALL_SIGNALS, false)
         == Effect(end, if arrivals == [] then None else Some(arrivals[0]))
  {
    if arrivals != [] {
      assert arrivals[0] in ALL_SIGNALS by {
        match arrivals[0] case SIGTERM => case SIGHUP => case SIGINT =>
      }
      BlockEnds(arrivals[1..], end);
    }
  }

  /** Leaving a region keeps the block's exception and adds the first arrival to what it
      tells; without an exception the first arrival is raised, or handed to the owner. */
  lemma LeaveTells(arrivals: seq<Signal>, end: Outcome, raiseOnExit: bool)
    ensures
      var e := Leave(arrivals, end, raiseOnExit);
      var first := if arrivals == [] then {} else {arrivals[0]};
      && e.recorded == (if arrivals == [] then None else Some(arrivals[0]))
      && (end.Raised? ==> e.outcome.Raised? && e.outcome.exc.kind == end.exc.kind)
      && (end.Returned? ==> (e.outcome.Raised? <==> raiseOnExit && arrivals != []))
      && (e.outcome.Raised? ==> Tells(e.outcome) == Tells(end) + first)
      && (e.outcome.Raised? && end.Returned? ==> e.outcome.exc.kind == Cancelled(arrivals[0]))
      && forall nested ::
           EffectOf(Region(raiseOnExit, Block(arrivals, end), Done), nested, ALL_SIGNALS, false).outcome == e.outcome
  {
    BlockEnds(arrivals, end);
    if arrivals != [] && end.Raised? {
      var notes := end.exc.notes;
      assert Leave(arrivals, end, raiseOnExit).outcome.exc.notes == notes + [arrivals[0]];
      assert forall s :: s in notes + [arrivals[0]] <==> s in notes || s == arrivals[0];
    }
  }
}
