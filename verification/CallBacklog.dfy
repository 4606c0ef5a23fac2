/**
 What becomes of the reports that were buffered for a provider call once a call
 is linked to it. Only `link_provider_call` replays them.
 */
module CallBacklog {
  import opened Text
  import opened CallDomain
  import opened CallStore
  import opened CallSteps
  import opened CallRuns

  predicate IsLinked(db: Database, c: CallId) {
    c in db.calls && db.calls[c].providerCallId.Some?
  }

  /** The reports still buffered for the call's provider call. */
  function Backlog(db: Database, c: CallId): seq<Buffered>
    requires IsLinked(db, c)
  {
    Matching(db.unmatched, db.calls[c].provider, db.calls[c].providerCallId.value)
  }

  lemma {:induction false} OthersMatchNothing(buffer: seq<Buffered>, provider: CallProvider, pid: string)
    ensures Matching(Others(buffer, provider, pid), provider, pid) == []
    decreases |buffer|
  {
    if buffer != [] {
      var front, b := buffer[..|buffer| - 1], buffer[|buffer| - 1];
      OthersMatchNothing(front, provider, pid);
      var others := Others(front, provider, pid);
      if b.provider == provider && b.providerCallId == pid {
        assert others + [] == others;
      } else {
        assert (others + [b])[..|others|] == others;
      }
    }
  }

  /** The explicit link leaves no backlog. */
  lemma LinkEmptiesTheBacklog(db: Database, c: CallId, pid: string)
    requires Valid(db) && LinkProviderCall(db, c, pid).1.Ok?
    ensures var db' := LinkProviderCall(db, c, pid).0;
            IsLinked(db', c) && Backlog(db', c) == []
  {
    hide Matching, Others, Pending, ReplayAll, Indexed, DistinctKeys, KeysPointToCalls;
    var db' := Attach(db, c, pid).value;
    var provider, p := db'.calls[c].provider, db'.calls[c].providerCallId.value;
    AttachValid(db, c, pid);
    ReplayAllKeeps(File(db', c), Pending(db', provider, p));
    OthersMatchNothing(db'.unmatched, provider, p);
  }

  /** A call that is linked by being registered, or by a report that names it, keeps the buffer as it was. */
  lemma OtherLinksKeepTheBuffer(db: Database, op: Op, c: CallId)
    requires Valid(db) && !IsLinked(db, c) && !op.Link? && IsLinked(Step(db, op), c)
    ensures Step(db, op).unmatched == db.unmatched
  {
    hide Walk, Deliver, DeliveryOutcome, Buffer, Trim, Indexed, DistinctKeys, KeysPointToCalls, VersionsBounded;
    if op.Receive? {
      ApplyByTarget(db, op.report);
    }
  }

  /**
   A call that has just been linked has no backlog exactly if it was linked by
   `link_provider_call` or nothing was buffered for it.
   */
  lemma BacklogAfterLinkExactly(db: Database, op: Op, c: CallId)
    requires Valid(db) && !IsLinked(db, c) && IsLinked(Step(db, op), c)
    ensures var db' := Step(db, op);
            Backlog(db', c) == [] <==>
            op.Link? || Matching(db.unmatched, db'.calls[c].provider, db'.calls[c].providerCallId.value) == []
  {
    hide Matching, LinkProviderCall, BeginCall, RegisterInbound, ApplyState, PurgeTerminal, PurgeUnmatched, Valid;
    if op.Link? {
      LinkedByLink(db, op.c, op.pid, c);
      LinkEmptiesTheBacklog(db, c, op.pid);
    } else {
      OtherLinksKeepTheBuffer(db, op, c);
    }
  }

  lemma LinkedByLink(db: Database, k: CallId, pid: string, c: CallId)
    requires Valid(db) && !IsLinked(db, c) && IsLinked(LinkProviderCall(db, k, pid).0, c)
    ensures c == k && LinkProviderCall(db, k, pid).1.Ok?
  {
    hide Matching, Others, Pending, ReplayAll, Indexed, DistinctKeys, KeysPointToCalls, VersionsBounded;
  }

  /** A linked call's backlog never grows: its reports find the call. So an empty backlog stays empty. */
  lemma BacklogNeverGrows(db: Database, op: Op, c: CallId, b: Buffered)
    requires Valid(db) && IsLinked(db, c) && c in Step(db, op).calls
    ensures IsLinked(Step(db, op), c)
    ensures b in Backlog(Step(db, op), c) ==> b in Backlog(db, c)
  {
    hide Matching, BeginCall, RegisterInbound, LinkProviderCall, ApplyState, PurgeTerminal, Indexed, DistinctKeys,
         KeysPointToCalls, VersionsBounded;
    StepKeepsLink(db, op, c);
    var db' := Step(db, op);
    var provider, pid := db.calls[c].provider, db.calls[c].providerCallId.value;
    MatchingIsFilter(db.unmatched, provider, pid, b);
    MatchingIsFilter(db'.unmatched, provider, pid, b);
    if b in Backlog(db', c) {
      BufferGainsOnlyUnlinked(db, op, c, b);
    }
  }

  lemma StepKeepsLink(db: Database, op: Op, c: CallId)
    requires Valid(db) && IsLinked(db, c) && c in Step(db, op).calls
    ensures var call, call' := db.calls[c], Step(db, op).calls[c];
            call'.providerCallId == call.providerCallId && call'.provider == call.provider
  {
    hide Step, EffectOn, Deliver, ReplayAll, Indexed, DistinctKeys, KeysPointToCalls;
    StepEffect(db, op, c);
    match EffectOn(db, op, c)
    case Untouched =>
    case Delivered(d, m) => DeliverKeeps(d, m);
    case Replayed(d, ms) => ReplayAllKeeps(d, ms);
  }

  lemma BufferGainsOnlyUnlinked(db: Database, op: Op, c: CallId, b: Buffered)
    requires Valid(db) && IsLinked(db, c)
    requires b.provider == db.calls[c].provider && b.providerCallId == db.calls[c].providerCallId.value
    requires b in Step(db, op).unmatched
    ensures b in db.unmatched
  {
    hide BeginCall, RegisterInbound, LinkProviderCall, ApplyState, Valid;
    match op
    case Link(k, pid) => LinkGainsNothing(db, k, pid, b);
    case Receive(report) => ReportGainsOnlyUnlinked(db, report, c, b);
    case PurgeBuffer(cutoff) => ReceivedSinceIn(db, cutoff, b);
    case PurgeCalls(cutoff) =>
    case _ => BeginEffect(db, op, c);
  }

  /**
   The buffer keeps provider call ids as they came, and links store them
   trimmed: a report buffered under an id with blanks at an end is replayed by
   no operation. It stays until the buffer is purged.
   */
  lemma UntrimmedReportsStay(db: Database, op: Op, b: Buffered)
    requires Valid(db) && b in db.unmatched && !Trimmed(b.providerCallId) && !op.PurgeBuffer?
    ensures b in Step(db, op).unmatched
  {
    hide BeginCall, RegisterInbound, LinkProviderCall, ApplyState, Valid, Trimmed;
    match op
    case Link(k, pid) => LinkKeepsUntrimmed(db, k, pid, b);
    case PurgeCalls(cutoff) =>
    case _ => BufferGrows(db, op, b);
  }

  lemma LinkKeepsUntrimmed(db: Database, k: CallId, pid: string, b: Buffered)
    requires Valid(db) && b in db.unmatched && !Trimmed(b.providerCallId)
    ensures b in LinkProviderCall(db, k, pid).0.unmatched
  {
    hide ReplayAll, Pending, Trim, Indexed, KeysPointToCalls, VersionsBounded;
    if LinkProviderCall(db, k, pid).1.Ok? {
      var db' := Attach(db, k, pid).value;
      OthersKeepKeys(db.unmatched, db'.calls[k].provider, db'.calls[k].providerCallId.value);
    }
  }

  lemma LinkGainsNothing(db: Database, k: CallId, pid: string, b: Buffered)
    requires Valid(db) && b in LinkProviderCall(db, k, pid).0.unmatched
    ensures b in db.unmatched
  {
    hide ReplayAll, Pending, Trim, Indexed, KeysPointToCalls, VersionsBounded;
    if LinkProviderCall(db, k, pid).1.Ok? {
      var db' := Attach(db, k, pid).value;
      OthersKeepMembers(db.unmatched, db'.calls[k].provider, db'.calls[k].providerCallId.value, b);
    }
  }

  lemma ReportGainsOnlyUnlinked(db: Database, report: Report, c: CallId, b: Buffered)
    requires Valid(db) && IsLinked(db, c)
    requires b.provider == db.calls[c].provider && b.providerCallId == db.calls[c].providerCallId.value
    requires b in ApplyState(db, report).0.unmatched
    ensures b in db.unmatched
  {
    hide Deliver, DeliveryOutcome, Trim, DistinctKeys, KeysPointToCalls, VersionsBounded;
  }

  lemma ReceivedSinceIn(db: Database, cutoff: nat, b: Buffered)
    requires Valid(db) && b in ReceivedSince(db.unmatched, cutoff)
    ensures b in db.unmatched
  {
    ReceivedSinceKeepKeys(db.unmatched, cutoff);
  }

  lemma OthersKeepMembers(buffer: seq<Buffered>, provider: CallProvider, pid: string, b: Buffered)
    requires DistinctKeys(buffer) && b in Others(buffer, provider, pid)
    ensures b in buffer
  {
    OthersKeepKeys(buffer, provider, pid);
  }
}
