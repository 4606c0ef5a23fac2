/**
 Late linking is invisible: reports that arrive before the provider's call id is
 known, and are buffered and replayed, leave the call exactly as if the id had
 been known from the start.
 */
module CallLateLink {
  import opened Prelude
  import opened Text
  import opened CallDomain
  import opened CallPaths
  import opened CallStore
  import opened CallSteps
  import opened CallRuns

  // ----- folds over one call -----

  function DeliverAll(d: Dossier, ms: seq<Message>): Dossier
    decreases |ms|
  {
    if ms == [] then d else Deliver(DeliverAll(d, ms[..|ms| - 1]), ms[|ms| - 1])
  }

  /** No report in a direct delivery of all of them hits the saturation branch. */
  predicate NoOverruns(d: Dossier, ms: seq<Message>)
    decreases |ms|
  {
    ms == [] || (NoOverruns(d, ms[..|ms| - 1]) && !Overrun(DeliverAll(d, ms[..|ms| - 1]), ms[|ms| - 1]))
  }

  lemma {:induction false} DeliverAllConcat(d: Dossier, a: seq<Message>, b: seq<Message>)
    ensures DeliverAll(d, a + b) == DeliverAll(DeliverAll(d, a), b)
    ensures NoOverruns(d, a + b) ==> NoOverruns(d, a)
    decreases |b|
  {
    hide Deliver, Overrun;
    if b == [] {
      assert a + b == a;
    } else {
      var last := |b| - 1;
      assert (a + b)[..|a + b| - 1] == a + b[..last];
      DeliverAllConcat(d, a, b[..last]);
    }
  }

  lemma {:induction false} DeliverAllBooks(d: Dossier, ms: seq<Message>)
    requires Bounded(d.call)
    ensures Bounded(DeliverAll(d, ms).call)
    ensures if NoOverruns(d, ms) then Gap(DeliverAll(d, ms)) == Gap(d) else Gap(DeliverAll(d, ms)) > Gap(d)
    decreases |ms|
  {
    hide Deliver, Overrun;
    if ms != [] {
      DeliverAllBooks(d, ms[..|ms| - 1]);
      DeliverKeeps(DeliverAll(d, ms[..|ms| - 1]), ms[|ms| - 1]);
    }
  }

  /** Delivering every report is replaying every report, exactly when none overruns. */
  lemma {:induction false} DeliverAllIsReplayAll(d: Dossier, ms: seq<Message>)
    requires Bounded(d.call)
    ensures Alike(DeliverAll(d, ms), ReplayAll(d, ms)) <==> NoOverruns(d, ms)
    decreases |ms|
  {
    hide Deliver, Replay, Overrun;
    if NoOverruns(d, ms) {
      if ms != [] {
        DeliverAllIsReplayAll(d, ms[..|ms| - 1]);
        DeliverAllBooks(d, ms[..|ms| - 1]);
        DeliverIsReplay(DeliverAll(d, ms[..|ms| - 1]), ReplayAll(d, ms[..|ms| - 1]), ms[|ms| - 1]);
      }
    } else {
      DeliverAllBooks(d, ms);
      ReplayAllKeeps(d, ms);
    }
  }

  lemma DeliverIsBlindToLabels(a: Dossier, b: Dossier, m: Message)
    requires Alike(a, b)
    ensures Alike(Deliver(a, m), Deliver(b, m))
  {
  }

  lemma {:induction false} DeliverAllIsBlindToLabels(a: Dossier, b: Dossier, ms: seq<Message>)
    requires Alike(a, b)
    ensures Alike(DeliverAll(a, ms), DeliverAll(b, ms))
    decreases |ms|
  {
    hide Deliver, Alike;
    if ms != [] {
      DeliverAllIsBlindToLabels(a, b, ms[..|ms| - 1]);
      DeliverIsBlindToLabels(DeliverAll(a, ms[..|ms| - 1]), DeliverAll(b, ms[..|ms| - 1]), ms[|ms| - 1]);
    }
  }

  // ----- the reports of one provider call -----

  /** A report that names the provider call p and nothing else. */
  predicate About(report: Report, p: string) {
    report.callId.None? && report.providerCallId == Some(p)
  }

  predicate AllAbout(reports: seq<Report>, p: string) {
    forall i :: 0 <= i < |reports| ==> About(reports[i], p)
  }

  predicate ArriveInOrder(reports: seq<Report>) {
    forall i, j :: 0 <= i < j < |reports| ==> reports[i].at <= reports[j].at
  }

  /** Everything buffered for the provider call was received by the given time. */
  predicate BufferedBy(buffer: seq<Buffered>, provider: CallProvider, p: string, at: nat) {
    forall b :: b in buffer && b.provider == provider && b.providerCallId == p ==> b.receivedAt <= at
  }

  predicate IsFor(report: Report, provider: CallProvider) {
    report.provider == provider && Trim(report.eventId) != ""
  }

  /** The reports that concern a call of this provider, as messages. */
  function Relevant(reports: seq<Report>, provider: CallProvider): seq<Message>
    decreases |reports|
  {
    if reports == [] then []
    else
      var r := reports[|reports| - 1];
      Relevant(reports[..|reports| - 1], provider) + (if IsFor(r, provider) then [AsMessage(r)] else [])
  }

  lemma {:induction false} RelevantConcat(a: seq<Report>, b: seq<Report>, provider: CallProvider)
    ensures Relevant(a + b, provider) == Relevant(a, provider) + Relevant(b, provider)
    decreases |b|
  {
    if b == [] {
      assert a + b == a;
    } else {
      var last := |b| - 1;
      assert (a + b)[..|a + b| - 1] == a + b[..last];
      RelevantConcat(a, b[..last], provider);
    }
  }

  ghost function ReceiveAll(db: Database, reports: seq<Report>): (r: Database)
    requires Valid(db)
    ensures Valid(r)
    decreases |reports|
  {
    if reports == [] then db
    else
      var before := ReceiveAll(db, reports[..|reports| - 1]);
      ApplyValid(before, reports[|reports| - 1]);
      ApplyState(before, reports[|reports| - 1]).0
  }

  // ----- while the provider call is unknown -----

  predicate Unlinked(db: Database, p: string) {
    p != "" && Trimmed(p) && p !in db.byProviderCall
  }

  lemma UnlinkedReportIsBuffered(db: Database, report: Report, p: string)
    requires Valid(db) && Unlinked(db, p) && About(report, p)
    ensures ApplyState(db, report).0 ==
            if Trim(report.eventId) == "" then db
            else db.(unmatched := Buffer(db.unmatched, AsBuffered(report)))
  {
    hide Buffer, Trim;
  }

  /** A row received after all others is replayed last. */
  lemma LatestIsLast(s: seq<Buffered>, b: Buffered)
    requires forall x :: x in s ==> x.receivedAt <= b.receivedAt
    ensures SortByTime(s + [b]) == SortByTime(s) + [b]
  {
    assert (s + [b])[..|s|] == s;
    var sorted := SortByTime(s);
    if sorted != [] {
      assert sorted[|sorted| - 1] in multiset(sorted);
      assert sorted[|sorted| - 1] in s;
    }
  }

  lemma KnownIdIsPending(buffer: seq<Buffered>, i: nat)
    requires i < |buffer|
    ensures exists m :: m in PendingIn(buffer, buffer[i].provider, buffer[i].providerCallId) && m.eventId == buffer[i].eventId
  {
    var b := buffer[i];
    var matching := Matching(buffer, b.provider, b.providerCallId);
    MatchingIsFilter(buffer, b.provider, b.providerCallId, b);
    var sorted := SortByTime(matching);
    assert b in multiset(matching) && b in multiset(sorted);
    var j :| 0 <= j < |sorted| && sorted[j] == b;
    assert Messages(sorted)[j].eventId == b.eventId;
  }

  lemma NewRowIsPendingLast(buffer: seq<Buffered>, b: Buffered)
    requires BufferedBy(buffer, b.provider, b.providerCallId, b.receivedAt)
    ensures PendingIn(buffer + [b], b.provider, b.providerCallId)
            == PendingIn(buffer, b.provider, b.providerCallId) + [ToMessage(b)]
  {
    hide SortByTime;
    var matching := Matching(buffer, b.provider, b.providerCallId);
    assert (buffer + [b])[..|buffer|] == buffer;
    forall x | x in matching
      ensures x.receivedAt <= b.receivedAt
    {
      MatchingIsFilter(buffer, b.provider, b.providerCallId, x);
    }
    LatestIsLast(matching, b);
    assert Messages(SortByTime(matching) + [b]) == Messages(SortByTime(matching)) + [ToMessage(b)];
  }

  /** Buffering one more report has the effect on a later replay of appending it. */
  lemma BufferAppends(d: Dossier, buffer: seq<Buffered>, report: Report, provider: CallProvider, p: string)
    requires Bounded(d.call) && About(report, p)
    requires report.provider == provider && BufferedBy(buffer, provider, p, report.at)
    ensures ReplayAll(d, PendingIn(Buffer(buffer, AsBuffered(report)), provider, p))
            == Replay(ReplayAll(d, PendingIn(buffer, provider, p)), AsMessage(report))
  {
    hide Replay, PendingIn, Trim, BufferedBy;
    var b := AsBuffered(report);
    var pending := PendingIn(buffer, provider, p);
    if InBuffer(buffer, b) {
      var i :| 0 <= i < |buffer| && SameKey(buffer[i], b);
      KnownIdIsPending(buffer, i);
      ReplayAllKeeps(d, pending);
      ReplayOfKnown(ReplayAll(d, pending), AsMessage(report));
    } else {
      NewRowIsPendingLast(buffer, b);
      assert (pending + [ToMessage(b)])[..|pending|] == pending;
    }
  }

  lemma ReplayOfKnown(d: Dossier, m: Message)
    requires m.eventId in d.events
    ensures Replay(d, m) == d
  {
  }

  /** One report about an unknown provider call. */
  lemma BufferingOne(db: Database, r: Report, provider: CallProvider, p: string, d: Dossier)
    requires Valid(db) && Unlinked(db, p) && Bounded(d.call) && About(r, p)
    requires BufferedBy(db.unmatched, provider, p, r.at)
    ensures var db' := ApplyState(db, r).0;
            && db' == db.(unmatched := db'.unmatched)
            && BufferedBy(db'.unmatched, provider, p, r.at)
            && ReplayAll(d, PendingIn(db'.unmatched, provider, p)) ==
               var before := ReplayAll(d, PendingIn(db.unmatched, provider, p));
               if IsFor(r, provider) then Replay(before, AsMessage(r)) else before
  {
    hide ApplyState, Replay, ReplayAll, PendingIn, Trim, DistinctKeys, Indexed;
    UnlinkedReportIsBuffered(db, r, p);
    if Trim(r.eventId) != "" {
      if r.provider == provider {
        BufferAppends(d, db.unmatched, r, provider, p);
      } else {
        OtherProviderIsNotPending(db.unmatched, AsBuffered(r), provider, p);
      }
    }
  }

  /** Receiving reports about an unknown provider call only fills the buffer. */
  lemma {:induction false} BufferingAll(db: Database, reports: seq<Report>, provider: CallProvider, p: string, d: Dossier)
    requires Valid(db) && Unlinked(db, p) && Bounded(d.call)
    requires AllAbout(reports, p) && ArriveInOrder(reports)
    requires reports != [] ==> BufferedBy(db.unmatched, provider, p, reports[0].at)
    ensures var db' := ReceiveAll(db, reports);
            && db' == db.(unmatched := db'.unmatched)
            && (reports != [] ==> BufferedBy(db'.unmatched, provider, p, reports[|reports| - 1].at))
            && ReplayAll(d, PendingIn(db'.unmatched, provider, p))
               == ReplayAll(ReplayAll(d, PendingIn(db.unmatched, provider, p)), Relevant(reports, provider))
    decreases |reports|
  {
    hide ApplyState, Replay, PendingIn, Trim, DistinctKeys, Indexed;
    if reports != [] {
      var front, r := reports[..|reports| - 1], reports[|reports| - 1];
      BufferingAll(db, front, provider, p, d);
      var before := ReceiveAll(db, front);
      assert BufferedBy(before.unmatched, provider, p, r.at);
      BufferingOne(before, r, provider, p, d);
      assert front + [r] == reports;
      RelevantSnoc(front, r, provider);
      ReplayAllSnoc(ReplayAll(d, PendingIn(db.unmatched, provider, p)), Relevant(front, provider), AsMessage(r));
    }
  }

  lemma RelevantSnoc(front: seq<Report>, r: Report, provider: CallProvider)
    ensures Relevant(front + [r], provider) ==
            if IsFor(r, provider) then Relevant(front, provider) + [AsMessage(r)] else Relevant(front, provider)
  {
    assert (front + [r])[..|front|] == front;
    assert Relevant(front, provider) + [] == Relevant(front, provider);
  }

  lemma OtherProviderIsNotPending(buffer: seq<Buffered>, b: Buffered, provider: CallProvider, p: string)
    requires b.provider != provider
    ensures PendingIn(Buffer(buffer, b), provider, p) == PendingIn(buffer, provider, p)
  {
    hide SortByTime;
    assert (buffer + [b])[..|buffer|] == buffer;
    assert Matching(buffer, provider, p) + [] == Matching(buffer, provider, p);
  }

  // ----- once the provider call is linked -----

  lemma LinkedReportIsDelivered(db: Database, report: Report, c: CallId, p: string)
    requires Valid(db) && c in db.calls && db.calls[c].providerCallId == Some(p) && About(report, p)
    ensures var db' := ApplyState(db, report).0;
            && c in db'.calls && c in db'.log && c in db'.events
            && File(db', c) ==
               (if IsFor(report, db.calls[c].provider) then Deliver(File(db, c), AsMessage(report)) else File(db, c))
            && db'.calls[c].providerCallId == Some(p) && db'.calls[c].provider == db.calls[c].provider
  {
    hide Deliver, DeliveryOutcome, Trim, DistinctKeys, VersionsBounded, KeysPointToCalls;
    assert db.byProviderCall[p] == c;
    BoundedOf(db, c);
    DeliverKeeps(File(db, c), AsMessage(report));
  }

  lemma BoundedOf(db: Database, c: CallId)
    requires Valid(db) && c in db.calls
    ensures Bounded(db.calls[c])
  {
  }

  lemma {:induction false} DeliveringAll(db: Database, reports: seq<Report>, c: CallId, p: string)
    requires Valid(db) && c in db.calls && db.calls[c].providerCallId == Some(p) && AllAbout(reports, p)
    ensures var db' := ReceiveAll(db, reports);
            && c in db'.calls
            && File(db', c) == DeliverAll(File(db, c), Relevant(reports, db.calls[c].provider))
            && db'.calls[c].providerCallId == Some(p) && db'.calls[c].provider == db.calls[c].provider
    decreases |reports|
  {
    hide ApplyState, Deliver, Trim, Indexed, DistinctKeys, KeysPointToCalls, VersionsBounded, DeliverAll, Relevant;
    if reports == [] {
      NothingRelevant(File(db, c), db.calls[c].provider);
    } else {
      var front, r := reports[..|reports| - 1], reports[|reports| - 1];
      DeliveringAll(db, front, c, p);
      var before := ReceiveAll(db, front);
      LinkedReportIsDelivered(before, r, c, p);
      RelevantSnoc(front, r, db.calls[c].provider);
      assert front + [r] == reports;
      DeliverAllSnoc(File(db, c), Relevant(front, db.calls[c].provider), AsMessage(r));
    }
  }

  lemma DeliverAllSnoc(d: Dossier, ms: seq<Message>, m: Message)
    ensures DeliverAll(d, ms + [m]) == Deliver(DeliverAll(d, ms), m)
  {
    assert (ms + [m])[..|ms|] == ms;
  }

  lemma LinkReplays(db: Database, c: CallId, p: string)
    requires Valid(db) && c in db.calls && db.calls[c].providerCallId.None? && Unlinked(db, p)
    ensures var db' := LinkProviderCall(db, c, p).0;
            var d := File(db, c).(call := db.calls[c].(providerCallId := Some(p)));
            && Valid(db') && c in db'.calls
            && File(db', c) == ReplayAll(d, Pending(db, db.calls[c].provider, p))
            && db'.calls[c].providerCallId == Some(p) && db'.calls[c].provider == db.calls[c].provider
  {
    hide ReplayAll, SortByTime, Matching, Others, Indexed, DistinctKeys, KeysPointToCalls;
    TrimFixpoint(p);
    LinkValid(db, c, p);
    var d := File(db, c).(call := db.calls[c].(providerCallId := Some(p)));
    ReplayAllKeeps(d, Pending(db, db.calls[c].provider, p));
  }

  // ----- the two together -----

  /** Receives the first k reports, links the call, receives the rest. */
  ghost function LinkedAfter(db: Database, c: CallId, p: string, reports: seq<Report>, k: nat): (r: Database)
    requires Valid(db) && k <= |reports|
    ensures Valid(r)
  {
    var early := ReceiveAll(db, reports[..k]);
    LinkValid(early, c, p);
    ReceiveAll(LinkProviderCall(early, c, p).0, reports[k..])
  }

  /** The call at the moment it is linked to p, its earlier backlog replayed. */
  ghost function AtLink(db: Database, c: CallId, p: string): Dossier
    requires Valid(db) && c in db.calls
  {
    var d := File(db, c).(call := db.calls[c].(providerCallId := Some(p)));
    ReplayAll(d, Pending(db, db.calls[c].provider, p))
  }

  /** What the theorem is about: a call still to be linked, and reports about its provider call in arrival order. */
  ghost predicate Setting(db: Database, c: CallId, p: string, reports: seq<Report>) {
    && Valid(db)
    && c in db.calls && db.calls[c].providerCallId.None?
    && Unlinked(db, p)
    && AllAbout(reports, p)
    && ArriveInOrder(reports)
    && (reports != [] ==> BufferedBy(db.unmatched, db.calls[c].provider, p, reports[0].at))
  }

  lemma {:induction false} FileAfterLink(db: Database, c: CallId, p: string, reports: seq<Report>, k: nat)
    requires Setting(db, c, p, reports) && k <= |reports|
    ensures var provider := db.calls[c].provider;
            && c in LinkedAfter(db, c, p, reports, k).calls
            && File(LinkedAfter(db, c, p, reports, k), c)
               == DeliverAll(ReplayAll(AtLink(db, c, p), Relevant(reports[..k], provider)), Relevant(reports[k..], provider))
  {
    hide ReplayAll, DeliverAll, Relevant, LinkProviderCall, PendingIn, Indexed, DistinctKeys, KeysPointToCalls;
    var provider := db.calls[c].provider;
    var d := File(db, c).(call := db.calls[c].(providerCallId := Some(p)));
    BufferingAll(db, reports[..k], provider, p, d);
    var early := ReceiveAll(db, reports[..k]);
    assert File(early, c) == File(db, c);
    LinkReplays(early, c, p);
    DeliveringAll(LinkProviderCall(early, c, p).0, reports[k..], c, p);
  }

  // ----- an overrun is never made good -----

  /** The state in which log row n was, or would be, added. */
  function StateAt(d: Dossier, n: nat): CallState {
    if n < |d.log| then d.log[n].from else d.call.state
  }

  /** The two logs part at some row, or would at the next. */
  ghost predicate Parted(a: Dossier, b: Dossier) {
    exists n :: 0 <= n <= |a.log| && n <= |b.log| && StateAt(a, n) != StateAt(b, n)
  }

  lemma PartedIsNotAlike(a: Dossier, b: Dossier)
    requires Parted(a, b)
    ensures !Alike(a, b)
  {
  }

  lemma WalkStartsHere(call: Call, plan: Word, sequence: Option<U64>, at: nat)
    requires |plan| <= 7
    ensures var w := Walk(call, plan, sequence, 0, at);
            w.rows != [] ==> w.rows[0].from == call.state
  {
  }

  /** Neither way of handling a report changes where a row was, or would be, added. */
  lemma StateAtStays(d: Dossier, m: Message, n: nat)
    requires n <= |d.log|
    ensures n <= |Deliver(d, m).log| && StateAt(Deliver(d, m), n) == StateAt(d, n)
    ensures n <= |Replay(d, m).log| && StateAt(Replay(d, m), n) == StateAt(d, n)
  {
    hide Walk, Search;
    var plan := Moves(d.call.state, m.target);
    if m.eventId !in d.events && plan.Some? {
      WalkStartsHere(d.call, plan.value, m.sequence, m.at);
    }
  }

  lemma StepsKeepParted(a: Dossier, b: Dossier, m: Message)
    requires Parted(a, b)
    ensures Parted(Deliver(a, m), Deliver(b, m)) && Parted(Replay(a, m), Deliver(b, m))
  {
    hide Deliver, Replay, StateAt;
    var n :| 0 <= n <= |a.log| && n <= |b.log| && StateAt(a, n) != StateAt(b, n);
    StateAtStays(a, m, n);
    StateAtStays(b, m, n);
  }

  lemma {:induction false} DeliverAllKeepsParted(a: Dossier, b: Dossier, ms: seq<Message>)
    requires Parted(a, b)
    ensures Parted(DeliverAll(a, ms), DeliverAll(b, ms))
    decreases |ms|
  {
    if ms != [] {
      hide Deliver, Parted;
      DeliverAllKeepsParted(a, b, ms[..|ms| - 1]);
      StepsKeepParted(DeliverAll(a, ms[..|ms| - 1]), DeliverAll(b, ms[..|ms| - 1]), ms[|ms| - 1]);
    }
  }

  /** An overrun logs the same rows as a replay, but leaves the call where it was. */
  lemma OverrunParts(a: Dossier, b: Dossier, m: Message)
    requires Alike(a, b) && Bounded(a.call) && Overrun(b, m)
    ensures Parted(Replay(a, m), Deliver(b, m))
  {
    hide Walk, Search;
    var plan := Moves(b.call.state, m.target).value;
    var w := Walk(b.call, plan, m.sequence, 0, m.at);
    WholeOrNothing(b, m);
    WalkClimbs(b.call, plan, m.sequence, 0, m.at);
    assert StateAt(Replay(a, m), |b.log + w.rows|) == w.call.state;
    assert StateAt(Deliver(b, m), |b.log + w.rows|) == b.call.state;
  }

  lemma {:induction false} WalkClimbs(call: Call, plan: Word, sequence: Option<U64>, index: U64, at: nat)
    requires index + |plan| <= U64_MAX
    ensures var w := Walk(call, plan, sequence, index, at);
            w.call.state.Rank() >= call.state.Rank() + |w.rows|
    decreases |plan|
  {
    if plan != [] {
      match Advance(call, plan[0], StepSequence(sequence, index), at)
      case Err(_) =>
      case Ok(next) => WalkClimbs(next, plan[1..], sequence, index + 1, at);
    }
  }

  lemma {:induction false} OverrunsPart(d: Dossier, ms: seq<Message>)
    requires Bounded(d.call) && !NoOverruns(d, ms)
    ensures Parted(ReplayAll(d, ms), DeliverAll(d, ms))
    decreases |ms|
  {
    hide Deliver, Replay, Overrun, Parted, Alike;
    var front, m := ms[..|ms| - 1], ms[|ms| - 1];
    if NoOverruns(d, front) {
      DeliverAllIsReplayAll(d, front);
      AlikeIsSymmetric(DeliverAll(d, front), ReplayAll(d, front));
      ReplayAllKeeps(d, front);
      OverrunParts(ReplayAll(d, front), DeliverAll(d, front), m);
    } else {
      OverrunsPart(d, front);
      StepsKeepParted(ReplayAll(d, front), DeliverAll(d, front), m);
    }
  }

  /** Replaying the first part and delivering the rest is like delivering everything, exactly when the first part has no overrun. */
  lemma SplitIsInvisible(d: Dossier, early: seq<Message>, late: seq<Message>)
    requires Bounded(d.call)
    ensures Alike(DeliverAll(ReplayAll(d, early), late), DeliverAll(d, early + late)) <==> NoOverruns(d, early)
  {
    hide ReplayAll, DeliverAll, NoOverruns, Alike, Parted;
    DeliverAllConcat(d, early, late);
    if NoOverruns(d, early) {
      DeliverAllIsReplayAll(d, early);
      AlikeIsSymmetric(DeliverAll(d, early), ReplayAll(d, early));
      DeliverAllIsBlindToLabels(ReplayAll(d, early), DeliverAll(d, early), late);
    } else {
      OverrunsPart(d, early);
      DeliverAllKeepsParted(ReplayAll(d, early), DeliverAll(d, early), late);
      PartedIsNotAlike(DeliverAll(ReplayAll(d, early), late), DeliverAll(d, early + late));
    }
  }

  /**
   However many of the reports arrive before the call is linked, the call row,
   its log and its recorded events come out as if it had been linked first,
   exactly when none of those early reports runs past the last u64 sequence
   number. What the reports after the link do does not matter.
   */
  lemma LinkPointIsInvisible(db: Database, c: CallId, p: string, reports: seq<Report>, k: nat)
    requires Setting(db, c, p, reports) && k <= |reports|
    ensures c in LinkedAfter(db, c, p, reports, k).calls && c in LinkedAfter(db, c, p, reports, 0).calls
    ensures Alike(File(LinkedAfter(db, c, p, reports, k), c), File(LinkedAfter(db, c, p, reports, 0), c))
            <==> NoOverruns(AtLink(db, c, p), Relevant(reports[..k], db.calls[c].provider))
  {
    hide ReplayAll, DeliverAll, NoOverruns, Relevant, LinkedAfter, PendingIn, AtLink, Alike, Setting, Valid, File, Bounded;
    SettingHasCall(db, c, p, reports);
    var provider, d := db.calls[c].provider, AtLink(db, c, p);
    FileAfterLink(db, c, p, reports, k);
    FileAfterLink(db, c, p, reports, 0);
    AtLinkIsBounded(db, c, p);
    RelevantConcat(reports[..k], reports[k..], provider);
    assert reports[..k] + reports[k..] == reports && reports[0..] == reports && reports[..0] == [];
    NothingRelevant(d, provider);
    SplitIsInvisible(d, Relevant(reports[..k], provider), Relevant(reports[k..], provider));
  }

  lemma SettingHasCall(db: Database, c: CallId, p: string, reports: seq<Report>)
    requires Setting(db, c, p, reports)
    ensures Valid(db) && c in db.calls
  {
  }

  lemma AlikeIsSymmetric(a: Dossier, b: Dossier)
    ensures Alike(a, b) <==> Alike(b, a)
  {
  }

  lemma NothingRelevant(d: Dossier, provider: CallProvider)
    ensures ReplayAll(d, Relevant([], provider)) == d
    ensures DeliverAll(d, Relevant([], provider)) == d
  {
  }

  lemma AtLinkIsBounded(db: Database, c: CallId, p: string)
    requires Valid(db) && c in db.calls
    ensures Bounded(AtLink(db, c, p).call)
  {
    var d := File(db, c).(call := db.calls[c].(providerCallId := Some(p)));
    ReplayAllKeeps(d, Pending(db, db.calls[c].provider, p));
  }

  /**
   Buffering every report and then linking equals linking and then delivering
   every report, exactly when none of the deliveries overruns.
   */
  lemma LateLinkIsInvisible(db: Database, c: CallId, p: string, reports: seq<Report>)
    requires Setting(db, c, p, reports)
    ensures c in LinkedAfter(db, c, p, reports, |reports|).calls && c in LinkedAfter(db, c, p, reports, 0).calls
    ensures Alike(File(LinkedAfter(db, c, p, reports, 0), c), File(LinkedAfter(db, c, p, reports, |reports|), c))
            <==> NoOverruns(AtLink(db, c, p), Relevant(reports, db.calls[c].provider))
  {
    hide NoOverruns, Relevant, LinkedAfter, AtLink, Alike, Setting, File, Indexed, DistinctKeys, KeysPointToCalls, VersionsBounded;
    SettingHasCall(db, c, p, reports);
    LinkPointIsInvisible(db, c, p, reports, |reports|);
    assert reports[..|reports|] == reports;
    AlikeIsSymmetric(File(LinkedAfter(db, c, p, reports, 0), c), File(LinkedAfter(db, c, p, reports, |reports|), c));
  }

  /** Sequence numbers at least six below the last u64 never overrun: no plan is longer. */
  lemma {:induction false} SmallSequencesNeverOverrun(d: Dossier, ms: seq<Message>)
    requires forall i :: 0 <= i < |ms| && ms[i].sequence.Some? ==> ms[i].sequence.value <= U64_MAX - 6
    ensures NoOverruns(d, ms)
    decreases |ms|
  {
    hide Deliver;
    if ms != [] {
      SmallSequencesNeverOverrun(d, ms[..|ms| - 1]);
    }
  }
}
