/**
 The call database as a value, and what each transaction of the call workflow
 does to it. A transaction that fails leaves the database as it was.
 */
module CallStore {
  import opened Prelude
  import opened Text
  import opened CallDomain
  import opened CallPaths

  const MAX_IDEMPOTENCY_KEY_CHARS: nat := 200

  type CallId = nat

  datatype StoreError =
    | Constraint
    | NotFound(id: CallId)
    | Refused(reason: CallError)
    | Conflict
    | ConcurrentModification
    | EmptyEventId
    | MissingLookup
    | ProviderMismatch(expected: CallProvider, found: CallProvider)
    | UnsupportedProvider
    | UnsupportedCapabilities

  datatype LogRow = LogRow(
    from: CallState, to: CallState, transition: CallTransition, sequence: Option<U64>, occurredAt: nat)

  datatype Label = AppliedLabel | IgnoredLabel

  datatype EventRow = EventRow(target: CallState, outcome: Label, receivedAt: nat)

  datatype Buffered = Buffered(
    provider: CallProvider, providerCallId: string, eventId: string,
    target: CallState, sequence: Option<U64>, receivedAt: nat)

  /**
   The tables. `log` and `events` are grouped by the call they cascade from;
   `byProviderCall` and `byKey` are the two unique indexes on the calls table;
   `unmatched` is in rowid order.
   */
  datatype Database = Database(
    calls: map<CallId, Call>,
    byProviderCall: map<string, CallId>,
    byKey: map<string, CallId>,
    log: map<CallId, seq<LogRow>>,
    events: map<CallId, map<string, EventRow>>,
    unmatched: seq<Buffered>)

  const EMPTY := Database(map[], map[], map[], map[], map[], [])

  /** A provider's report about a call, as `apply_state` receives it. */
  datatype Report = Report(
    provider: CallProvider, callId: Option<CallId>, providerCallId: Option<string>,
    eventId: string, target: CallState, sequence: Option<U64>, at: nat)

  datatype ApplyOutcome = Applied(call: Call) | Ignored(call: Call) | Duplicate(call: Call) | Unmatched

  datatype BeginOutcome = Created(call: Call) | Existing(call: Call)

  // ----- one call and the rows that hang off it -----

  datatype Dossier = Dossier(call: Call, log: seq<LogRow>, events: map<string, EventRow>)

  datatype Message = Message(eventId: string, target: CallState, sequence: Option<U64>, at: nat)

  datatype Walked = Walked(call: Call, rows: seq<LogRow>, complete: bool)

  function StepSequence(sequence: Option<U64>, index: U64): Option<U64> {
    match sequence
    case None => None
    case Some(base) => Some(SaturatingAdd(base, index))
  }

  /** Applies a planned word step by step, up to the first refusal. */
  function Walk(call: Call, plan: Word, sequence: Option<U64>, index: U64, at: nat): (w: Walked)
    requires index + |plan| <= U64_MAX
    ensures |w.rows| <= |plan| && (w.complete <==> |w.rows| == |plan|)
    ensures w.rows == [] ==> w.call == call
    decreases |plan|
  {
    if plan == [] then Walked(call, [], true)
    else
      var received := StepSequence(sequence, index);
      match Advance(call, plan[0], received, at)
      case Err(_) => Walked(call, [], false)
      case Ok(next) =>
        var rest := Walk(next, plan[1..], sequence, index + 1, at);
        Walked(rest.call, [LogRow(call.state, next.state, plan[0], received, at)] + rest.rows, rest.complete)
  }

  /** A plan, or None when there is nothing to do: no way to the target, or already there. */
  function Moves(from: CallState, to: CallState): (plan: Option<Word>)
    ensures plan.Some? ==> 0 < |plan.value| <= 7
  {
    match Plan(from, to)
    case None => None
    case Some(word) =>
      PlanIsShortest(from, to);
      WordIsBounded(from, word);
      if word == [] then None else Some(word)
  }

  /** Delivery of a report to a known call by `apply_state`. */
  function Deliver(d: Dossier, m: Message): Dossier {
    if m.eventId in d.events then d
    else
      match Moves(d.call.state, m.target)
      case None => d.(events := d.events[m.eventId := EventRow(m.target, IgnoredLabel, m.at)])
      case Some(plan) =>
        var w := Walk(d.call, plan, m.sequence, 0, m.at);
        if w.complete then
          Dossier(w.call, d.log + w.rows, d.events[m.eventId := EventRow(m.target, AppliedLabel, m.at)])
        else
          // the rows of the steps already taken are committed, the call row is not
          Dossier(d.call, d.log + w.rows, d.events[m.eventId := EventRow(m.target, IgnoredLabel, m.at)])
  }

  /** Replay of a buffered report by `replay_unmatched`. */
  function Replay(d: Dossier, m: Message): Dossier {
    if m.eventId in d.events then d
    else
      match Moves(d.call.state, m.target)
      case None => d.(events := d.events[m.eventId := EventRow(m.target, IgnoredLabel, m.at)])
      case Some(plan) =>
        var w := Walk(d.call, plan, m.sequence, 0, m.at);
        Dossier(w.call, d.log + w.rows, d.events[m.eventId := EventRow(m.target, AppliedLabel, m.at)])
  }

  function ReplayAll(d: Dossier, ms: seq<Message>): Dossier {
    if ms == [] then d else Replay(ReplayAll(d, ms[..|ms| - 1]), ms[|ms| - 1])
  }

  /** What `apply_state` reports back about a delivery. */
  function DeliveryOutcome(d: Dossier, m: Message): ApplyOutcome {
    if m.eventId in d.events then Duplicate(d.call)
    else
      match Moves(d.call.state, m.target)
      case None => Ignored(d.call)
      case Some(plan) =>
        var w := Walk(d.call, plan, m.sequence, 0, m.at);
        if w.complete then Applied(w.call) else Ignored(w.call)
  }

  // ----- the unmatched buffer -----

  function Matching(buffer: seq<Buffered>, provider: CallProvider, pid: string): seq<Buffered> {
    if buffer == [] then []
    else
      var b := buffer[|buffer| - 1];
      Matching(buffer[..|buffer| - 1], provider, pid)
      + (if b.provider == provider && b.providerCallId == pid then [b] else [])
  }

  function Others(buffer: seq<Buffered>, provider: CallProvider, pid: string): seq<Buffered> {
    if buffer == [] then []
    else
      var b := buffer[|buffer| - 1];
      Others(buffer[..|buffer| - 1], provider, pid)
      + (if b.provider == provider && b.providerCallId == pid then [] else [b])
  }

  predicate InTimeOrder(s: seq<Buffered>) {
    forall i, j :: 0 <= i < j < |s| ==> s[i].receivedAt <= s[j].receivedAt
  }

  /** Places a row after every row received no later than it. */
  function PlaceByTime(sorted: seq<Buffered>, b: Buffered): (r: seq<Buffered>)
    ensures multiset(r) == multiset(sorted) + multiset{b}
    decreases |sorted|
  {
    if sorted == [] then [b]
    else
      var last := |sorted| - 1;
      assert sorted == sorted[..last] + [sorted[last]];
      if sorted[last].receivedAt <= b.receivedAt then sorted + [b]
      else PlaceByTime(sorted[..last], b) + [sorted[last]]
  }

  /** ORDER BY received_at_ms ASC, rowid ASC. */
  function SortByTime(s: seq<Buffered>): (r: seq<Buffered>)
    ensures multiset(r) == multiset(s)
    decreases |s|
  {
    if s == [] then []
    else
      assert s == s[..|s| - 1] + [s[|s| - 1]];
      PlaceByTime(SortByTime(s[..|s| - 1]), s[|s| - 1])
  }

  lemma {:induction false} PlaceKeepsTimeOrder(sorted: seq<Buffered>, b: Buffered)
    requires InTimeOrder(sorted)
    ensures InTimeOrder(PlaceByTime(sorted, b))
    decreases |sorted|
  {
    if sorted != [] && sorted[|sorted| - 1].receivedAt > b.receivedAt {
      var last := |sorted| - 1;
      var r := PlaceByTime(sorted[..last], b);
      PlaceKeepsTimeOrder(sorted[..last], b);
      forall i | 0 <= i < |r|
        ensures r[i].receivedAt <= sorted[last].receivedAt
      {
        assert r[i] in multiset(r);
        assert r[i] in sorted[..last] || r[i] == b;
      }
    }
  }

  lemma {:induction false} SortsByTime(s: seq<Buffered>)
    ensures InTimeOrder(SortByTime(s))
    decreases |s|
  {
    if s != [] {
      SortsByTime(s[..|s| - 1]);
      PlaceKeepsTimeOrder(SortByTime(s[..|s| - 1]), s[|s| - 1]);
    }
  }

  /** The rows received at one moment, in order. */
  function ReceivedAt(s: seq<Buffered>, at: nat): seq<Buffered> {
    if s == [] then []
    else
      var last := |s| - 1;
      ReceivedAt(s[..last], at) + (if s[last].receivedAt == at then [s[last]] else [])
  }

  lemma ReceivedAtGrows(s: seq<Buffered>, b: Buffered, at: nat)
    ensures ReceivedAt(s + [b], at) == ReceivedAt(s, at) + (if b.receivedAt == at then [b] else [])
  {
    assert (s + [b])[..|s|] == s;
  }

  lemma {:induction false} PlaceIsStable(sorted: seq<Buffered>, b: Buffered, at: nat)
    requires InTimeOrder(sorted)
    ensures ReceivedAt(PlaceByTime(sorted, b), at) == ReceivedAt(sorted, at) + (if b.receivedAt == at then [b] else [])
    decreases |sorted|
  {
    hide ReceivedAt;
    if sorted == [] || sorted[|sorted| - 1].receivedAt <= b.receivedAt {
      ReceivedAtGrows(sorted, b, at);
      assert PlaceByTime(sorted, b) == sorted + [b];
    } else {
      var front, last := sorted[..|sorted| - 1], sorted[|sorted| - 1];
      PlaceIsStable(front, b, at);
      ReceivedAtGrows(PlaceByTime(front, b), last, at);
      ReceivedAtGrows(front, last, at);
      assert sorted == front + [last];
    }
  }

  /** Rows of one arrival time are replayed in row order. */
  lemma {:induction false} SortIsStable(s: seq<Buffered>, at: nat)
    ensures ReceivedAt(SortByTime(s), at) == ReceivedAt(s, at)
    decreases |s|
  {
    if s != [] {
      SortIsStable(s[..|s| - 1], at);
      SortsByTime(s[..|s| - 1]);
      PlaceIsStable(SortByTime(s[..|s| - 1]), s[|s| - 1], at);
    }
  }

  function ToMessage(b: Buffered): Message {
    Message(b.eventId, b.target, b.sequence, b.receivedAt)
  }

  function Messages(s: seq<Buffered>): (r: seq<Message>)
    ensures |r| == |s| && forall i :: 0 <= i < |s| ==> r[i] == ToMessage(s[i])
  {
    seq(|s|, i requires 0 <= i < |s| => ToMessage(s[i]))
  }

  /** The buffered reports of one provider call, in replay order. */
  function PendingIn(buffer: seq<Buffered>, provider: CallProvider, pid: string): seq<Message> {
    Messages(SortByTime(Matching(buffer, provider, pid)))
  }

  function Pending(db: Database, provider: CallProvider, pid: string): seq<Message> {
    PendingIn(db.unmatched, provider, pid)
  }

  predicate SameKey(a: Buffered, b: Buffered) {
    a.provider == b.provider && a.providerCallId == b.providerCallId && a.eventId == b.eventId
  }

  /** INSERT OR IGNORE under the buffer's primary key. */
  function Buffer(buffer: seq<Buffered>, b: Buffered): seq<Buffered> {
    if exists i :: 0 <= i < |buffer| && SameKey(buffer[i], b) then buffer else buffer + [b]
  }

  // ----- well-formed databases -----

  /** The unique index on provider call ids holds exactly the linked rows. */
  ghost predicate Indexed(calls: map<CallId, Call>, index: map<string, CallId>) {
    && (forall p :: p in index ==> index[p] in calls && calls[index[p]].providerCallId == Some(p))
    && (forall c :: c in calls && calls[c].providerCallId.Some? ==>
      && calls[c].providerCallId.value in index
      && index[calls[c].providerCallId.value] == c
      && calls[c].providerCallId.value != ""
      && Trimmed(calls[c].providerCallId.value))
  }

  ghost predicate DistinctKeys(buffer: seq<Buffered>) {
    forall i, j :: 0 <= i < j < |buffer| ==> !SameKey(buffer[i], buffer[j])
  }

  ghost predicate KeysPointToCalls(calls: map<CallId, Call>, byKey: map<string, CallId>) {
    forall k :: k in byKey ==> byKey[k] in calls
  }

  ghost predicate VersionsBounded(calls: map<CallId, Call>) {
    forall c :: c in calls ==> calls[c].version <= calls[c].state.Rank()
  }

  /** The primary keys, foreign keys and unique indexes that the schema enforces, and the reach of each row. */
  ghost predicate Valid(db: Database) {
    && db.log.Keys == db.calls.Keys
    && db.events.Keys == db.calls.Keys
    && Indexed(db.calls, db.byProviderCall)
    && KeysPointToCalls(db.calls, db.byKey)
    && DistinctKeys(db.unmatched)
    && VersionsBounded(db.calls)
  }

  function File(db: Database, c: CallId): Dossier
    requires c in db.calls && c in db.log && c in db.events
  {
    Dossier(db.calls[c], db.log[c], db.events[c])
  }

  function Refile(db: Database, c: CallId, d: Dossier): Database {
    db.(calls := db.calls[c := d.call], log := db.log[c := d.log], events := db.events[c := d.events])
  }

  // ----- the transactions -----

  function CleanKey(key: Option<string>): Option<string> {
    match key
    case None => None
    case Some(raw) =>
      var k := Trim(raw);
      if k == "" then None
      else Some(if |k| <= MAX_IDEMPOTENCY_KEY_CHARS then k else k[..MAX_IDEMPOTENCY_KEY_CHARS])
  }

  const OUTBOUND_OPENING: Word := [Validated, Initiate]
  const INBOUND_OPENING: Word := [Validated, Initiate, Connect, Activate]

  function Insert(db: Database, id: CallId, w: Walked, key: Option<string>): (r: Database)
    ensures id in r.log
  {
    db.(calls := db.calls[id := w.call],
        log := db.log[id := w.rows],
        events := db.events[id := map[]],
        byProviderCall := if w.call.providerCallId.Some? then db.byProviderCall[w.call.providerCallId.value := id]
                          else db.byProviderCall,
        byKey := if key.Some? then db.byKey[key.value := id] else db.byKey)
  }

  /**
   `begin_call_outcome`. `refusal` is the verdict of the provider registry and
   `id` the freshly generated call id.
   */
  function BeginCall(db: Database, id: CallId, refusal: Option<StoreError>, provider: CallProvider,
                     interviewId: Option<nat>, direction: CallDirection, transport: CallTransport,
                     idempotencyKey: Option<string>, at: nat): (Database, Result<BeginOutcome, StoreError>)
    requires Valid(db)
  {
    var key := CleanKey(idempotencyKey);
    if refusal.Some? then (db, Err(refusal.value))
    else if key.Some? && key.value in db.byKey then
      var existing := db.calls[db.byKey[key.value]];
      if existing.provider != provider || existing.interviewId != interviewId then (db, Err(Conflict))
      else (db, Ok(Existing(existing)))
    else if id in db.calls then (db, Err(Constraint))
    else
      var w := Walk(NewCall(interviewId, provider, direction, transport, at), OUTBOUND_OPENING, Some(1), 0, at);
      (Insert(db, id, w, key), Ok(Created(w.call)))
  }

  function RegisterInbound(db: Database, id: CallId, refusal: Option<StoreError>, provider: CallProvider,
                           transport: CallTransport, providerCallId: string, interviewId: Option<nat>,
                           at: nat): (Database, Result<Call, StoreError>)
    requires Valid(db)
  {
    var pid := Trim(providerCallId);
    if pid == "" then (db, Err(Refused(EmptyProviderCallId)))
    else if refusal.Some? then (db, Err(refusal.value))
    else if pid in db.byProviderCall then (db, Ok(db.calls[db.byProviderCall[pid]]))
    else if id in db.calls then (db, Err(Constraint))
    else
      var w := Walk(NewCall(interviewId, provider, Inbound, transport, at), INBOUND_OPENING, Some(1), 0, at);
      var w' := w.(call := w.call.(providerCallId := Some(pid)));
      (Insert(db, id, w', None), Ok(w'.call))
  }

  /** Stores a provider call id on a row, under the unique index. */
  function Attach(db: Database, c: CallId, providerCallId: string): Result<Database, StoreError>
    requires Valid(db) && c in db.calls
  {
    match Linked(db.calls[c], providerCallId)
    case Err(e) => Err(Refused(e))
    case Ok(row) =>
      var pid := row.providerCallId.value;
      if pid in db.byProviderCall && db.byProviderCall[pid] != c then Err(Constraint)
      else Ok(db.(calls := db.calls[c := row], byProviderCall := db.byProviderCall[pid := c]))
  }

  function LinkProviderCall(db: Database, c: CallId, providerCallId: string): (Database, Result<Call, StoreError>)
    requires Valid(db)
  {
    if c !in db.calls then (db, Err(NotFound(c)))
    else if providerCallId in db.byProviderCall && db.byProviderCall[providerCallId] != c then (db, Err(Conflict))
    else
      match Attach(db, c, providerCallId)
      case Err(e) => (db, Err(e))
      case Ok(db') =>
        var provider, pid := db'.calls[c].provider, db'.calls[c].providerCallId.value;
        var d := ReplayAll(File(db', c), Pending(db', provider, pid));
        (Refile(db', c, d).(unmatched := Others(db'.unmatched, provider, pid)), Ok(d.call))
  }

  predicate Given(pid: Option<string>) {
    pid.Some? && pid.value != ""
  }

  /** `load_call`: by call id first, then by provider call id. */
  function Lookup(db: Database, callId: Option<CallId>, pid: Option<string>): (r: Result<Option<CallId>, StoreError>)
    requires Valid(db)
    ensures r.Ok? && r.value.Some? ==> r.value.value in db.calls
  {
    if callId.Some? && callId.value in db.calls then Ok(callId)
    else if Given(pid) then
      Ok(if pid.value in db.byProviderCall then Some(db.byProviderCall[pid.value]) else None)
    else if callId.Some? then Ok(None)
    else Err(MissingLookup)
  }

  /** The checks between finding the call and delivering the report to it. */
  function Admit(db: Database, c: CallId, report: Report): Result<Database, StoreError>
    requires Valid(db) && c in db.calls
  {
    var call := db.calls[c];
    if call.provider != report.provider then Err(ProviderMismatch(report.provider, call.provider))
    else if !Given(report.providerCallId) then Ok(db)
    else if call.providerCallId.None? then Attach(db, c, report.providerCallId.value)
    else if call.providerCallId != report.providerCallId then Err(Conflict)
    else Ok(db)
  }

  function AsMessage(report: Report): Message {
    Message(Trim(report.eventId), report.target, report.sequence, report.at)
  }

  function AsBuffered(report: Report): Buffered
    requires report.providerCallId.Some?
  {
    Buffered(report.provider, report.providerCallId.value, Trim(report.eventId), report.target, report.sequence, report.at)
  }

  function ApplyState(db: Database, report: Report): (Database, Result<ApplyOutcome, StoreError>)
    requires Valid(db)
  {
    var m := AsMessage(report);
    if m.eventId == "" then (db, Err(EmptyEventId))
    else
      match Lookup(db, report.callId, report.providerCallId)
      case Err(e) => (db, Err(e))
      case Ok(None) =>
        if Given(report.providerCallId) then
          (db.(unmatched := Buffer(db.unmatched, AsBuffered(report))), Ok(Unmatched))
        else (db, Err(NotFound(report.callId.value)))
      case Ok(Some(c)) =>
        match Admit(db, c, report)
        case Err(e) => (db, Err(e))
        case Ok(db') => (Refile(db', c, Deliver(File(db', c), m)), Ok(DeliveryOutcome(File(db', c), m)))
  }

  predicate EndedBefore(call: Call, cutoff: nat) {
    call.endedAt.Some? && call.endedAt.value < cutoff
  }

  /** Deletes ended calls; their log and event rows cascade, their index entries go. */
  function PurgeTerminal(db: Database, cutoff: nat): Database
    requires Valid(db)
  {
    var gone := set c | c in db.calls && EndedBefore(db.calls[c], cutoff);
    db.(calls := db.calls - gone,
        log := db.log - gone,
        events := db.events - gone,
        byProviderCall := map p | p in db.byProviderCall && db.byProviderCall[p] !in gone :: db.byProviderCall[p],
        byKey := map k | k in db.byKey && db.byKey[k] !in gone :: db.byKey[k])
  }

  function ReceivedSince(buffer: seq<Buffered>, cutoff: nat): seq<Buffered> {
    if buffer == [] then []
    else
      var b := buffer[|buffer| - 1];
      ReceivedSince(buffer[..|buffer| - 1], cutoff) + (if b.receivedAt < cutoff then [] else [b])
  }

  function PurgeUnmatched(db: Database, cutoff: nat): Database {
    db.(unmatched := ReceivedSince(db.unmatched, cutoff))
  }

  // ----- runs -----

  datatype Op =
    | Begin(id: CallId, refusal: Option<StoreError>, provider: CallProvider, interviewId: Option<nat>,
            direction: CallDirection, transport: CallTransport, key: Option<string>, at: nat)
    | Register(id: CallId, refusal: Option<StoreError>, provider: CallProvider, transport: CallTransport,
               pid: string, interviewId: Option<nat>, at: nat)
    | Link(c: CallId, pid: string)
    | Receive(report: Report)
    | PurgeCalls(cutoff: nat)
    | PurgeBuffer(cutoff: nat)

  function Step(db: Database, op: Op): Database
    requires Valid(db)
  {
    match op
    case Begin(id, refusal, provider, interviewId, direction, transport, key, at) =>
      BeginCall(db, id, refusal, provider, interviewId, direction, transport, key, at).0
    case Register(id, refusal, provider, transport, pid, interviewId, at) =>
      RegisterInbound(db, id, refusal, provider, transport, pid, interviewId, at).0
    case Link(c, pid) => LinkProviderCall(db, c, pid).0
    case Receive(report) => ApplyState(db, report).0
    case PurgeCalls(cutoff) => PurgeTerminal(db, cutoff)
    case PurgeBuffer(cutoff) => PurgeUnmatched(db, cutoff)
  }
}
