/**
 Provider-neutral call lifecycle: the transition table, and the session object
 that applies one transition at a time.
 */
module CallDomain {
  import opened Prelude
  import opened Text

  const U64_MAX: nat := 0xFFFF_FFFF_FFFF_FFFF

  type U64 = n: int | 0 <= n <= U64_MAX

  function SaturatingAdd(a: U64, b: U64): (r: U64)
    ensures r == a + b || (r == U64_MAX && a + b > U64_MAX)
  {
    if a + b <= U64_MAX then a + b else U64_MAX
  }

  datatype CallProvider = Native | Twilio | Vapi | WhatsApp | Teams

  datatype CallDirection = Inbound | Outbound

  datatype CallTransport = Browser | Pstn | WhatsAppText | WhatsAppVoice | TeamsMeeting

  datatype CallState =
    | Requested | Validating | Initiating | Ringing | Connecting | Connected | Active | Completing
    | Completed | Cancelled | Declined | Busy | NoAnswer | Failed | Disconnected | TimedOut
  {
    predicate IsTerminal() {
      || Completed? || Cancelled? || Declined? || Busy?
      || NoAnswer? || Failed? || Disconnected? || TimedOut?
    }

    /** Height of the state in the lifecycle, which has no cycles. */
    function Rank(): (r: nat)
      ensures r <= 7
    {
      match this
      case Requested => 0
      case Validating => 1
      case Initiating => 2
      case Ringing => 3
      case Connecting => 3
      case Connected => 4
      case Active => 5
      case Completing => 6
      case _ => 7
    }
  }

  datatype CallTransition =
    | Validated | Initiate | Ringing | Connect | Activate | BeginCompletion | Complete
    | Cancel | Decline | Busy | NoAnswer | Fail | Disconnect | Timeout

  datatype CallError =
    | TerminalState(state: CallState)
    | StaleEvent(last: U64, received: U64)
    | IllegalTransition(from: CallState, transition: CallTransition)
    | ProviderCallConflict
    | EmptyProviderCallId

  function Transition(state: CallState, event: CallTransition): (r: Result<CallState, CallError>)
    ensures r.Ok? ==> !state.IsTerminal() && r.value.Rank() > state.Rank()
    ensures r.Err? ==> r.error == IllegalTransition(state, event)
  {
    match state
    case Requested => (
      match event
      case Validated => Ok(Validating)
      case Cancel => Ok(Cancelled)
      case Fail => Ok(Failed)
      case _ => Err(IllegalTransition(state, event))
    )
    case Validating => (
      match event
      case Initiate => Ok(Initiating)
      case Cancel => Ok(Cancelled)
      case Fail => Ok(Failed)
      case _ => Err(IllegalTransition(state, event))
    )
    case Initiating => (
      match event
      case Ringing => Ok(CallState.Ringing)
      case Connect => Ok(Connected)
      case Cancel => Ok(Cancelled)
      case Decline => Ok(Declined)
      case Busy => Ok(CallState.Busy)
      case NoAnswer => Ok(CallState.NoAnswer)
      case Timeout => Ok(TimedOut)
      case Fail => Ok(Failed)
      case _ => Err(IllegalTransition(state, event))
    )
    case Ringing => (
      match event
      case Connect => Ok(Connected)
      case Cancel => Ok(Cancelled)
      case Decline => Ok(Declined)
      case Busy => Ok(CallState.Busy)
      case NoAnswer => Ok(CallState.NoAnswer)
      case Timeout => Ok(TimedOut)
      case Fail => Ok(Failed)
      case _ => Err(IllegalTransition(state, event))
    )
    case Connecting => (
      match event
      case Connect => Ok(Connected)
      case Cancel => Ok(Cancelled)
      case Timeout => Ok(TimedOut)
      case Fail => Ok(Failed)
      case _ => Err(IllegalTransition(state, event))
    )
    case Connected => (
      match event
      case Activate => Ok(Active)
      case BeginCompletion => Ok(Completing)
      case Cancel => Ok(Cancelled)
      case Disconnect => Ok(Disconnected)
      case Timeout => Ok(TimedOut)
      case Fail => Ok(Failed)
      case _ => Err(IllegalTransition(state, event))
    )
    case Active => (
      match event
      case BeginCompletion => Ok(Completing)
      case Cancel => Ok(Cancelled)
      case Disconnect => Ok(Disconnected)
      case Timeout => Ok(TimedOut)
      case Fail => Ok(Failed)
      case _ => Err(IllegalTransition(state, event))
    )
    case Completing => (
      match event
      case Complete => Ok(Completed)
      case Disconnect => Ok(Disconnected)
      case Timeout => Ok(TimedOut)
      case Fail => Ok(Failed)
      case _ => Err(IllegalTransition(state, event))
    )
    case _ => Err(IllegalTransition(state, event))
  }

  // ----- the same table read by columns -----

  /** The one state an event leads to, wherever it is legal. */
  function Goal(event: CallTransition): CallState {
    match event
    case Validated => Validating
    case Initiate => Initiating
    case Ringing => CallState.Ringing
    case Connect => Connected
    case Activate => Active
    case BeginCompletion => Completing
    case Complete => Completed
    case Cancel => Cancelled
    case Decline => Declined
    case Busy => CallState.Busy
    case NoAnswer => CallState.NoAnswer
    case Fail => Failed
    case Disconnect => Disconnected
    case Timeout => TimedOut
  }

  /** The stretch of the lifecycle in which an event is legal. */
  predicate LegalIn(event: CallTransition, state: CallState) {
    match event
    case Validated => state == Requested
    case Initiate => state == Validating
    case Ringing => state == Initiating
    case Connect => state.Rank() == 2 || state.Rank() == 3
    case Activate => state == Connected
    case BeginCompletion => state == Connected || state == Active
    case Complete => state == Completing
    case Cancel => state.Rank() < 6
    case Decline => state == Initiating || state == CallState.Ringing
    case Busy => state == Initiating || state == CallState.Ringing
    case NoAnswer => state == Initiating || state == CallState.Ringing
    case Fail => !state.IsTerminal()
    case Disconnect => 4 <= state.Rank() < 7
    case Timeout => 2 <= state.Rank() < 7
  }

  /** Every event has one goal, and is legal exactly in its stretch: the goal of a failure is Failed, of a busy line Busy. */
  lemma TransitionByEvent(state: CallState, event: CallTransition)
    ensures Transition(state, event)
         == if LegalIn(event, state) then Ok(Goal(event)) else Err(IllegalTransition(state, event))
  {
    match state {
      case Requested => case Validating => case Initiating => case Ringing => case Connecting => case Connected =>
      case Active => case Completing => case _ =>
    }
  }

  /** One row of the calls table, keyed elsewhere by the call id. */
  datatype Call = Call(
    interviewId: Option<nat>,
    provider: CallProvider,
    providerCallId: Option<string>,
    direction: CallDirection,
    transport: CallTransport,
    state: CallState,
    version: U64,
    lastSequence: Option<U64>,
    createdAt: nat,
    updatedAt: nat,
    endedAt: Option<nat>,
    terminalTransition: Option<CallTransition>)

  function NewCall(interviewId: Option<nat>, provider: CallProvider, direction: CallDirection,
                   transport: CallTransport, at: nat): Call
  {
    Call(interviewId, provider, None, direction, transport, Requested, 0, None, at, at, None, None)
  }

  /** True when the sequence number, if both sides have one, is not beyond the last one applied. */
  predicate Stale(last: Option<U64>, received: Option<U64>) {
    last.Some? && received.Some? && received.value <= last.value
  }

  /** The row after one transition, or the reason it is refused. */
  function Advance(call: Call, event: CallTransition, sequence: Option<U64>, at: nat): Result<Call, CallError> {
    if call.state.IsTerminal() then Err(TerminalState(call.state))
    else if Stale(call.lastSequence, sequence) then Err(StaleEvent(call.lastSequence.value, sequence.value))
    else
      match Transition(call.state, event)
      case Err(e) => Err(e)
      case Ok(next) =>
        Ok(call.(state := next,
                 version := SaturatingAdd(call.version, 1),
                 updatedAt := at,
                 lastSequence := if sequence.Some? then sequence else call.lastSequence,
                 endedAt := if next.IsTerminal() then Some(at) else call.endedAt,
                 terminalTransition := if next.IsTerminal() then Some(event) else call.terminalTransition))
  }

  /** The row after linking a provider's own call id. */
  function Linked(call: Call, providerCallId: string): (r: Result<Call, CallError>)
    ensures r.Ok? ==> r.value.providerCallId == Some(Trim(providerCallId)) && Trim(providerCallId) != ""
  {
    var id := Trim(providerCallId);
    if id == "" then Err(EmptyProviderCallId)
    else if call.providerCallId.Some? && call.providerCallId.value != id then Err(ProviderCallConflict)
    else Ok(call.(providerCallId := Some(id)))
  }

  /** The object a transaction works on between loading a row and storing it. */
  class CallSession {
    const id: nat
    const interviewId: Option<nat>
    const provider: CallProvider
    const direction: CallDirection
    const transport: CallTransport
    const createdAt: nat
    var providerCallId: Option<string>
    var state: CallState
    var version: U64
    var lastSequence: Option<U64>
    var updatedAt: nat
    var endedAt: Option<nat>
    var terminalTransition: Option<CallTransition>

    function Row(): Call
      reads this
    {
      Call(interviewId, provider, providerCallId, direction, transport, state, version, lastSequence,
           createdAt, updatedAt, endedAt, terminalTransition)
    }

    constructor (id: nat, row: Call)
      ensures this.id == id && Row() == row
    {
      this.id := id;
      interviewId, provider, direction := row.interviewId, row.provider, row.direction;
      transport, createdAt := row.transport, row.createdAt;
      providerCallId, state, version := row.providerCallId, row.state, row.version;
      lastSequence, updatedAt := row.lastSequence, row.updatedAt;
      endedAt, terminalTransition := row.endedAt, row.terminalTransition;
    }

    method LinkProviderCall(value: string) returns (r: Result<(), CallError>)
      modifies this
      ensures match Linked(old(Row()), value)
              case Ok(row) => r == Ok(()) && Row() == row
              case Err(e) => r == Err(e) && Row() == old(Row())
    {
      var trimmed := Trim(value);
      if trimmed == "" {
        return Err(EmptyProviderCallId);
      }
      if providerCallId.Some? && providerCallId.value != trimmed {
        return Err(ProviderCallConflict);
      }
      providerCallId := Some(trimmed);
      return Ok(());
    }

    method Apply(event: CallTransition, sequence: Option<U64>, at: nat) returns (r: Result<CallState, CallError>)
      modifies this
      ensures match Advance(old(Row()), event, sequence, at)
              case Ok(row) => r == Ok(row.state) && Row() == row
              case Err(e) => r == Err(e) && Row() == old(Row())
    {
      if state.IsTerminal() {
        return Err(TerminalState(state));
      }
      if lastSequence.Some? && sequence.Some? && sequence.value <= lastSequence.value {
        return Err(StaleEvent(lastSequence.value, sequence.value));
      }
      var next := Transition(state, event);
      if next.Err? {
        return Err(next.error);
      }
      state := next.value;
      version := SaturatingAdd(version, 1);
      updatedAt := at;
      if sequence.Some? {
        lastSequence := sequence;
      }
      if state.IsTerminal() {
        endedAt := Some(at);
        terminalTransition := Some(event);
      }
      return Ok(state);
    }
  }
}
