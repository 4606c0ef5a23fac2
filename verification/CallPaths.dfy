/**
 The planner that turns a provider's target state into the shortest word of
 transitions reaching it: a breadth-first search over the lifecycle graph.
 */
module CallPaths {
  import opened Prelude
  import opened CallDomain

  type Word = seq<CallTransition>

  const TRANSITIONS: seq<CallTransition> :=
    [Validated, Initiate, CallTransition.Ringing, Connect, Activate, BeginCompletion, Complete,
     Cancel, Decline, CallTransition.Busy, CallTransition.NoAnswer, Fail, Disconnect, Timeout]

  /** Position of a transition in the order the search tries them. */
  function Ord(e: CallTransition): (k: nat)
    ensures k < |TRANSITIONS| && TRANSITIONS[k] == e
  {
    match e
    case Validated => 0 case Initiate => 1 case Ringing => 2 case Connect => 3 case Activate => 4
    case BeginCompletion => 5 case Complete => 6 case Cancel => 7 case Decline => 8 case Busy => 9
    case NoAnswer => 10 case Fail => 11 case Disconnect => 12 case Timeout => 13
  }

  /** The state a word leads to, if every step of it is legal. */
  function Follow(from: CallState, word: Word): Option<CallState>
    decreases |word|
  {
    if word == [] then Some(from)
    else
      match Transition(from, word[0])
      case Err(_) => None
      case Ok(next) => Follow(next, word[1..])
  }

  ghost predicate Reaches(from: CallState, word: Word, to: CallState) {
    Follow(from, word) == Some(to)
  }

  /** No word of any length joining the two states is shorter than this one. */
  ghost predicate Shortest(from: CallState, word: Word, to: CallState) {
    Reaches(from, word, to) && forall u :: Reaches(from, u, to) ==> |word| <= |u|
  }

  lemma {:induction false} FollowConcat(from: CallState, u: Word, v: Word)
    ensures Follow(from, u + v) ==
            match Follow(from, u) case None => None case Some(mid) => Follow(mid, v)
    decreases |u|
  {
    if u == [] {
      assert u + v == v;
    } else {
      assert (u + v)[0] == u[0] && (u + v)[1..] == u[1..] + v;
      match Transition(from, u[0])
      case Err(_) =>
      case Ok(next) => FollowConcat(next, u[1..], v);
    }
  }

  lemma FollowSnoc(from: CallState, u: Word, e: CallTransition)
    ensures Follow(from, u + [e]) ==
            match Follow(from, u)
            case None => None
            case Some(mid) => match Transition(mid, e) case Ok(next) => Some(next) case Err(_) => None
  {
    FollowConcat(from, u, [e]);
    match Follow(from, u)
    case None =>
    case Some(mid) =>
      match Transition(mid, e)
      case Err(_) =>
      case Ok(next) => assert Follow(next, [e][1..]) == Some(next);
  }

  // ----- the search -----

  datatype Entry = Entry(state: CallState, word: Word)

  datatype Frontier = Found(word: Word) | Open(queue: seq<Entry>, seen: seq<CallState>)

  const STATES: set<CallState> :=
    {Requested, Validating, Initiating, CallState.Ringing, Connecting, Connected, Active, Completing,
     Completed, Cancelled, Declined, CallState.Busy, CallState.NoAnswer, Failed, Disconnected, TimedOut}

  function Seen(seen: seq<CallState>): set<CallState> {
    set s | s in seen
  }

  /** Bound on the work left: every queued entry, and every state not yet queued. */
  function Work(queue: seq<Entry>, seen: seq<CallState>): nat {
    |STATES - Seen(seen)| + |queue|
  }

  lemma MarkShrinks(seen: seq<CallState>, next: CallState)
    requires next !in seen
    ensures |STATES - Seen(seen + [next])| < |STATES - Seen(seen)|
  {
    assert next in STATES;
    assert STATES - Seen(seen + [next]) == (STATES - Seen(seen)) - {next};
  }

  /** The inner loop: tries the transitions from number k on out of one dequeued entry. */
  function Expand(entry: Entry, k: nat, to: CallState, queue: seq<Entry>, seen: seq<CallState>): (r: Frontier)
    requires k <= |TRANSITIONS|
    ensures r.Open? ==> Work(r.queue, r.seen) <= Work(queue, seen)
    decreases |TRANSITIONS| - k
  {
    if k == |TRANSITIONS| then Open(queue, seen)
    else
      match Transition(entry.state, TRANSITIONS[k])
      case Err(_) => Expand(entry, k + 1, to, queue, seen)
      case Ok(next) =>
        if next in seen then Expand(entry, k + 1, to, queue, seen)
        else
          var word := entry.word + [TRANSITIONS[k]];
          MarkShrinks(seen, next);
          if next == to then Found(word)
          else if next.IsTerminal() then Expand(entry, k + 1, to, queue, seen + [next])
          else Expand(entry, k + 1, to, queue + [Entry(next, word)], seen + [next])
  }

  /** The outer loop. */
  function Search(queue: seq<Entry>, seen: seq<CallState>, to: CallState): Option<Word>
    decreases Work(queue, seen)
  {
    if queue == [] then None
    else
      match Expand(queue[0], 0, to, queue[1..], seen)
      case Found(word) => Some(word)
      case Open(queue', seen') => Search(queue', seen', to)
  }

  function Plan(from: CallState, to: CallState): Option<Word> {
    if from == to then Some([])
    else if from.IsTerminal() then None
    else Search([Entry(from, [])], [from], to)
  }

  // ----- correctness of the search -----

  ghost predicate Queued(queue: seq<Entry>, s: CallState) {
    exists i :: 0 <= i < |queue| && queue[i].state == s
  }

  /** What one entry promises: its word is a shortest way to a state that still has moves. */
  ghost predicate Sound(from: CallState, e: Entry, seen: seq<CallState>) {
    e.state in seen && Shortest(from, e.word, e.state)
  }

  ghost predicate AllSound(from: CallState, queue: seq<Entry>, seen: seq<CallState>) {
    forall i :: 0 <= i < |queue| ==> Sound(from, queue[i], seen)
  }

  /** Queued words are in order of length, and at most one step longer than n. */
  ghost predicate InOrder(n: nat, queue: seq<Entry>) {
    && (forall i :: 0 <= i < |queue| ==> n <= |queue[i].word| <= n + 1)
    && (forall i, j :: 0 <= i < j < |queue| ==> |queue[i].word| <= |queue[j].word|)
  }

  /** Every move out of a seen state leads to a seen state or is still to be tried. */
  ghost predicate Closed(cur: Entry, k: nat, queue: seq<Entry>, seen: seq<CallState>) {
    forall s, e {:trigger Transition(s, e)} :: s in seen && Transition(s, e).Ok? ==>
      || Transition(s, e).value in seen
      || Queued(queue, s)
      || (s == cur.state && k <= Ord(e))
  }

  /**
   The state of the search in the middle of the inner loop: `cur` has been
   dequeued and its transitions below k are done.
   */
  ghost predicate Inv(from: CallState, to: CallState, cur: Entry, k: nat, queue: seq<Entry>, seen: seq<CallState>) {
    && from in seen
    && to !in seen
    && Sound(from, cur, seen)
    && AllSound(from, queue, seen)
    && InOrder(|cur.word|, queue)
    && Closed(cur, k, queue, seen)
  }

  /** Any word that escapes the seen states is longer than the word being expanded. */
  lemma {:induction false} EscapeIsLonger(
    from: CallState, to: CallState, cur: Entry, k: nat, queue: seq<Entry>, seen: seq<CallState>,
    u: Word, t: CallState)
    requires Inv(from, to, cur, k, queue, seen)
    requires Reaches(from, u, t) && t !in seen
    ensures |u| >= |cur.word| + 1
    decreases |u|
  {
    assert u != [];
    var v, e := u[..|u| - 1], u[|u| - 1];
    assert u == v + [e];
    FollowSnoc(from, v, e);
    var q := Follow(from, v).value;
    assert Reaches(from, v, q);
    if q !in seen {
      EscapeIsLonger(from, to, cur, k, queue, seen, v, q);
    } else if Queued(queue, q) {
      var i :| 0 <= i < |queue| && queue[i].state == q;
      assert Sound(from, queue[i], seen);
    } else {
      assert Transition(q, e).value == t;
    }
  }

  /** When nothing is queued and the current entry is done, no word reaches an unseen state. */
  lemma {:induction false} NoEscape(
    from: CallState, to: CallState, cur: Entry, seen: seq<CallState>, u: Word, t: CallState)
    requires Inv(from, to, cur, |TRANSITIONS|, [], seen)
    requires Reaches(from, u, t)
    ensures t in seen
    decreases |u|
  {
    if u != [] {
      var v, e := u[..|u| - 1], u[|u| - 1];
      assert u == v + [e];
      FollowSnoc(from, v, e);
      var q := Follow(from, v).value;
      NoEscape(from, to, cur, seen, v, q);
      assert Transition(q, e).value == t;
    }
  }

  ghost predicate Answers(from: CallState, to: CallState, r: Option<Word>) {
    match r
    case Some(word) => Shortest(from, word, to)
    case None => forall u :: !Reaches(from, u, to)
  }

  /** A newly seen state is recorded with a shortest word. */
  lemma DiscoveryIsShortest(
    from: CallState, to: CallState, cur: Entry, k: nat, queue: seq<Entry>, seen: seq<CallState>)
    requires k < |TRANSITIONS| && Inv(from, to, cur, k, queue, seen)
    requires Transition(cur.state, TRANSITIONS[k]).Ok?
    requires Transition(cur.state, TRANSITIONS[k]).value !in seen
    ensures Shortest(from, cur.word + [TRANSITIONS[k]], Transition(cur.state, TRANSITIONS[k]).value)
  {
    var next := Transition(cur.state, TRANSITIONS[k]).value;
    FollowSnoc(from, cur.word, TRANSITIONS[k]);
    forall u | Reaches(from, u, next)
      ensures |cur.word + [TRANSITIONS[k]]| <= |u|
    {
      EscapeIsLonger(from, to, cur, k, queue, seen, u, next);
    }
  }

  lemma OrdAt(k: nat)
    requires k < |TRANSITIONS|
    ensures Ord(TRANSITIONS[k]) == k
  {
  }

  lemma StepSkip(
    from: CallState, to: CallState, cur: Entry, k: nat, queue: seq<Entry>, seen: seq<CallState>)
    requires k < |TRANSITIONS| && Inv(from, to, cur, k, queue, seen)
    requires Transition(cur.state, TRANSITIONS[k]).Ok? ==> Transition(cur.state, TRANSITIONS[k]).value in seen
    ensures Inv(from, to, cur, k + 1, queue, seen)
  {
    OrdAt(k);
    forall s, e | s in seen && Transition(s, e).Ok?
      ensures Transition(s, e).value in seen || Queued(queue, s) || (s == cur.state && k + 1 <= Ord(e))
    {
      if s == cur.state && Ord(e) == k {
        assert TRANSITIONS[k] == e;
      }
    }
  }

  /** Marking a state keeps every open move accounted for. */
  lemma MarkKeepsClosed(
    cur: Entry, k: nat, queue: seq<Entry>, seen: seq<CallState>, next: CallState, queue': seq<Entry>)
    requires k < |TRANSITIONS| && Closed(cur, k, queue, seen)
    requires Transition(cur.state, TRANSITIONS[k]) == Ok(next)
    requires queue <= queue'
    requires next.IsTerminal() || Queued(queue', next)
    ensures Closed(cur, k + 1, queue', seen + [next])
  {
    forall s, e | s in seen + [next] && Transition(s, e).Ok?
      ensures Transition(s, e).value in seen + [next] || Queued(queue', s) || (s == cur.state && k + 1 <= Ord(e))
    {
      if s in seen {
        if Queued(queue, s) {
          var i :| 0 <= i < |queue| && queue[i].state == s;
          assert queue'[i].state == s;
        } else if s == cur.state && Ord(e) == k {
          assert TRANSITIONS[k] == e;
        }
      }
    }
  }

  lemma MarkKeepsSound(from: CallState, queue: seq<Entry>, seen: seq<CallState>, entry: Entry)
    requires AllSound(from, queue, seen)
    requires Shortest(from, entry.word, entry.state)
    ensures AllSound(from, queue, seen + [entry.state])
    ensures AllSound(from, queue + [entry], seen + [entry.state])
  {
    forall i | 0 <= i < |queue + [entry]|
      ensures Sound(from, (queue + [entry])[i], seen + [entry.state])
    {
      if i < |queue| {
        assert Sound(from, queue[i], seen);
      }
    }
    forall i | 0 <= i < |queue|
      ensures Sound(from, queue[i], seen + [entry.state])
    {
      assert (queue + [entry])[i] == queue[i];
    }
  }

  lemma MarkKeepsInOrder(n: nat, queue: seq<Entry>, entry: Entry)
    requires InOrder(n, queue) && |entry.word| == n + 1
    ensures InOrder(n, queue + [entry])
  {
  }

  lemma MarkKeepsInv(
    from: CallState, to: CallState, cur: Entry, k: nat, queue: seq<Entry>, seen: seq<CallState>,
    entry: Entry, queue': seq<Entry>)
    requires k < |TRANSITIONS| && Inv(from, to, cur, k, queue, seen)
    requires Transition(cur.state, TRANSITIONS[k]) == Ok(entry.state) && entry.state != to
    requires Shortest(from, entry.word, entry.state) && |entry.word| == |cur.word| + 1
    requires queue' == if entry.state.IsTerminal() then queue else queue + [entry]
    ensures Inv(from, to, cur, k + 1, queue', seen + [entry.state])
  {
    hide Closed, AllSound, InOrder, Sound, Shortest, Transition, Ord, Queued;
    MarkKeepsSound(from, queue, seen, entry);
    MarkKeepsInOrder(|cur.word|, queue, entry);
    QueuedLast(queue, entry);
    MarkKeepsClosed(cur, k, queue, seen, entry.state, queue');
    SeenGrows(from, to, cur, seen, entry.state);
  }

  lemma QueuedLast(queue: seq<Entry>, entry: Entry)
    ensures Queued(queue + [entry], entry.state)
  {
    assert (queue + [entry])[|queue|] == entry;
  }

  lemma SeenGrows(from: CallState, to: CallState, cur: Entry, seen: seq<CallState>, next: CallState)
    requires from in seen && to !in seen && Sound(from, cur, seen) && next != to
    ensures from in seen + [next] && to !in seen + [next] && Sound(from, cur, seen + [next])
  {
    hide Shortest;
  }

  lemma StepMark(
    from: CallState, to: CallState, cur: Entry, k: nat, queue: seq<Entry>, seen: seq<CallState>,
    next: CallState, queue': seq<Entry>)
    requires k < |TRANSITIONS| && Inv(from, to, cur, k, queue, seen)
    requires Transition(cur.state, TRANSITIONS[k]) == Ok(next) && next !in seen && next != to
    requires queue' == if next.IsTerminal() then queue else queue + [Entry(next, cur.word + [TRANSITIONS[k]])]
    ensures Inv(from, to, cur, k + 1, queue', seen + [next])
  {
    hide Inv, Shortest, Transition;
    DiscoveryIsShortest(from, to, cur, k, queue, seen);
    MarkKeepsInv(from, to, cur, k, queue, seen, Entry(next, cur.word + [TRANSITIONS[k]]), queue');
  }

  lemma {:induction false} ExpandCorrect(
    from: CallState, to: CallState, cur: Entry, k: nat, queue: seq<Entry>, seen: seq<CallState>)
    requires k <= |TRANSITIONS| && Inv(from, to, cur, k, queue, seen)
    ensures var r := Expand(cur, k, to, queue, seen);
            match r
            case Found(word) => Shortest(from, word, to)
            case Open(queue', seen') => Inv(from, to, cur, |TRANSITIONS|, queue', seen')
    decreases |TRANSITIONS| - k
  {
    hide Work, Inv, Shortest;
    if k < |TRANSITIONS| {
      match Transition(cur.state, TRANSITIONS[k])
      case Err(_) =>
        StepSkip(from, to, cur, k, queue, seen);
        ExpandCorrect(from, to, cur, k + 1, queue, seen);
      case Ok(next) =>
        if next in seen {
          StepSkip(from, to, cur, k, queue, seen);
          ExpandCorrect(from, to, cur, k + 1, queue, seen);
        } else if next == to {
          DiscoveryIsShortest(from, to, cur, k, queue, seen);
        } else {
          var queue' := if next.IsTerminal() then queue else queue + [Entry(next, cur.word + [TRANSITIONS[k]])];
          StepMark(from, to, cur, k, queue, seen, next, queue');
          ExpandCorrect(from, to, cur, k + 1, queue', seen + [next]);
        }
    }
  }

  /** Dequeuing the next entry restores the invariant for the inner loop. */
  lemma Dequeue(from: CallState, to: CallState, cur: Entry, queue: seq<Entry>, seen: seq<CallState>)
    requires Inv(from, to, cur, |TRANSITIONS|, queue, seen) && queue != []
    ensures Inv(from, to, queue[0], 0, queue[1..], seen)
  {
    forall s, e | s in seen && Transition(s, e).Ok?
      ensures Transition(s, e).value in seen || Queued(queue[1..], s) || (s == queue[0].state && 0 <= Ord(e))
    {
      if Queued(queue, s) {
        var i :| 0 <= i < |queue| && queue[i].state == s;
        if i > 0 {
          assert queue[1..][i - 1] == queue[i];
        }
      }
    }
  }

  lemma {:induction false} SearchCorrect(
    from: CallState, to: CallState, queue: seq<Entry>, seen: seq<CallState>)
    requires queue != [] && Inv(from, to, queue[0], 0, queue[1..], seen)
    ensures Answers(from, to, Search(queue, seen, to))
    decreases Work(queue, seen)
  {
    ExpandCorrect(from, to, queue[0], 0, queue[1..], seen);
    match Expand(queue[0], 0, to, queue[1..], seen)
    case Found(word) =>
    case Open(queue', seen') =>
      if queue' == [] {
        forall u | Reaches(from, u, to)
          ensures false
        {
          NoEscape(from, to, queue[0], seen', u, to);
        }
      } else {
        Dequeue(from, to, queue[0], queue', seen');
        SearchCorrect(from, to, queue', seen');
      }
  }

  lemma SearchStarts(from: CallState, to: CallState)
    requires from != to
    ensures Shortest(from, [], from)
    ensures Inv(from, to, Entry(from, []), 0, [], [from])
  {
    assert Reaches(from, [], from);
    assert Sound(from, Entry(from, []), [from]);
  }

  /** The planner returns a shortest word when the target is reachable, and None exactly when no word reaches it. */
  lemma PlanIsShortest(from: CallState, to: CallState)
    ensures match Plan(from, to)
            case Some(word) => Shortest(from, word, to)
            case None => forall u :: !Reaches(from, u, to)
  {
    hide Work, Inv;
    if from == to {
      assert Reaches(from, [], to);
    } else if !from.IsTerminal() {
      SearchStarts(from, to);
      SearchCorrect(from, to, [Entry(from, [])], [from]);
    }
  }

  /** A legal word stops at the first terminal state, so none is passed on the way. */
  lemma {:induction false} NoTerminalOnTheWay(from: CallState, word: Word, i: nat)
    requires Follow(from, word).Some? && i < |word|
    ensures Follow(from, word[..i]).Some? && !Follow(from, word[..i]).value.IsTerminal()
  {
    assert word == word[..i] + word[i..];
    FollowConcat(from, word[..i], word[i..]);
  }

  /** A legal word climbs the lifecycle, so no word has more than seven steps. */
  lemma {:induction false} WordIsBounded(from: CallState, word: Word)
    requires Follow(from, word).Some?
    ensures from.Rank() + |word| <= Follow(from, word).value.Rank() <= 7
    decreases |word|
  {
    if word != [] {
      WordIsBounded(Transition(from, word[0]).value, word[1..]);
    }
  }

  method PathTo(from: CallState, to: CallState) returns (r: Option<Word>)
    ensures r == Plan(from, to)
  {
    if from == to {
      return Some([]);
    }
    if from.IsTerminal() {
      return None;
    }
    var queue := [Entry(from, [])];
    var seen := [from];
    while queue != []
      invariant Plan(from, to) == Search(queue, seen, to)
      decreases Work(queue, seen)
    {
      ghost var queue0, seen0 := queue, seen;
      var entry := queue[0];
      queue := queue[1..];
      for k := 0 to |TRANSITIONS|
        invariant Expand(entry, 0, to, queue0[1..], seen0) == Expand(entry, k, to, queue, seen)
        invariant Work(queue, seen) < Work(queue0, seen0)
      {
        var next := Transition(entry.state, TRANSITIONS[k]);
        if next.Err? || next.value in seen {
          continue;
        }
        MarkShrinks(seen, next.value);
        seen := seen + [next.value];
        var word := entry.word + [TRANSITIONS[k]];
        if next.value == to {
          return Some(word);
        }
        if !next.value.IsTerminal() {
          queue := queue + [Entry(next.value, word)];
        }
      }
    }
    return None;
  }
}
