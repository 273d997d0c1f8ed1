/**
 * The agent as owner of its transcript and its two queues (packages/agent/src/agent.ts:301-1028): the queue calls any
 * other code may make while a run is suspended, claims, give-backs, commits and emitted events.
 *
 * The accounts (`Ledger`) are required and kept at every `await`: `Await` lets the rest of the program make any number
 * of queue calls there. `held` is the batch the loop has claimed and not yet admitted, `from` the queue it came from.
 * What is on record (`Past`) only grows.
 */
module AgentOwner {
  import opened AgentMessages
  import opened AgentQueues
  import opened AgentHistory
  import opened AgentAccounts

  function Messages(entries: seq<Entry>): (messages: seq<Message>)
    ensures |messages| == |entries|
  {
    seq(|entries|, i requires 0 <= i < |entries| => entries[i].message)
  }

  function Other(kind: QueueKind): QueueKind {
    if kind == Steering then FollowUp else Steering
  }

  /** A transcript message that was queued is the message of its entry, and with a port its consumption was committed. */
  ghost predicate Admissions(transcript: seq<Message>, origins: seq<Origin>, committed: set<(QueueKind, nat)>,
                             port: bool)
  {
    && |origins| == |transcript|
    && (forall i :: 0 <= i < |origins| && origins[i].Queued? ==>
          && transcript[i] == origins[i].entry.message
          && (port ==> (origins[i].queue, origins[i].entry.place) in committed))
  }

  lemma AdmissionsGrow(transcript: seq<Message>, origins: seq<Origin>, committed: set<(QueueKind, nat)>, port: bool,
                       message: Message, origin: Origin)
    requires Admissions(transcript, origins, committed, port)
    requires origin.Queued? ==>
      message == origin.entry.message && (port ==> (origin.queue, origin.entry.place) in committed)
    ensures Admissions(transcript + [message], origins + [origin], committed, port)
  {}

  class Agent {
    const steering: PendingMessageQueue
    const followUp: PendingMessageQueue
    /** Whether a `QueuedInputPort` is installed. */
    const hasPort: bool

    var transcript: seq<Message>
    /** The events emitted since the last `agent_start`. */
    var events: seq<AgentEvent>
    var aborted: bool
    var suppressQueuedMessageDrain: bool
    var nextPlace: nat

    // The closure variables of `createLoopConfig`; one run is active at a time.
    var skipInitialSteeringPoll: bool
    var steeringQueueGeneration: nat
    var followUpQueueGeneration: nat

    /** The calls other code made, the queue each place was given out by, and what drove the runs since `BeginRun`. */
    ghost var calls: seq<OutsideCall>
    ghost var home: seq<QueueKind>
    ghost var history: seq<Mark>
    ghost var origins: seq<Origin>
    ghost var committed: set<(QueueKind, nat)>
    ghost var discarded: map<nat, Discard>
    /** The last drain: its queue, the clear generation of that queue, and how many calls there had been. */
    ghost var claimedFrom: QueueKind
    ghost var claimedAt: nat
    ghost var claimSince: nat
    /** An `end` decision was made: no queue may be polled any more. */
    ghost var sealed: bool
    /** A hook replaced the loop's context, or a stream started its message twice. */
    ghost var contextDiverged: bool

    constructor (messages: seq<Message>, steeringMode: QueueMode, followUpMode: QueueMode, port: bool)
      ensures Ledger([], Steering) && transcript == messages && hasPort == port
      ensures nextPlace == 0 && !sealed && !aborted
      ensures fresh(steering) && fresh(followUp)
    {
      steering := new PendingMessageQueue(steeringMode);
      followUp := new PendingMessageQueue(followUpMode);
      hasPort := port;
      transcript := messages;
      events := [];
      aborted := false;
      suppressQueuedMessageDrain := false;
      nextPlace := 0;
      skipInitialSteeringPoll := false;
      steeringQueueGeneration := 0;
      followUpQueueGeneration := 0;
      calls, home, history := [], [], [];
      discarded := map[];
      origins := seq(|messages|, i => Local);
      committed := {};
      claimedFrom, claimedAt, claimSince := Steering, 0, 0;
      sealed, contextDiverged := false, false;
      new;
      hide Books, Homes, Counted, AllExplained, Admitted;
      NothingAdmitted(|messages|, Steering);
      NothingAdmitted(|messages|, FollowUp);
      NothingQueued(discarded);
    }

    static lemma NothingQueued(discarded: map<nat, Discard>)
      requires discarded == map[]
      ensures Books([], [], discarded.Keys, 0) && Homes([], [], [], 0)
      ensures Counted([], 0, 0, 0, 0, Steering) && AllExplained([], [], discarded)
    {}

    static lemma NothingAdmitted(n: nat, queue: QueueKind)
      ensures Admitted(seq(n, i => Local), queue) == []
    {
      if n > 0 {
        NothingAdmitted(n - 1, queue);
        assert seq(n, i => Local)[..n - 1] == seq(n - 1, i => Local);
      }
    }

    function Queue(kind: QueueKind): PendingMessageQueue {
      if kind == Steering then steering else followUp
    }

    function GenerationOf(kind: QueueKind): nat
      reads this`steeringQueueGeneration, this`followUpQueueGeneration
    {
      if kind == Steering then steeringQueueGeneration else followUpQueueGeneration
    }

    /** The part of a queue's line that the queue itself does not hold. */
    ghost function Taken(kind: QueueKind, held: seq<Entry>, from: QueueKind): seq<Entry>
      reads this`origins
    {
      Admitted(origins, kind) + (if from == kind then held else [])
    }

    /** Everything one queue still accounts for, in enqueue order: admitted, then claimed, then queued. */
    ghost function Line(kind: QueueKind, held: seq<Entry>, from: QueueKind): seq<Entry>
      reads this`origins, steering`messages, followUp`messages
    {
      Taken(kind, held, from) + Queue(kind).messages
    }

    /** Where everything is: the books, and the transcript's part in them. */
    ghost predicate Placed(held: seq<Entry>, from: QueueKind)
      reads this`transcript, this`origins, this`discarded, this`nextPlace, this`committed, this`home,
            steering`messages, followUp`messages
    {
      && steering != followUp
      && Books(Line(Steering, held, from), Line(FollowUp, held, from), discarded.Keys, nextPlace)
      && Homes(Line(Steering, held, from), Line(FollowUp, held, from), home, nextPlace)
      && Admissions(transcript, origins, committed, hasPort)
    }

    /** Why: every discard is explained by a call on record, and the generations count the clears among the calls. */
    ghost predicate Justified()
      reads this`calls, this`home, this`discarded, this`claimedFrom, this`claimedAt, this`claimSince,
            steering`clearGeneration, followUp`clearGeneration
    {
      && Counted(calls, steering.clearGeneration, followUp.clearGeneration, claimedAt, claimSince, claimedFrom)
      && AllExplained(calls, home, discarded)
    }

    ghost predicate Ledger(held: seq<Entry>, from: QueueKind)
      reads this`transcript, this`origins, this`discarded, this`nextPlace, this`committed, this`home, this`calls,
            this`claimedFrom, this`claimedAt, this`claimSince,
            steering`messages, followUp`messages, steering`clearGeneration, followUp`clearGeneration
    {
      Placed(held, from) && Justified() && (held != [] ==> from == claimedFrom)
    }

    ghost function Past(): Record
      reads this`calls, this`home, this`history, this`origins, this`committed, this`discarded, this`claimSince,
            this`transcript, this`aborted, this`suppressQueuedMessageDrain
    {
      Record(calls, home, history, transcript, origins, committed, discarded, claimSince, aborted, suppressQueuedMessageDrain)
    }

    /** Something that drives the run goes on record. */
    ghost method Note(mark: Mark)
      requires mark.Requested? ==> mark.transcript == transcript
      modifies this`history
      ensures history == old(history) + [mark] && StageOf(history) == NextStage(StageOf(old(history)), mark)
      ensures Extends(old(Past()), Past())
    {
      hide NextStage;
      HistoryGrows(history, mark);
      history := history + [mark];
    }

    /** An abort and a suppressed drain stay so. */
    lemma FlagsStay(before: Record)
      requires Extends(before, Past())
      ensures before.aborted ==> aborted
      ensures before.suppressed ==> suppressQueuedMessageDrain
    {}

    lemma Flags()
      ensures Past().aborted == aborted && Past().suppressed == suppressQueuedMessageDrain && Past().history == history
      ensures Past().transcript == transcript
    {}

    lemma HistoryStays(before: Record)
      requires Extends(before, Past())
      ensures before.history <= history && before.transcript <= transcript
      ensures forall k :: |before.history| <= k < |history| && history[k].Requested? ==>
        before.transcript <= history[k].transcript
    {}

    ghost predicate AllCommitted(held: seq<Entry>, from: QueueKind)
      reads this`committed
    {
      hasPort ==> forall e :: e in held ==> (from, e.place) in committed
    }

    // -------------------------------------------------------------- calls any other code may make

    /** A call that clears nothing goes on record. */
    ghost method Log(call: OutsideCall, held: seq<Entry>, from: QueueKind)
      requires Ledger(held, from) && !call.CallClear?
      modifies this`calls
      ensures Ledger(held, from) && calls == old(calls) + [call] && Extends(old(Past()), Past())
    {
      hide Books, Homes, Admissions, Counted, AllExplained;
      CallKeepsCounted(calls, steering.clearGeneration, followUp.clearGeneration, claimedAt, claimSince, claimedFrom,
                       call);
      ExplanationsStay(calls, home, discarded, calls + [call], home);
      calls := calls + [call];
    }

    /** An enqueue keeps where everything is, and why. */
    lemma EnqueueKeepsPlaces(kind: QueueKind, line: seq<Entry>, other: seq<Entry>, message: Message)
      requires BooksOf(kind, line, other, discarded.Keys) && AllExplained(calls, home, discarded)
      requires |home| == nextPlace && AtHome(line, home, kind) && AtHome(other, home, Other(kind))
      ensures var line', home' := line + [Entry(nextPlace, message)], home + [kind];
              && AllExplained(calls, home', discarded)
              && AtHome(line', home', kind) && AtHome(other, home', Other(kind))
              && (if kind == Steering then Books(line', other, discarded.Keys, nextPlace + 1)
                  else Books(other, line', discarded.Keys, nextPlace + 1))
    {
      hide Books, AtHome, AllExplained;
      ExplanationsStay(calls, home, discarded, calls, home + [kind]);
      SentHome(line, home, kind, message, kind);
      SentHome(other, home, Other(kind), message, kind);
      if kind == FollowUp {
        BooksAreSymmetric(other, line, discarded.Keys, nextPlace);
      }
      EnqueueKeepsBooks(line, other, discarded.Keys, nextPlace, message);
      if kind == FollowUp {
        BooksAreSymmetric(line + [Entry(nextPlace, message)], other, discarded.Keys, nextPlace + 1);
      }
    }

    method Steer(message: Message, ghost held: seq<Entry>, ghost from: QueueKind)
      requires Ledger(held, from)
      modifies this`nextPlace, this`home, this`calls, steering`messages
      ensures Ledger(held, from) && Extends(old(Past()), Past())
      ensures steering.messages == old(steering.messages) + [Entry(old(nextPlace), message)]
      ensures nextPlace == old(nextPlace) + 1 && home == old(home) + [Steering]
      ensures calls == old(calls) + [CallSteer(message)]
    {
      hide Books, AtHome, Admissions, Counted, AllExplained;
      Log(CallSteer(message), held, from);
      ghost var line := Line(Steering, held, from);
      ghost var other := Line(FollowUp, held, from);
      EnqueueKeepsPlaces(Steering, line, other, message);
      steering.Enqueue(Entry(nextPlace, message));
      assert Line(Steering, held, from) == line + [Entry(nextPlace, message)];
      assert Line(FollowUp, held, from) == other;
      nextPlace, home := nextPlace + 1, home + [Steering];
    }

    method AddFollowUp(message: Message, ghost held: seq<Entry>, ghost from: QueueKind)
      requires Ledger(held, from)
      modifies this`nextPlace, this`home, this`calls, followUp`messages
      ensures Ledger(held, from) && Extends(old(Past()), Past())
      ensures followUp.messages == old(followUp.messages) + [Entry(old(nextPlace), message)]
      ensures nextPlace == old(nextPlace) + 1 && home == old(home) + [FollowUp]
      ensures calls == old(calls) + [CallFollowUp(message)]
    {
      hide Books, AtHome, Admissions, Counted, AllExplained;
      Log(CallFollowUp(message), held, from);
      ghost var line := Line(FollowUp, held, from);
      ghost var other := Line(Steering, held, from);
      EnqueueKeepsPlaces(FollowUp, line, other, message);
      followUp.Enqueue(Entry(nextPlace, message));
      assert Line(FollowUp, held, from) == line + [Entry(nextPlace, message)];
      assert Line(Steering, held, from) == other;
      nextPlace, home := nextPlace + 1, home + [FollowUp];
    }

    /** The books of the line called `kind` come first. */
    ghost predicate BooksOf(kind: QueueKind, line: seq<Entry>, other: seq<Entry>, gone: set<nat>)
      reads this`nextPlace
    {
      if kind == Steering then Books(line, other, gone, nextPlace) else Books(other, line, gone, nextPlace)
    }

    lemma LineIsNotDiscarded(kind: QueueKind, front: seq<Entry>, cut: seq<Entry>, back: seq<Entry>, other: seq<Entry>)
      requires BooksOf(kind, front + cut + back, other, discarded.Keys)
      ensures Places(cut) !! discarded.Keys
    {
      hide Places, InOrder;
      PlacesOfConcat(front + cut, back);
      PlacesOfConcat(front, cut);
    }

    /** One line losing a stretch is balanced by discarding its places; the rest was sent where it was sent. */
    lemma CutKeepsPlaces(kind: QueueKind, front: seq<Entry>, cut: seq<Entry>, back: seq<Entry>, other: seq<Entry>)
      requires BooksOf(kind, front + cut + back, other, discarded.Keys) && AtHome(front + cut + back, home, kind)
      ensures BooksOf(kind, front + back, other, discarded.Keys + Places(cut))
      ensures AtHome(front + back, home, kind) && AtHome(cut, home, kind) && Places(cut) !! discarded.Keys
    {
      hide Books, Places, AtHome;
      LineIsNotDiscarded(kind, front, cut, back, other);
      PartsAreHome(front, cut, back, home, kind);
      if kind == FollowUp {
        BooksAreSymmetric(other, front + cut + back, discarded.Keys, nextPlace);
      }
      CutKeepsBooks(front, cut, back, other, discarded.Keys, nextPlace);
      if kind == FollowUp {
        BooksAreSymmetric(front + back, other, discarded.Keys + Places(cut), nextPlace);
      }
    }

    lemma CutOut(kind: QueueKind, front: seq<Entry>, queued: seq<Entry>, lo: nat, hi: nat, other: seq<Entry>)
      requires lo <= hi <= |queued|
      requires BooksOf(kind, front + queued, other, discarded.Keys) && AtHome(front + queued, home, kind)
      ensures BooksOf(kind, front + (queued[..lo] + queued[hi..]), other, discarded.Keys + Places(queued[lo..hi]))
      ensures AtHome(front + (queued[..lo] + queued[hi..]), home, kind)
      ensures AtHome(queued[lo..hi], home, kind) && Places(queued[lo..hi]) !! discarded.Keys
    {
      hide Books, Places, AtHome;
      var before := front + queued[..lo];
      assert front + queued == before + queued[lo..hi] + queued[hi..];
      assert front + (queued[..lo] + queued[hi..]) == before + queued[hi..];
      CutKeepsPlaces(kind, before, queued[lo..hi], queued[hi..], other);
    }

    lemma CutAll(kind: QueueKind, front: seq<Entry>, queued: seq<Entry>, other: seq<Entry>)
      requires BooksOf(kind, front + queued, other, discarded.Keys) && AtHome(front + queued, home, kind)
      ensures BooksOf(kind, front + [], other, discarded.Keys + Places(queued)) && AtHome(front + [], home, kind)
      ensures AtHome(queued, home, kind) && Places(queued) !! discarded.Keys
    {
      hide Books, Places, AtHome;
      assert queued[0..|queued|] == queued && queued[..0] + queued[|queued|..] == [];
      CutOut(kind, front, queued, 0, |queued|, other);
    }

    /** Discards with their explanations are balanced by what their line lost. */
    ghost method DiscardMore(more: map<nat, Discard>)
      requires Justified() && AllExplained(calls, home, more) && more.Keys !! discarded.Keys
      modifies this`discarded
      ensures Justified() && discarded == old(discarded) + more
      ensures forall p :: p in old(discarded) ==> p in discarded && discarded[p] == old(discarded)[p]
    {
      hide Counted, AllExplained;
      MoreExplained(calls, home, discarded, more);
      discarded := discarded + more;
    }

    method RemoveFrom(kind: QueueKind, message: Message, ghost held: seq<Entry>, ghost from: QueueKind)
      returns (removed: bool)
      requires Ledger(held, from) && calls != [] && calls[|calls| - 1] == CallRemove(message)
      modifies this`discarded, Queue(kind)`messages
      ensures Ledger(held, from)
      ensures removed == Holds(old(Queue(kind).messages), message)
      ensures Queue(kind).messages == Without(old(Queue(kind).messages), message)
      ensures removed ==>
        var e := old(Queue(kind).messages)[IndexOf(old(Queue(kind).messages), message)];
        e.place !in old(discarded) && discarded == old(discarded)[e.place := Removed(e, |calls| - 1)]
      ensures !removed ==> discarded == old(discarded)
    {
      hide Books, InOrder, Places, AtHome, Admissions, Admitted, Justified, Explained;
      ghost var queued := Queue(kind).messages;
      HeldIsFound(queued, message);
      ghost var i := IndexOf(queued, message);
      ghost var other := Line(Other(kind), held, from);
      ghost var front := Taken(kind, held, from);
      removed := Queue(kind).Remove(message);
      if removed {
        CutOut(kind, front, queued, i, i + 1, other);
        PlacesOfOne(queued, i);
        assert queued[i..i + 1] == [queued[i]];
        RemoveExplains(queued[i], kind, calls, home);
        DiscardMore(map[queued[i].place := Removed(queued[i], |calls| - 1)]);
        assert discarded.Keys == old(discarded.Keys) + Places(queued[i..i + 1]);
        assert Line(kind, held, from) == front + (queued[..i] + queued[i + 1..]);
        assert Line(Other(kind), held, from) == other;
      }
    }

    method RemoveQueuedMessage(message: Message, ghost held: seq<Entry>, ghost from: QueueKind) returns (removed: bool)
      requires Ledger(held, from)
      modifies this`discarded, this`calls, steering`messages, followUp`messages
      ensures Ledger(held, from) && Extends(old(Past()), Past())
      ensures calls == old(calls) + [CallRemove(message)]
      ensures removed == (Holds(old(steering.messages), message) || Holds(old(followUp.messages), message))
      ensures steering.messages == Without(old(steering.messages), message)
      ensures followUp.messages == if Holds(old(steering.messages), message) then old(followUp.messages)
                                   else Without(old(followUp.messages), message)
    {
      hide Ledger, Without, IndexOf;
      LedgerSeparates(held, from);
      Log(CallRemove(message), held, from);
      removed := RemoveFrom(Steering, message, held, from);
      if !removed {
        removed := RemoveFrom(FollowUp, message, held, from);
      }
    }

    lemma LedgerSeparates(held: seq<Entry>, from: QueueKind)
      requires Ledger(held, from)
      ensures steering != followUp
    {}

    method ReplaceIn(kind: QueueKind, message: Message, next: Message, ghost held: seq<Entry>, ghost from: QueueKind)
      returns (replaced: bool)
      requires Ledger(held, from)
      modifies Queue(kind)`messages
      ensures Ledger(held, from)
      ensures replaced == Holds(old(Queue(kind).messages), message)
      ensures Queue(kind).messages == Swapped(old(Queue(kind).messages), message, next)
    {
      hide Books, InOrder, Places, AtHome, Admissions, Admitted, Justified, Swapped, Holds;
      ghost var queued := Queue(kind).messages;
      ghost var other := Line(Other(kind), held, from);
      SwappedKeepsPlaces(kind, Taken(kind, held, from), queued, message, next, other);
      replaced := Queue(kind).Replace(message, next);
      assert Line(Other(kind), held, from) == other;
    }

    lemma SwappedKeepsPlaces(kind: QueueKind, front: seq<Entry>, queued: seq<Entry>, message: Message, next: Message,
                             other: seq<Entry>)
      requires BooksOf(kind, front + queued, other, discarded.Keys) && AtHome(front + queued, home, kind)
      ensures BooksOf(kind, front + Swapped(queued, message, next), other, discarded.Keys)
      ensures AtHome(front + Swapped(queued, message, next), home, kind)
    {
      hide Books, AtHome;
      var i := IndexOf(queued, message);
      if i < |queued| {
        SwapInBack(front, queued, i, Entry(queued[i].place, next));
        SwapKeepsPlaces(kind, front + queued, |front| + i, next, other);
      }
    }

    static lemma SwapInBack(front: seq<Entry>, back: seq<Entry>, i: nat, e: Entry)
      requires i < |back|
      ensures front + back[i := e] == (front + back)[|front| + i := e] && (front + back)[|front| + i] == back[i]
    {}

    lemma SwapKeepsPlaces(kind: QueueKind, line: seq<Entry>, k: nat, next: Message, other: seq<Entry>)
      requires k < |line| && BooksOf(kind, line, other, discarded.Keys) && AtHome(line, home, kind)
      ensures BooksOf(kind, line[k := Entry(line[k].place, next)], other, discarded.Keys)
      ensures AtHome(line[k := Entry(line[k].place, next)], home, kind)
    {
      hide Books;
      if kind == FollowUp {
        BooksAreSymmetric(other, line, discarded.Keys, nextPlace);
      }
      ReplaceKeepsBooks(line, k, next, other, discarded.Keys, nextPlace);
      if kind == FollowUp {
        BooksAreSymmetric(line[k := Entry(line[k].place, next)], other, discarded.Keys, nextPlace);
      }
    }

    method ReplaceQueuedMessage(message: Message, next: Message, ghost held: seq<Entry>, ghost from: QueueKind)
      returns (replaced: bool)
      requires Ledger(held, from)
      modifies this`calls, steering`messages, followUp`messages
      ensures Ledger(held, from) && Extends(old(Past()), Past())
      ensures calls == old(calls) + [CallReplace(message, next)]
      ensures replaced == (Holds(old(steering.messages), message) || Holds(old(followUp.messages), message))
      ensures steering.messages == Swapped(old(steering.messages), message, next)
      ensures followUp.messages == if Holds(old(steering.messages), message) then old(followUp.messages)
                                   else Swapped(old(followUp.messages), message, next)
    {
      hide Ledger;
      LedgerSeparates(held, from);
      Log(CallReplace(message, next), held, from);
      replaced := ReplaceIn(Steering, message, next, held, from);
      if !replaced {
        replaced := ReplaceIn(FollowUp, message, next, held, from);
      }
    }

    lemma ClearIsCounted(kind: QueueKind)
      requires Justified()
      ensures Counted(calls + [CallClear(kind)],
                      if kind == Steering then steering.clearGeneration + 1 else steering.clearGeneration,
                      if kind == Steering then followUp.clearGeneration else followUp.clearGeneration + 1,
                      claimedAt, claimSince, claimedFrom)
      ensures AllExplained(calls + [CallClear(kind)], home, discarded)
    {
      hide Counted, AllExplained;
      CallKeepsCounted(calls, steering.clearGeneration, followUp.clearGeneration, claimedAt, claimSince, claimedFrom,
                       CallClear(kind));
      ExplanationsStay(calls, home, discarded, calls + [CallClear(kind)], home);
    }

    method ClearQueue(kind: QueueKind, ghost held: seq<Entry>, ghost from: QueueKind)
      requires Ledger(held, from)
      modifies this`discarded, this`calls, Queue(kind)`messages, Queue(kind)`clearGeneration
      ensures Ledger(held, from) && Extends(old(Past()), Past())
      ensures calls == old(calls) + [CallClear(kind)]
      ensures Queue(kind).messages == [] && Queue(kind).clearGeneration == old(Queue(kind).clearGeneration) + 1
      ensures discarded == old(discarded) + ClearedEntries(old(Queue(kind).messages), kind, |old(calls)|)
    {
      hide Explained, Books, InOrder, Places, AtHome, Admissions, Admitted, Counted, AllExplained, Clears;
      ghost var queued := Queue(kind).messages;
      ghost var front := Taken(kind, held, from);
      ghost var other := Line(Other(kind), held, from);
      ClearIsCounted(kind);
      CutAll(kind, front, queued, other);
      Queue(kind).Clear();
      calls := calls + [CallClear(kind)];
      ClearExplains(queued, kind, calls, home, |calls| - 1);
      DiscardMore(ClearedEntries(queued, kind, |calls| - 1));
      assert Line(Other(kind), held, from) == other;
    }

    method Abort(ghost held: seq<Entry>, ghost from: QueueKind)
      requires Ledger(held, from)
      modifies this`aborted, this`calls
      ensures Ledger(held, from) && Extends(old(Past()), Past()) && aborted && calls == old(calls) + [CallAbort]
    {
      hide Ledger;
      Log(CallAbort, held, from);
      aborted := true;
    }

    method SuppressQueuedMessageDrain(ghost held: seq<Entry>, ghost from: QueueKind)
      requires Ledger(held, from)
      modifies this`suppressQueuedMessageDrain, this`calls
      ensures Ledger(held, from) && Extends(old(Past()), Past()) && suppressQueuedMessageDrain
      ensures calls == old(calls) + [CallSuppressDrain]
    {
      hide Ledger;
      Log(CallSuppressDrain, held, from);
      suppressQueuedMessageDrain := true;
    }

    method Outside(call: OutsideCall, ghost held: seq<Entry>, ghost from: QueueKind)
      requires Ledger(held, from)
      modifies this`nextPlace, this`home, this`calls, this`discarded, this`aborted, this`suppressQueuedMessageDrain,
               steering, followUp
      ensures Ledger(held, from) && Extends(old(Past()), Past())
      ensures calls == old(calls) + [call]
    {
      hide Ledger, Past, Extends;
      match call
      case CallSteer(message) => Steer(message, held, from);
      case CallFollowUp(message) => AddFollowUp(message, held, from);
      case CallRemove(message) => var _ := RemoveQueuedMessage(message, held, from);
      case CallReplace(message, next) => var _ := ReplaceQueuedMessage(message, next, held, from);
      case CallClear(queue) => ClearQueue(queue, held, from);
      case CallSetMode(queue, mode) => Log(call, held, from); Queue(queue).mode := mode;
      case CallAbort => Abort(held, from);
      case CallSuppressDrain => SuppressQueuedMessageDrain(held, from);
    }

    /** A suspension point: the rest of the program runs, any calls, any number of them. */
    method Await(ghost held: seq<Entry>, ghost from: QueueKind)
      requires Ledger(held, from)
      modifies this`nextPlace, this`home, this`calls, this`discarded, this`aborted, this`suppressQueuedMessageDrain,
               steering, followUp
      ensures Ledger(held, from) && Extends(old(Past()), Past())
    {
      hide Ledger, Past, Extends;
      ExtendsIsAnOrder();
      var callsLeft: nat := *;
      while callsLeft > 0
        invariant Ledger(held, from) && Extends(old(Past()), Past())
      {
        var call: OutsideCall := *;
        Outside(call, held, from);
        callsLeft := callsLeft - 1;
      }
    }

    // -------------------------------------------------------------- claims, give-backs and commits

    static lemma Regroup(admitted: seq<Entry>, held: seq<Entry>, queued: seq<Entry>)
      ensures admitted + held + queued == admitted + [] + (held + queued)
    {}

    /** From here a claim of this queue can be told from a clear that comes later. */
    ghost method RecordClaim(kind: QueueKind)
      requires Ledger([], Steering)
      modifies this`claimedFrom, this`claimedAt, this`claimSince
      ensures Ledger([], Steering) && Extends(old(Past()), Past())
      ensures claimedFrom == kind && claimedAt == Queue(kind).clearGeneration && claimSince == |calls|
    {
      hide Placed, Counted, AllExplained;
      ClaimIsCounted(calls, steering.clearGeneration, followUp.clearGeneration, claimedAt, claimSince, claimedFrom,
                     kind);
      claimedFrom, claimedAt, claimSince := kind, Queue(kind).clearGeneration, |calls|;
    }

    /** One atomic drain of a queue into the loop's hands; `Taken` and the queue together stay the same line. */
    method DrainNow(kind: QueueKind) returns (batch: seq<Entry>)
      requires Ledger([], Steering) && !sealed && MayPollNow(StageOf(history), kind)
      modifies this`claimedFrom, this`claimedAt, this`claimSince, this`history,
               Queue(kind)`messages
      ensures StageOf(history) == AfterPoll(StageOf(old(history)), kind, batch)
      ensures Ledger(batch, kind) && Extends(old(Past()), Past())
      ensures batch == Batch(old(Queue(kind).messages), Queue(kind).mode)
      ensures batch + Queue(kind).messages == old(Queue(kind).messages)
      ensures claimedFrom == kind && claimedAt == Queue(kind).clearGeneration && claimSince == |calls|
      ensures history == old(history) + [Poll(kind, batch)]
    {
      hide AfterPoll, StageOf, NextStage, Batch, Ledger, Recent;
      RecordClaim(kind);
      batch := TakeBatch(kind);
      Polls(StageOf(history), kind, batch);
      HistoryGrows(history, Poll(kind, batch));
      history := history + [Poll(kind, batch)];
    }

    method TakeBatch(kind: QueueKind) returns (batch: seq<Entry>)
      requires Ledger([], Steering) && claimedFrom == kind
      modifies Queue(kind)`messages
      ensures Ledger(batch, kind)
      ensures batch == Batch(old(Queue(kind).messages), Queue(kind).mode)
      ensures batch + Queue(kind).messages == old(Queue(kind).messages)
    {
      hide Books, Homes, Admissions, Justified, Admitted;
      batch := Queue(kind).Drain();
      Regroup(Admitted(origins, kind), batch, Queue(kind).messages);
      assert Line(kind, batch, kind) == old(Line(kind, [], Steering));
      assert Line(Other(kind), batch, kind) == old(Line(Other(kind), [], Steering));
    }

    lemma NothingHeld(from: QueueKind, from': QueueKind)
      requires Ledger([], from)
      ensures Ledger([], from')
    {
      hide Books, AtHome, Admissions, Justified;
      assert forall kind :: Line(kind, [], from) == Line(kind, [], from');
    }

    method GetSteeringMessages() returns (batch: seq<Entry>)
      requires Ledger([], Steering) && !sealed && MayPollNow(StageOf(history), Steering)
      modifies this`nextPlace, this`home, this`calls, this`discarded, this`aborted, this`suppressQueuedMessageDrain,
               steering, followUp, this`skipInitialSteeringPoll, this`steeringQueueGeneration, this`claimedFrom,
               this`claimedAt, this`claimSince, this`history
      ensures Ledger(batch, Steering) && Extends(old(Past()), Past())
      ensures !skipInitialSteeringPoll
      ensures batch != [] ==> !old(skipInitialSteeringPoll) && steeringQueueGeneration == claimedAt
      ensures if old(skipInitialSteeringPoll) then batch == [] && history == old(history)
              else history == old(history) + [Poll(Steering, batch)]
      ensures StageOf(history) == if old(skipInitialSteeringPoll) then StageOf(old(history))
                                  else AfterPoll(StageOf(old(history)), Steering, batch)
    {
      hide AfterPoll, StageOf, Batch, Ledger, Past, Extends;
      ExtendsIsAnOrder();
      if skipInitialSteeringPoll {
        skipInitialSteeringPoll := false;
        batch := [];
        Await([], Steering);
        return;
      }
      if hasPort {
        Await([], Steering);
      }
      steeringQueueGeneration := steering.clearGeneration;
      batch := DrainNow(Steering);
      Await(batch, Steering);
    }

    method GetFollowUpMessages() returns (batch: seq<Entry>)
      requires Ledger([], Steering) && !sealed && MayPollNow(StageOf(history), FollowUp)
      modifies this`nextPlace, this`home, this`calls, this`discarded, this`aborted, this`suppressQueuedMessageDrain,
               steering, followUp, this`followUpQueueGeneration, this`claimedFrom, this`claimedAt, this`claimSince,
               this`history
      ensures StageOf(history) == AfterPoll(StageOf(old(history)), FollowUp, batch)
      ensures Ledger(batch, if batch == [] then Steering else FollowUp) && Extends(old(Past()), Past())
      ensures batch != [] ==> followUpQueueGeneration == claimedAt
      ensures history == old(history) + [Poll(FollowUp, batch)]
    {
      hide AfterPoll, StageOf, Batch, Ledger, Past, Extends;
      ExtendsIsAnOrder();
      if hasPort {
        Await([], Steering);
      }
      followUpQueueGeneration := followUp.clearGeneration;
      batch := DrainNow(FollowUp);
      Await(batch, FollowUp);
      if batch == [] { NothingHeld(FollowUp, Steering); }
    }

    /** The claimed entries `entries` of queue `kind`, seen from a later moment, are claimed, queued or discarded. */
    ghost predicate NotLost(entries: seq<Entry>, kind: QueueKind, held: seq<Entry>, from: QueueKind)
      reads this`discarded, steering`messages, followUp`messages
    {
      Places(entries) <= Places(if from == kind then held else []) + Places(Queue(kind).messages) + discarded.Keys
    }

    static lemma ClaimIsApart(admitted: seq<Entry>, held: seq<Entry>, queued: seq<Entry>, home: seq<QueueKind>,
                              from: QueueKind)
      requires InOrder(admitted + held + queued) && AtHome(admitted + held + queued, home, from)
      ensures forall e :: e in held ==>
        e.place < |home| && home[e.place] == from && e.place !in Places(admitted)
    {
      var line := admitted + held + queued;
      forall e | e in held
        ensures e.place < |home| && home[e.place] == from && e.place !in Places(admitted)
      {
        var i :| 0 <= i < |held| && held[i] == e;
        assert line[|admitted| + i] == e;
        assert forall j :: 0 <= j < |admitted| ==> line[j] == admitted[j];
      }
    }

    lemma ClaimIsWaiting(held: seq<Entry>, from: QueueKind)
      requires Ledger(held, from)
      ensures Waiting(Past(), held, from) && Past().origins == origins
    {
      hide Counted, AllExplained, Admissions, Admitted;
      assert InOrder(Line(from, held, from)) && AtHome(Line(from, held, from), home, from);
      ClaimIsApart(Admitted(origins, from), held, Queue(from).messages, home, from);
    }

    /** What was claimed and has not been admitted since is not lost. */
    lemma StillThere(past: Record, entries: seq<Entry>, kind: QueueKind, held: seq<Entry>, from: QueueKind)
      requires Ledger(held, from) && Waiting(past, entries, kind)
      requires Extends(past, Past()) && past.origins == origins
      ensures NotLost(entries, kind, held, from)
    {
      hide InOrder, Explained, Counted, Admissions, Recent, Places, Admitted;
      var mine := if from == kind then held else [];
      var admitted := Admitted(origins, kind);
      PlacesOfConcat(admitted + mine, Queue(kind).messages);
      PlacesOfConcat(admitted, mine);
      PlacesAreHome(Line(Other(kind), held, from), home, Other(kind));
      forall p | p in Places(entries)
        ensures p in Places(mine) + Places(Queue(kind).messages) + discarded.Keys
      {
        var e := At(entries, p);
        assert p < nextPlace && home[p] == kind;
        assert p in Places(Line(Steering, held, from)) + Places(Line(FollowUp, held, from)) + discarded.Keys;
      }
    }

    lemma ClearedSinceClaim() returns (k: nat)
      requires Justified() && Queue(claimedFrom).clearGeneration != claimedAt
      ensures claimSince <= k < |calls| && calls[k] == CallClear(claimedFrom)
    {
      k := ClearSince(calls, claimSince, claimedFrom);
    }

    /** `giveBack(..).restore()`: back to the front, unless the queue was cleared after the claim. */
    method GiveBack(kind: QueueKind, held: seq<Entry>, generation: nat) returns (restored: bool, ghost clear: nat)
      requires Ledger(held, kind)
      requires held != [] ==> generation == claimedAt
      modifies this`discarded, Queue(kind)`messages
      ensures Ledger([], Steering) && Extends(old(Past()), Past())
      ensures held != [] ==> restored == (Queue(kind).clearGeneration == claimedAt)
      ensures restored ==> Queue(kind).messages == held + old(Queue(kind).messages) && discarded == old(discarded)
      ensures !restored ==> Queue(kind).messages == old(Queue(kind).messages)
      ensures !restored ==> discarded == old(discarded) + LostToClear(held, kind, claimSince, clear)
      ensures !restored && held != [] ==> claimSince <= clear < |calls| && calls[clear] == CallClear(kind)
    {
      hide Books, InOrder, Places, Explained, AtHome, Admissions, Admitted, Justified;
      clear := 0;
      ghost var queued := Queue(kind).messages;
      ghost var other := Line(Other(kind), held, kind);
      restored := Queue(kind).clearGeneration == generation;
      if restored {
        Queue(kind).Prepend(held);
        Regroup(Admitted(origins, kind), held, queued);
        assert Line(kind, [], Steering) == old(Line(kind, held, kind));
      } else {
        ghost var admitted := Admitted(origins, kind);
        CutKeepsPlaces(kind, admitted, held, queued, other);
        if held != [] {
          clear := ClearedSinceClaim();
        }
        ClearWonExplains(held, kind, calls, home, claimSince, clear);
        DiscardMore(LostToClear(held, kind, claimSince, clear));
        assert admitted + [] + queued == admitted + queued;
      }
      assert Line(Other(kind), [], Steering) == other;
    }

    method Release(kind: QueueKind, held: seq<Entry>, generation: nat)
      requires Ledger(held, kind)
      requires held != [] ==> generation == claimedAt
      modifies this`nextPlace, this`home, this`calls, this`discarded, this`aborted, this`suppressQueuedMessageDrain,
               steering, followUp
      ensures Ledger([], Steering) && Extends(old(Past()), Past())
      ensures NotLost(held, kind, [], Steering)
    {
      hide Ledger, Past, Extends, NotLost, Waiting;
      ExtendsIsAnOrder();
      ClaimIsWaiting(held, kind);
      if hasPort {
        Await(held, kind);
      }
      var _, _ := GiveBack(kind, held, generation);
      Await([], Steering);
      StillThere(old(Past()), held, kind, [], Steering);
    }

    method RestorePendingMessages(kind: QueueKind, held: seq<Entry>)
      requires Ledger(held, kind)
      requires held != [] ==> GenerationOf(kind) == claimedAt
      modifies this`nextPlace, this`home, this`calls, this`discarded, this`aborted, this`suppressQueuedMessageDrain,
               steering, followUp
      ensures Ledger([], Steering) && Extends(old(Past()), Past())
      ensures NotLost(held, kind, [], Steering)
    {
      hide Ledger, Past, Extends, NotLost;
      Release(kind, held, GenerationOf(kind));
    }

    /** The port's commit of a whole batch, which it `accepts` as a whole or not at all. */
    method CommitConsumption(kind: QueueKind, held: seq<Entry>, accepts: bool) returns (ok: bool)
      requires hasPort && Ledger(held, kind)
      modifies this`nextPlace, this`home, this`calls, this`discarded, this`aborted, this`suppressQueuedMessageDrain,
               steering, followUp, this`committed
      ensures Ledger(held, kind) && Extends(old(Past()), Past())
      ensures ok == accepts
      ensures ok ==> AllCommitted(held, kind)
      ensures !ok ==> committed == old(committed)
    {
      hide Ledger, Past, Extends;
      ExtendsIsAnOrder();
      Await(held, kind);
      ok := accepts;
      if ok {
        CommitMore(kind, held);
      }
      Await(held, kind);
    }

    ghost method CommitMore(kind: QueueKind, held: seq<Entry>)
      requires Ledger(held, kind)
      modifies this`committed
      ensures Ledger(held, kind) && Extends(old(Past()), Past()) && AllCommitted(held, kind)
    {
      hide Books, Homes, Justified;
      committed := committed + set e | e in held :: (kind, e.place);
    }

    /**
     * `takeQueuedMessages`: a plain drain, or a claim whose consumption is committed before anything is admitted; after
     * a rejected commit the claimed batch goes back.
     */
    method TakeQueuedMessages(kind: QueueKind, accepts: bool) returns (threw: bool, batch: seq<Entry>, ghost claimed: seq<Entry>)
      requires Ledger([], Steering) && !sealed && MayPollNow(StageOf(history), kind)
      modifies this`nextPlace, this`home, this`calls, this`discarded, this`aborted, this`suppressQueuedMessageDrain,
               steering, followUp, this`claimedFrom, this`claimedAt, this`claimSince, this`history, this`committed
      ensures StageOf(history) == AfterPoll(StageOf(old(history)), kind, claimed)
      ensures Ledger(batch, if batch == [] then Steering else kind) && AllCommitted(batch, kind)
      ensures Extends(old(Past()), Past()) && history == old(history) + [Poll(kind, claimed)]
      ensures threw <==> hasPort && claimed != [] && !accepts
      ensures !threw ==> batch == claimed
      ensures threw ==> batch == [] && claimed != [] && NotLost(claimed, kind, [], Steering)
      ensures threw ==> committed == old(committed)
    {
      hide AfterPoll, StageOf, Batch, Ledger, Past, Extends, NotLost;
      ExtendsIsAnOrder();
      threw := false;
      if hasPort {
        Await([], Steering);
      }
      var generation := Queue(kind).clearGeneration;
      batch := DrainNow(kind);
      claimed := batch;
      Await(batch, kind);
      if batch == [] {
        NothingHeld(kind, Steering);
      } else if hasPort {
        var ok := CommitConsumption(kind, batch, accepts);
        if !ok {
          Release(kind, batch, generation);
          threw, batch := true, [];
        }
      }
    }

    // -------------------------------------------------------------- events

    /** `processEvents` for an event that ends no message. */
    method Emit(event: AgentEvent, ghost held: seq<Entry>, ghost from: QueueKind)
      requires Ledger(held, from) && !event.MessageEnd?
      modifies this`nextPlace, this`home, this`calls, this`discarded, this`aborted, this`suppressQueuedMessageDrain,
               steering, followUp, this`events
      ensures Ledger(held, from) && Extends(old(Past()), Past())
      ensures PhaseOf(events) == NextPhase(PhaseOf(old(events)), event)
      ensures EndedMessages(events) == EndedMessages(old(events))
      ensures events == old(events) + [event]
    {
      hide Ledger, Past, Extends, NextPhase;
      ExtendsIsAnOrder();
      LogGrows(events, event);
      events := events + [event];
      Await(held, from);
    }

    /** A message that came from no queue joins the transcript. */
    method Push(message: Message, ghost held: seq<Entry>, ghost from: QueueKind)
      requires Ledger(held, from)
      modifies this`transcript, this`origins
      ensures Ledger(held, from) && Extends(old(Past()), Past())
      ensures transcript == old(transcript) + [message] && origins == old(origins) + [Local]
    {
      hide Books, Homes, Admissions, Admitted, Justified;
      AdmittedGrows(origins, Local, Steering);
      AdmittedGrows(origins, Local, FollowUp);
      AdmissionsGrow(transcript, origins, committed, hasPort, message, Local);
      transcript := transcript + [message];
      origins := origins + [Local];
      assert Line(Steering, held, from) == old(Line(Steering, held, from));
      assert Line(FollowUp, held, from) == old(Line(FollowUp, held, from));
    }

    /** `message_end` of a message that came from no queue. */
    method EmitMessageEnd(message: Message, ghost held: seq<Entry>, ghost from: QueueKind)
      requires Ledger(held, from)
      modifies this`nextPlace, this`home, this`calls, this`discarded, this`aborted, this`suppressQueuedMessageDrain,
               steering, followUp, this`events, this`transcript, this`origins
      ensures Ledger(held, from) && Extends(old(Past()), Past())
      ensures PhaseOf(events) == NextPhase(PhaseOf(old(events)), MessageEnd(message))
      ensures EndedMessages(events) == EndedMessages(old(events)) + [message]
      ensures events == old(events) + [MessageEnd(message)]
      ensures transcript == old(transcript) + [message]
      ensures origins == old(origins) + [Local]
    {
      hide Ledger, Past, Extends, NextPhase, PhaseOf, EndedMessages;
      ExtendsIsAnOrder();
      LogGrows(events, MessageEnd(message));
      events := events + [MessageEnd(message)];
      Push(message, held, from);
      Await(held, from);
    }

    static lemma FrontMoves(admitted: seq<Entry>, held: seq<Entry>, queued: seq<Entry>)
      requires held != []
      ensures admitted + [held[0]] + held[1..] + queued == admitted + held + queued
      ensures admitted + [held[0]] + [] + queued == admitted + [held[0]] + queued
      ensures |held| == 1 ==> held[1..] == []
    {}

    /** The first claimed message becomes the last message of the transcript. */
    method AdmitFront(held: seq<Entry>, ghost from: QueueKind)
      requires held != [] && Ledger(held, from) && AllCommitted(held, from)
      modifies this`transcript, this`origins
      ensures Ledger(held[1..], if |held| == 1 then Steering else from) && Extends(old(Past()), Past())
      ensures transcript == old(transcript) + [held[0].message]
      ensures origins == old(origins) + [Queued(from, held[0])]
    {
      hide Books, Homes, Admissions, Admitted, Justified;
      ghost var origin := Queued(from, held[0]);
      AdmittedGrows(origins, origin, Steering);
      AdmittedGrows(origins, origin, FollowUp);
      AdmissionsGrow(transcript, origins, committed, hasPort, held[0].message, origin);
      FrontMoves(Admitted(origins, from), held, Queue(from).messages);
      transcript := transcript + [held[0].message];
      origins := origins + [origin];
      ghost var after := if |held| == 1 then Steering else from;
      assert Line(from, held[1..], after) == old(Line(from, held, from));
      assert Line(Other(from), held[1..], after) == old(Line(Other(from), held, from));
    }

    /** `message_end` of the first claimed message: it leaves the batch for the transcript, keeping its place in line. */
    method EmitQueuedMessageEnd(held: seq<Entry>, ghost from: QueueKind)
      requires held != [] && Ledger(held, from) && AllCommitted(held, from)
      requires PhaseOf(events) == Within(held[0].message)
      modifies this`nextPlace, this`home, this`calls, this`discarded, this`aborted, this`suppressQueuedMessageDrain,
               steering, followUp, this`events, this`transcript, this`origins
      ensures Ledger(held[1..], if |held| == 1 then Steering else from) && Extends(old(Past()), Past())
      ensures PhaseOf(events) == InTurn
      ensures EndedMessages(events) == EndedMessages(old(events)) + [held[0].message]
      ensures transcript == old(transcript) + [held[0].message]
      ensures events == old(events) + [MessageEnd(held[0].message)]
      ensures origins == old(origins) + [Queued(from, held[0])]
    {
      hide Ledger, Past, Extends;
      ExtendsIsAnOrder();
      LogGrows(events, MessageEnd(held[0].message));
      events := events + [MessageEnd(held[0].message)];
      AdmitFront(held, from);
      Await(held[1..], if |held| == 1 then Steering else from);
    }
  }

  // ---------------------------------------------------------------- what the books say

  predicate CameFrom(origin: Origin, queue: QueueKind) {
    origin.Queued? && origin.queue == queue
  }

  ghost predicate OriginsInOrder(origins: seq<Origin>, queue: QueueKind) {
    forall i, j :: 0 <= i < j < |origins| && CameFrom(origins[i], queue) && CameFrom(origins[j], queue) ==>
      origins[i].entry.place < origins[j].entry.place
  }

  lemma {:induction false} OriginsAreAdmitted(origins: seq<Origin>, queue: QueueKind)
    ensures forall o :: o in origins && CameFrom(o, queue) ==> o.entry in Admitted(origins, queue)
    ensures forall e :: e in Admitted(origins, queue) ==> Queued(queue, e) in origins
    ensures InOrder(Admitted(origins, queue)) ==> OriginsInOrder(origins, queue)
  {
    if origins != [] {
      var n := |origins| - 1;
      var before := origins[..n];
      OriginsAreAdmitted(before, queue);
      assert origins == before + [origins[n]];
      var admitted := Admitted(origins, queue);
      if CameFrom(origins[n], queue) && InOrder(admitted) {
        assert admitted == Admitted(before, queue) + [origins[n].entry];
        assert InOrder(Admitted(before, queue)) by {
          assert forall k :: 0 <= k < |admitted| - 1 ==> admitted[k] == Admitted(before, queue)[k];
        }
        forall i | 0 <= i < n && CameFrom(origins[i], queue)
          ensures origins[i].entry.place < origins[n].entry.place
        {
          assert before[i] in before;
          var k :| 0 <= k < |admitted| - 1 && Admitted(before, queue)[k] == origins[i].entry;
          assert admitted[k] == origins[i].entry;
          assert admitted[|admitted| - 1] == origins[n].entry;
        }
      }
    }
  }

  ghost predicate InTranscript(agent: Agent, place: nat)
    reads agent`origins
  {
    exists o :: o in agent.origins && o.Queued? && o.entry.place == place
  }

  ghost predicate In(entries: seq<Entry>, place: nat) {
    exists e :: e in entries && e.place == place
  }

  function Count(b: bool): nat {
    if b then 1 else 0
  }

  lemma PlacesAreIn(entries: seq<Entry>, place: nat)
    ensures place in Places(entries) <==> In(entries, place)
  {
    if place in Places(entries) {
      var i :| 0 <= i < |entries| && entries[i].place == place;
      assert entries[i] in entries;
    }
  }

  lemma LineIsSplit(agent: Agent, kind: QueueKind, held: seq<Entry>, from: QueueKind, place: nat)
    requires InOrder(agent.Line(kind, held, from))
    ensures Count(place in Places(agent.Line(kind, held, from)))
         == Count(In(Admitted(agent.origins, kind), place)) + Count(from == kind && In(held, place))
            + Count(In(agent.Queue(kind).messages, place))
  {
    hide Places, InOrder, Admitted;
    var admitted := Admitted(agent.origins, kind);
    var mine := if from == kind then held else [];
    var queued := agent.Queue(kind).messages;
    PlacesOfConcat(admitted + mine, queued);
    PlacesOfConcat(admitted, mine);
    InOrderPartsAreDisjoint(admitted + mine, queued);
    InOrderPartsAreDisjoint(admitted, mine);
    PlacesAreIn(admitted, place);
    PlacesAreIn(mine, place);
    PlacesAreIn(queued, place);
  }

  lemma TranscriptPlaces(agent: Agent, place: nat)
    ensures InTranscript(agent, place) <==>
      In(Admitted(agent.origins, Steering), place) || In(Admitted(agent.origins, FollowUp), place)
  {
    hide Admitted, OriginsInOrder;
    OriginsAreAdmitted(agent.origins, Steering);
    OriginsAreAdmitted(agent.origins, FollowUp);
    if InTranscript(agent, place) {
      var o :| o in agent.origins && o.Queued? && o.entry.place == place;
      assert CameFrom(o, o.queue) && o.entry in Admitted(agent.origins, o.queue);
    }
    if In(Admitted(agent.origins, Steering), place) {
      var e :| e in Admitted(agent.origins, Steering) && e.place == place;
      var o := Queued(Steering, e);
      assert o in agent.origins && o.Queued? && o.entry.place == place;
    }
    if In(Admitted(agent.origins, FollowUp), place) {
      var e :| e in Admitted(agent.origins, FollowUp) && e.place == place;
      var o := Queued(FollowUp, e);
      assert o in agent.origins && o.Queued? && o.entry.place == place;
    }
  }

  /**
   * Every message ever enqueued is in exactly one place: the transcript, the claimed batch, a queue, or discarded; and a
   * discarded one was removed or cleared by a call, or a clear of its queue came between its claim and its return.
   */
  lemma {:induction false} EveryMessageIsInOnePlace(agent: Agent, held: seq<Entry>, from: QueueKind, place: nat)
    requires agent.Ledger(held, from) && place < agent.nextPlace
    ensures Count(InTranscript(agent, place)) + Count(In(held, place)) + Count(In(agent.steering.messages, place))
            + Count(In(agent.followUp.messages, place)) + Count(place in agent.discarded) == 1
    ensures place in agent.discarded ==> Explained(agent.calls, agent.home, place, agent.discarded[place])
  {
    hide InOrder, Explained, Counted, Admissions, Places, Admitted, Homes;

    var s, f := agent.Line(Steering, held, from), agent.Line(FollowUp, held, from);
    assert place in Places(s) + Places(f) + agent.discarded.Keys;
    LineIsSplit(agent, Steering, held, from, place);
    LineIsSplit(agent, FollowUp, held, from, place);
    TranscriptPlaces(agent, place);
  }

  lemma FrontOfLine(admitted: seq<Entry>, mine: seq<Entry>, queued: seq<Entry>, entry: Entry)
    requires InOrder(admitted + mine + queued) && entry in admitted
    ensures InOrder(admitted)
    ensures forall e :: e in mine || e in queued ==> entry.place < e.place
  {
    var line := admitted + mine + queued;
    InOrderPartsAreDisjoint(admitted + mine, queued);
    InOrderPartsAreDisjoint(admitted, mine);
    var a :| 0 <= a < |admitted| && admitted[a] == entry;
    assert line[a] == entry;
    forall e | e in mine || e in queued
      ensures entry.place < e.place
    {
      if e in mine {
        var k :| 0 <= k < |mine| && mine[k] == e;
        assert line[|admitted| + k] == e;
      } else {
        var k :| 0 <= k < |queued| && queued[k] == e;
        assert line[|admitted| + |mine| + k] == e;
      }
    }
  }

  /**
   * Per queue, enqueue order is transcript order, and what is admitted precedes what is claimed, which precedes what is
   * queued. In particular no message is admitted twice, and with a port every admitted message was committed first.
   */
  lemma {:induction false} QueuesAreFirstInFirstOut(agent: Agent, held: seq<Entry>, from: QueueKind, i: nat, j: nat)
    requires agent.Ledger(held, from)
    requires i < |agent.origins| && agent.origins[i].Queued?
    ensures i < |agent.transcript| && agent.transcript[i] == agent.origins[i].entry.message
    ensures agent.hasPort ==> (agent.origins[i].queue, agent.origins[i].entry.place) in agent.committed
    ensures i < j < |agent.origins| && CameFrom(agent.origins[j], agent.origins[i].queue) ==>
      agent.origins[i].entry.place < agent.origins[j].entry.place
    ensures from == agent.origins[i].queue ==> forall e :: e in held ==> agent.origins[i].entry.place < e.place
    ensures forall e :: e in agent.Queue(agent.origins[i].queue).messages ==> agent.origins[i].entry.place < e.place
  {
    var kind := agent.origins[i].queue;
    var mine := if from == kind then held else [];
    OriginsAreAdmitted(agent.origins, kind);
    assert agent.origins[i] in agent.origins;
    FrontOfLine(Admitted(agent.origins, kind), mine, agent.Queue(kind).messages, agent.origins[i].entry);
  }
}
