/**
 * What is on record about the queues of an agent: the calls other code made, which queue each message was sent to, what
 * was polled, what was discarded and why.
 */
module AgentAccounts {
  import opened AgentMessages
  import opened AgentQueues
  import opened AgentHistory

  /** The calls any other code may make while a run is suspended. */
  datatype OutsideCall =
    | CallSteer(message: Message)
    | CallFollowUp(message: Message)
    | CallRemove(message: Message)
    | CallReplace(message: Message, next: Message)
    | CallClear(queue: QueueKind)
    | CallSetMode(queue: QueueKind, mode: QueueMode)
    | CallAbort
    | CallSuppressDrain

  /**
   * Why a queued message will never be admitted, with the number of the call that caused it. A clear won when it came
   * after the message had been claimed and before it could be given back; `claim` is how many calls there were at the
   * claim.
   */
  datatype Discard =
    | Removed(entry: Entry, call: nat)
    | Cleared(entry: Entry, queue: QueueKind, call: nat)
    | ClearWon(entry: Entry, queue: QueueKind, claim: nat, call: nat)

  /** A transcript message is the loop's own or was queued. */
  datatype Origin = Local | Queued(queue: QueueKind, entry: Entry)

  // ---------------------------------------------------------------- discards are explained by calls

  /**
   * A discarded place is explained: by a call that removed this very message, by a clear of the queue it was sent to, or
   * by such a clear between its claim and its return.
   */
  ghost predicate Explained(calls: seq<OutsideCall>, home: seq<QueueKind>, place: nat, d: Discard) {
    && d.entry.place == place < |home| && d.call < |calls|
    && match d
       case Removed(entry, call) => calls[call] == CallRemove(entry.message)
       case Cleared(_, queue, call) => calls[call] == CallClear(queue) && home[place] == queue
       case ClearWon(_, queue, claim, call) =>
         claim <= call && calls[call] == CallClear(queue) && home[place] == queue
  }

  ghost predicate AllExplained(calls: seq<OutsideCall>, home: seq<QueueKind>, discarded: map<nat, Discard>) {
    forall p :: p in discarded ==> Explained(calls, home, p, discarded[p])
  }

  lemma ExplanationsStay(calls: seq<OutsideCall>, home: seq<QueueKind>, discarded: map<nat, Discard>,
                         calls': seq<OutsideCall>, home': seq<QueueKind>)
    requires AllExplained(calls, home, discarded) && calls <= calls' && home <= home'
    ensures AllExplained(calls', home', discarded)
  {
    forall p | p in discarded
      ensures Explained(calls', home', p, discarded[p])
    {
      assert Explained(calls, home, p, discarded[p]);
      assert calls'[discarded[p].call] == calls[discarded[p].call] && home'[p] == home[p];
    }
  }

  lemma MoreExplained(calls: seq<OutsideCall>, home: seq<QueueKind>, discarded: map<nat, Discard>,
                      more: map<nat, Discard>)
    requires AllExplained(calls, home, discarded) && AllExplained(calls, home, more)
    ensures AllExplained(calls, home, discarded + more)
  {}

  ghost function At(line: seq<Entry>, place: nat): (e: Entry)
    requires place in Places(line)
    ensures e in line && e.place == place
  {
    var i :| 0 <= i < |line| && line[i].place == place;
    line[i]
  }

  ghost function ClearedEntries(line: seq<Entry>, queue: QueueKind, call: nat): (more: map<nat, Discard>)
    ensures more.Keys == Places(line)
  {
    map p | p in Places(line) :: Cleared(At(line, p), queue, call)
  }

  ghost function LostToClear(line: seq<Entry>, queue: QueueKind, claim: nat, call: nat): (more: map<nat, Discard>)
    ensures more.Keys == Places(line)
  {
    map p | p in Places(line) :: ClearWon(At(line, p), queue, claim, call)
  }

  lemma RemoveExplains(entry: Entry, queue: QueueKind, calls: seq<OutsideCall>, home: seq<QueueKind>)
    requires AtHome([entry], home, queue) && calls != [] && calls[|calls| - 1] == CallRemove(entry.message)
    ensures AllExplained(calls, home, map[entry.place := Removed(entry, |calls| - 1)])
  {
    assert [entry][0] == entry;
  }

  lemma ClearExplains(line: seq<Entry>, queue: QueueKind, calls: seq<OutsideCall>, home: seq<QueueKind>, call: nat)
    requires AtHome(line, home, queue) && call < |calls| && calls[call] == CallClear(queue)
    ensures AllExplained(calls, home, ClearedEntries(line, queue, call))
  {}

  lemma ClearWonExplains(line: seq<Entry>, queue: QueueKind, calls: seq<OutsideCall>, home: seq<QueueKind>,
                         claim: nat, call: nat)
    requires AtHome(line, home, queue)
    requires line != [] ==> claim <= call < |calls| && calls[call] == CallClear(queue)
    ensures AllExplained(calls, home, LostToClear(line, queue, claim, call))
  {}

  // ---------------------------------------------------------------- clears are counted

  ghost function Clears(calls: seq<OutsideCall>, queue: QueueKind): nat {
    if calls == [] then 0
    else Clears(calls[..|calls| - 1], queue) + (if calls[|calls| - 1] == CallClear(queue) then 1 else 0)
  }

  lemma OneMoreCall(calls: seq<OutsideCall>, call: OutsideCall, queue: QueueKind)
    ensures Clears(calls + [call], queue) == Clears(calls, queue) + (if call == CallClear(queue) then 1 else 0)
  {
    assert (calls + [call])[..|calls|] == calls;
  }

  /** A generation that has moved on since a claim moved by a clear after that claim. */
  lemma {:induction false} ClearSince(calls: seq<OutsideCall>, claim: nat, queue: QueueKind) returns (k: nat)
    requires claim <= |calls| && Clears(calls, queue) != Clears(calls[..claim], queue)
    ensures claim <= k < |calls| && calls[k] == CallClear(queue)
    decreases |calls|
  {
    var n := |calls| - 1;
    assert calls[..|calls|] == calls;
    if calls[n] == CallClear(queue) {
      k := n;
    } else {
      assert calls[..n][..claim] == calls[..claim];
      k := ClearSince(calls[..n], claim, queue);
    }
  }

  /** The generations count the clears, and the last claim is on record with the generation of its queue then. */
  ghost predicate Counted(calls: seq<OutsideCall>, steering: nat, followUp: nat, claimedAt: nat, claim: nat,
                          claimedFrom: QueueKind)
  {
    && steering == Clears(calls, Steering) && followUp == Clears(calls, FollowUp)
    && claim <= |calls| && claimedAt == Clears(calls[..claim], claimedFrom)
  }

  lemma CallKeepsCounted(calls: seq<OutsideCall>, steering: nat, followUp: nat, claimedAt: nat, claim: nat,
                         claimedFrom: QueueKind, call: OutsideCall)
    requires Counted(calls, steering, followUp, claimedAt, claim, claimedFrom)
    ensures Counted(calls + [call],
                    steering + (if call == CallClear(Steering) then 1 else 0),
                    followUp + (if call == CallClear(FollowUp) then 1 else 0), claimedAt, claim, claimedFrom)
  {
    OneMoreCall(calls, call, Steering);
    OneMoreCall(calls, call, FollowUp);
    assert (calls + [call])[..claim] == calls[..claim];
  }

  lemma ClaimIsCounted(calls: seq<OutsideCall>, steering: nat, followUp: nat, claimedAt: nat, claim: nat,
                       claimedFrom: QueueKind, queue: QueueKind)
    requires Counted(calls, steering, followUp, claimedAt, claim, claimedFrom)
    ensures Counted(calls, steering, followUp, if queue == Steering then steering else followUp, |calls|, queue)
  {
    assert calls[..|calls|] == calls;
  }

  // ---------------------------------------------------------------- where messages were sent

  /** Every entry of a line was sent to its queue. */
  ghost predicate AtHome(line: seq<Entry>, home: seq<QueueKind>, queue: QueueKind) {
    forall i :: 0 <= i < |line| ==> line[i].place < |home| && home[line[i].place] == queue
  }

  ghost predicate Homes(steering: seq<Entry>, followUp: seq<Entry>, home: seq<QueueKind>, nextPlace: nat) {
    |home| == nextPlace && AtHome(steering, home, Steering) && AtHome(followUp, home, FollowUp)
  }

  lemma SentHome(line: seq<Entry>, home: seq<QueueKind>, queue: QueueKind, message: Message, to: QueueKind)
    requires AtHome(line, home, queue)
    ensures AtHome(line, home + [to], queue)
    ensures to == queue ==> AtHome(line + [Entry(|home|, message)], home + [to], queue)
  {}

  lemma PlacesAreHome(line: seq<Entry>, home: seq<QueueKind>, queue: QueueKind)
    requires AtHome(line, home, queue)
    ensures forall p :: p in Places(line) ==> p < |home| && home[p] == queue
  {}

  lemma PartsAreHome(front: seq<Entry>, cut: seq<Entry>, back: seq<Entry>, home: seq<QueueKind>, queue: QueueKind)
    requires AtHome(front + cut + back, home, queue)
    ensures AtHome(front + back, home, queue) && AtHome(cut, home, queue)
  {
    var line := front + cut + back;
    assert forall i :: 0 <= i < |front| ==> line[i] == front[i];
    assert forall i :: 0 <= i < |cut| ==> line[|front| + i] == cut[i];
    assert forall i :: 0 <= i < |back| ==> line[|front| + |cut| + i] == back[i];
  }

  // ---------------------------------------------------------------- the record only grows

  /** What is on record at one moment; `claim` is how many calls there had been at the last claim. */
  datatype Record = Record(
    calls: seq<OutsideCall>,
    home: seq<QueueKind>,
    history: seq<Mark>,
    transcript: seq<Message>,
    origins: seq<Origin>,
    committed: set<(QueueKind, nat)>,
    discarded: map<nat, Discard>,
    claim: nat,
    aborted: bool,
    suppressed: bool)

  /**
   * Later records extend earlier ones. What has been discarded stays so for the same reason; and what is newly discarded
   * is so because of a call made since, or of a clear since the claim that was the last one then.
   */
  ghost predicate Extends(a: Record, b: Record) {
    && a.calls <= b.calls && a.home <= b.home && a.history <= b.history
    && (a.aborted ==> b.aborted) && (a.suppressed ==> b.suppressed)
    && a.transcript <= b.transcript && a.origins <= b.origins && a.committed <= b.committed
    && (b.claim == a.claim || b.claim >= |a.calls|)
    && (forall p :: p in a.discarded ==> p in b.discarded && b.discarded[p] == a.discarded[p])
    && (forall p :: p in b.discarded && p !in a.discarded ==> Recent(a, b.discarded[p]))
    && (forall k :: |a.history| <= k < |b.history| && b.history[k].Requested? ==>
          a.transcript <= b.history[k].transcript <= b.transcript)
  }

  ghost predicate Recent(a: Record, d: Discard) {
    d.call >= |a.calls| || (d.ClearWon? && d.claim == a.claim && d.claim <= d.call)
  }

  lemma ExtendsIsTransitive(a: Record, b: Record, c: Record)
    requires Extends(a, b) && Extends(b, c)
    ensures Extends(a, c)
  {}

  lemma ExtendsIsAnOrder()
    ensures forall a :: Extends(a, a)
    ensures forall a, b {:trigger Extends(a, b)} ::
      Extends(a, b) ==> (a.aborted ==> b.aborted) && (a.suppressed ==> b.suppressed)
    ensures forall a, b, c {:trigger Extends(a, b), Extends(b, c)} :: Extends(a, b) && Extends(b, c) ==> Extends(a, c)
  {
    forall a, b, c | Extends(a, b) && Extends(b, c)
      ensures Extends(a, c)
    {
      ExtendsIsTransitive(a, b, c);
    }
  }

  /** The entries of one queue that reached the transcript, in transcript order. */
  ghost function Admitted(origins: seq<Origin>, queue: QueueKind): seq<Entry> {
    if origins == [] then []
    else
      var before := Admitted(origins[..|origins| - 1], queue);
      var last := origins[|origins| - 1];
      if last.Queued? && last.queue == queue then before + [last.entry] else before
  }

  lemma AdmittedGrows(origins: seq<Origin>, origin: Origin, queue: QueueKind)
    ensures Admitted(origins + [origin], queue)
         == Admitted(origins, queue) + (if origin.Queued? && origin.queue == queue then [origin.entry] else [])
  {
    var longer := origins + [origin];
    assert longer[..|longer| - 1] == origins;
  }

  /** Entries of one queue that have been claimed from it and not been admitted. */
  ghost predicate Waiting(past: Record, entries: seq<Entry>, queue: QueueKind) {
    forall e :: e in entries ==>
      e.place < |past.home| && past.home[e.place] == queue && e.place !in Places(Admitted(past.origins, queue))
  }

  /** Every discard since then has its cause since then. */
  ghost predicate CausedSince(a: Record, b: Record) {
    forall p :: p in b.discarded && p !in a.discarded ==>
      Explained(b.calls, b.home, p, b.discarded[p]) && b.discarded[p].call >= |a.calls|
  }

  /** So where nothing is removed or cleared, nothing is discarded. */
  lemma {:induction false} QuietTimesDiscardNothing(a: Record, b: Record)
    requires Extends(a, b) && CausedSince(a, b)
    requires forall k :: |a.calls| <= k < |b.calls| ==> !b.calls[k].CallRemove? && !b.calls[k].CallClear?
    ensures b.discarded == a.discarded
  {
    forall p | p in b.discarded
      ensures p in a.discarded
    {
      assert p !in a.discarded ==> Explained(b.calls, b.home, p, b.discarded[p]);
    }
    assert b.discarded.Keys == a.discarded.Keys;
  }
}
