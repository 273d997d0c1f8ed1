/**
 * `PendingMessageQueue` (packages/agent/src/agent.ts:220-286) and the books that say where every queued message is.
 */
module AgentQueues {
  import opened AgentMessages

  datatype QueueMode = All | OneAtATime

  datatype QueueKind = Steering | FollowUp

  /** A queued message with its place: the number of the enqueue call that accepted it. */
  datatype Entry = Entry(place: nat, message: Message)

  // ---------------------------------------------------------------- specification of a drain

  /** How many background notices stand at the front. */
  function NoticeRun(entries: seq<Entry>): (n: nat)
    ensures n <= |entries|
  {
    if entries != [] && IsBackgroundNotice(entries[0].message) then 1 + NoticeRun(entries[1..]) else 0
  }

  function Batch(entries: seq<Entry>, mode: QueueMode): (batch: seq<Entry>)
    ensures batch <= entries
  {
    if mode == All || entries == [] then entries
    else if !IsBackgroundNotice(entries[0].message) then entries[..1]
    else entries[..NoticeRun(entries)]
  }

  lemma {:induction false} NoticeRunIsMaximal(entries: seq<Entry>)
    ensures forall i :: 0 <= i < NoticeRun(entries) ==> IsBackgroundNotice(entries[i].message)
    ensures NoticeRun(entries) < |entries| ==> !IsBackgroundNotice(entries[NoticeRun(entries)].message)
  {
    if entries != [] && IsBackgroundNotice(entries[0].message) {
      NoticeRunIsMaximal(entries[1..]);
      forall i | 0 <= i < NoticeRun(entries)
        ensures IsBackgroundNotice(entries[i].message)
      {
        if i > 0 { assert entries[i] == entries[1..][i - 1]; }
      }
    }
  }

  /** A batch is empty only for an empty queue; one at a time it is one LLM message or the longest run of notices. */
  lemma {:induction false} BatchIsOneTurn(entries: seq<Entry>, mode: QueueMode)
    ensures Batch(entries, mode) == [] <==> entries == []
    ensures (mode == OneAtATime && entries != [] && entries[0].message.role != AppDefined)
      ==> |Batch(entries, mode)| == 1
    ensures (mode == OneAtATime && entries != [] && entries[0].message.role == AppDefined)
      ==> var n := |Batch(entries, mode)|;
          && (forall i :: 0 <= i < n ==> entries[i].message.role == AppDefined)
          && (n < |entries| ==> entries[n].message.role != AppDefined)
  {
    NoticeRunIsMaximal(entries);
  }

  /** The first position of this message object, or the length when it is not queued. */
  function IndexOf(entries: seq<Entry>, message: Message): (i: nat)
    ensures i <= |entries|
    ensures i < |entries| ==> entries[i].message == message
    ensures forall j :: 0 <= j < i ==> entries[j].message != message
  {
    if entries == [] || entries[0].message == message then 0
    else
      var rest := IndexOf(entries[1..], message);
      assert forall j :: 0 < j < 1 + rest ==> entries[j] == entries[1..][j - 1];
      1 + rest
  }

  predicate Holds(entries: seq<Entry>, message: Message) {
    exists e :: e in entries && e.message == message
  }

  lemma HeldIsFound(entries: seq<Entry>, message: Message)
    ensures Holds(entries, message) <==> IndexOf(entries, message) < |entries|
  {
    if Holds(entries, message) {
      var e :| e in entries && e.message == message;
      var i :| 0 <= i < |entries| && entries[i] == e;
    }
  }

  /** The entries with the first of this message taken out. */
  function Without(entries: seq<Entry>, message: Message): seq<Entry> {
    var i := IndexOf(entries, message);
    if i < |entries| then entries[..i] + entries[i + 1..] else entries
  }

  /** The entries with the first of this message swapped for the next at its place. */
  function Swapped(entries: seq<Entry>, message: Message, next: Message): seq<Entry> {
    var i := IndexOf(entries, message);
    if i < |entries| then entries[i := Entry(entries[i].place, next)] else entries
  }

  class PendingMessageQueue {
    var messages: seq<Entry>
    var clearGeneration: nat
    var mode: QueueMode

    constructor (mode: QueueMode)
      ensures messages == [] && clearGeneration == 0 && this.mode == mode
    {
      messages := [];
      clearGeneration := 0;
      this.mode := mode;
    }

    method Enqueue(entry: Entry)
      modifies this`messages
      ensures messages == old(messages) + [entry]
    {
      messages := messages + [entry];
    }

    method Peek() returns (batch: seq<Entry>)
      ensures batch == Batch(messages, mode)
    {
      if mode == All {
        return messages;
      }
      if messages == [] {
        return [];
      }
      if !IsBackgroundNotice(messages[0].message) {
        return messages[..1];
      }
      var end := 1;
      while end < |messages| && IsBackgroundNotice(messages[end].message)
        invariant 1 <= end <= |messages|
        invariant NoticeRun(messages) == end + NoticeRun(messages[end..])
      {
        assert messages[end..][1..] == messages[end + 1..];
        end := end + 1;
      }
      batch := messages[..end];
    }

    method Drain() returns (drained: seq<Entry>)
      modifies this`messages
      ensures drained == Batch(old(messages), mode)
      ensures drained + messages == old(messages)
    {
      drained := Peek();
      messages := messages[|drained|..];
    }

    method Prepend(entries: seq<Entry>)
      modifies this`messages
      ensures messages == entries + old(messages)
    {
      messages := entries + messages;
    }

    method Remove(message: Message) returns (removed: bool)
      modifies this`messages
      ensures removed == Holds(old(messages), message) && messages == Without(old(messages), message)
    {
      HeldIsFound(messages, message);
      var index := IndexOf(messages, message);
      if index == |messages| {
        return false;
      }
      messages := messages[..index] + messages[index + 1..];
      removed := true;
    }

    method Replace(message: Message, next: Message) returns (replaced: bool)
      modifies this`messages
      ensures replaced == Holds(old(messages), message) && messages == Swapped(old(messages), message, next)
    {
      HeldIsFound(messages, message);
      var index := IndexOf(messages, message);
      if index == |messages| {
        return false;
      }
      messages := messages[index := Entry(messages[index].place, next)];
      replaced := true;
    }

    method Clear()
      modifies this`messages, this`clearGeneration
      ensures messages == [] && clearGeneration == old(clearGeneration) + 1
    {
      messages := [];
      clearGeneration := clearGeneration + 1;
    }
  }

  // ---------------------------------------------------------------- the books

  ghost function Places(line: seq<Entry>): set<nat> {
    set i | 0 <= i < |line| :: line[i].place
  }

  ghost predicate InOrder(line: seq<Entry>) {
    forall i, j :: 0 <= i < j < |line| ==> line[i].place < line[j].place
  }

  /**
   * Each queue's line (admitted, then claimed, then still queued) is in enqueue order, and every place ever given out
   * is in exactly one of the two lines or among the discarded.
   */
  ghost predicate Books(steering: seq<Entry>, followUp: seq<Entry>, discarded: set<nat>, nextPlace: nat) {
    && InOrder(steering)
    && InOrder(followUp)
    && Places(steering) !! Places(followUp) !! discarded
    && (forall p: nat :: p < nextPlace <==> p in Places(steering) + Places(followUp) + discarded)
  }

  lemma BooksAreSymmetric(steering: seq<Entry>, followUp: seq<Entry>, discarded: set<nat>, nextPlace: nat)
    requires Books(steering, followUp, discarded, nextPlace)
    ensures Books(followUp, steering, discarded, nextPlace)
  {
    forall p: nat
      ensures p < nextPlace <==> p in Places(followUp) + Places(steering) + discarded
    {
      assert p < nextPlace <==> p in Places(steering) + Places(followUp) + discarded;
    }
  }

  lemma PlacesOfConcat(a: seq<Entry>, b: seq<Entry>)
    ensures Places(a + b) == Places(a) + Places(b)
  {
    forall p | p in Places(a) + Places(b)
      ensures p in Places(a + b)
    {
      if p in Places(a) {
        var i :| 0 <= i < |a| && a[i].place == p;
        assert (a + b)[i].place == p;
      } else {
        var i :| 0 <= i < |b| && b[i].place == p;
        assert (a + b)[|a| + i].place == p;
      }
    }
  }

  lemma PlacesOfOne(entries: seq<Entry>, i: nat)
    requires i < |entries|
    ensures Places(entries[i..i + 1]) == {entries[i].place}
  {
    assert entries[i..i + 1][0] == entries[i];
  }

  lemma InOrderPartsAreDisjoint(a: seq<Entry>, b: seq<Entry>)
    requires InOrder(a + b)
    ensures Places(a) !! Places(b)
    ensures InOrder(a) && InOrder(b)
  {
    var line := a + b;
    assert forall i :: 0 <= i < |a| ==> line[i] == a[i];
    assert forall i :: 0 <= i < |b| ==> line[|a| + i] == b[i];
  }

  /** An enqueue appends a fresh place to one line. */
  lemma EnqueueKeepsBooks(line: seq<Entry>, other: seq<Entry>, discarded: set<nat>, nextPlace: nat, message: Message)
    requires Books(line, other, discarded, nextPlace)
    ensures Books(line + [Entry(nextPlace, message)], other, discarded, nextPlace + 1)
  {
    var entry := Entry(nextPlace, message);
    PlacesOfConcat(line, [entry]);
    assert Places([entry]) == {nextPlace} by {
      assert [entry][0].place == nextPlace;
    }
    assert nextPlace !in Places(line) + Places(other) + discarded;
    forall i | 0 <= i < |line|
      ensures line[i].place < nextPlace
    {
      assert line[i].place in Places(line);
      assert line[i].place in Places(line) + Places(other) + discarded;
    }
    forall p: nat
      ensures p < nextPlace + 1 <==> p in Places(line + [entry]) + Places(other) + discarded
    {
      assert p < nextPlace <==> p in Places(line) + Places(other) + discarded;
    }
  }

  /** Dropping a stretch of a line is balanced by discarding exactly its places. */
  lemma CutKeepsBooks(front: seq<Entry>, cut: seq<Entry>, back: seq<Entry>, other: seq<Entry>,
                      discarded: set<nat>, nextPlace: nat)
    requires Books(front + cut + back, other, discarded, nextPlace)
    ensures Books(front + back, other, discarded + Places(cut), nextPlace)
  {
    PlacesOfConcat(front + cut, back);
    PlacesOfConcat(front, cut);
    PlacesOfConcat(front, back);
    InOrderPartsAreDisjoint(front + cut, back);
    InOrderPartsAreDisjoint(front, cut);
    var line := front + cut + back;
    forall i, j | 0 <= i < j < |front + back|
      ensures (front + back)[i].place < (front + back)[j].place
    {
      var i' := if i < |front| then i else i + |cut|;
      var j' := if j < |front| then j else j + |cut|;
      assert line[i'] == (front + back)[i] && line[j'] == (front + back)[j];
    }
    forall p: nat
      ensures p < nextPlace <==> p in Places(front + back) + Places(other) + (discarded + Places(cut))
    {
      assert p < nextPlace <==> p in Places(line) + Places(other) + discarded;
    }
  }

  /** Swapping a message for another leaves its place where it is. */
  lemma ReplaceKeepsBooks(line: seq<Entry>, k: nat, next: Message, other: seq<Entry>,
                          discarded: set<nat>, nextPlace: nat)
    requires k < |line| && Books(line, other, discarded, nextPlace)
    ensures Books(line[k := Entry(line[k].place, next)], other, discarded, nextPlace)
  {
    var swapped := line[k := Entry(line[k].place, next)];
    assert forall i :: 0 <= i < |line| ==> swapped[i].place == line[i].place;
    assert Places(swapped) == Places(line) by {
      forall p | p in Places(line)
        ensures p in Places(swapped)
      {
        var i :| 0 <= i < |line| && line[i].place == p;
        assert swapped[i].place == p;
      }
    }
  }
}
