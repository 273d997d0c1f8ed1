/**
 * The silence bounds of one provider request: each read of the assistant stream
 * (packages/agent/src/agent-loop.ts:1016-1155) and the start budget that the steps before the stream share with the
 * first reads (packages/agent/src/agent-loop.ts:947-1010). Timers are exact and one clock counts whole milliseconds;
 * what may happen at the very instant a timer is due comes before or after it as `first` says, and a byte is noticed
 * before a timer due at its instant.
 */
module StreamDeadlines {
  import opened Numbers
  import opened Options
  import opened StreamKeepAlive

  /** What settles a read that no timer ends: a record, the end of the stream, a rejection or an abort. */
  datatype Kind = Progress | PublicEvent | EndOfStream | Failure

  datatype Settlement = Settlement(at: int, first: bool, kind: Kind)

  datatype ReadEnd = Arrived | TimedOut(verdict: SilenceVerdict)

  predicate Beats(s: Settlement, deadline: int) {
    s.at < deadline || (s.at == deadline && s.first)
  }

  // ---------------------------------------------------------------- one read

  /** The liveness object has heard the first `noted` bytes, and they were due by `now`. */
  ghost predicate Noted(liveness: TransportLiveness, bytes: seq<int>, noted: nat, now: int)
    reads liveness
  {
    && liveness.Valid() && noted <= |bytes| && liveness.heard == bytes[..noted]
    && forall i :: 0 <= i < noted ==> bytes[i] <= now
  }

  /** The bytes due by `now` reach the liveness object. */
  method DeliverBytes(liveness: TransportLiveness, bytes: seq<int>, noted: nat, before: int, now: int) returns (n: nat)
    requires Noted(liveness, bytes, noted, before) && before <= now && Ascending(bytes)
    modifies liveness`lastActivityAt, liveness`heard
    ensures Noted(liveness, bytes, n, now)
    ensures forall i :: n <= i < |bytes| ==> now < bytes[i]
  {
    n := noted;
    while n < |bytes| && bytes[n] <= now
      invariant Noted(liveness, bytes, n, now)
    {
      liveness.NoteActivity(bytes[n]);
      n := n + 1;
    }
  }

  /** Up to `now`, silence is the same for the bytes heard by then as for all of them; later bytes only lessen it. */
  lemma LaterBytesDoNotCount(bytes: seq<int>, n: nat, contentSince: int, cap: Option<int>, t: int, windowMs: int)
    requires n <= |bytes|
    ensures !Overdue(bytes[..n], contentSince, cap, t, windowMs) ==> !Overdue(bytes, contentSince, cap, t, windowMs)
    ensures (forall i :: n <= i < |bytes| ==> t < bytes[i]) ==>
      Quiet(bytes[..n], t, windowMs) == Quiet(bytes, t, windowMs)
  {
    assert forall b :: b in bytes[..n] ==> b in bytes;
    if forall i :: n <= i < |bytes| ==> t < bytes[i] {
      forall b | b in bytes && b <= t
        ensures b in bytes[..n]
      {
        var i :| 0 <= i < |bytes| && bytes[i] == b;
        assert b == bytes[..n][i];
      }
    }
  }

  /**
   * What one read promises. Without local work it times out exactly when the bound is first overdue at or after its
   * initial deadline, and before the record; work in progress when a timer fires re-arms it for another `budgetMs`, and
   * from then on the deadline is exact again (`armed` is the deadline of the last such timer).
   */
  ghost predicate ReadIsExact(bytes: seq<int>, contentSince: int, cap: Option<int>, localWork: int -> bool, start: int,
                              budgetMs: int, windowMs: int, record: Settlement, end: ReadEnd, at: int, armed: int)
  {
    && start <= at && start + budgetMs <= armed
    && (armed == start + budgetMs || (start + budgetMs <= armed - budgetMs <= at && localWork(armed - budgetMs)))
    && (end.Arrived? ==>
          at == record.at
          && forall t :: armed <= t && !Beats(record, t) ==> !Overdue(bytes, contentSince, cap, t, windowMs))
    && (end.TimedOut? ==>
          !Beats(record, at) && !localWork(at) && FirstOverdue(bytes, contentSince, cap, windowMs, armed, at)
          && (end.verdict.Expire? <==> Quiet(bytes, at, windowMs))
          && (end.verdict.KeepAliveExhausted? <==> !Quiet(bytes, at, windowMs)))
  }

  method ReadNext(liveness: TransportLiveness, bytes: seq<int>, noted: nat, localWork: int -> bool,
                  start: int, budgetMs: int, windowMs: int, record: Settlement)
    returns (end: ReadEnd, at: int, n: nat, armed: int)
    requires Ascending(bytes) && Noted(liveness, bytes, noted, start) && start <= record.at
    requires budgetMs >= 1 && windowMs >= 1
    modifies liveness`lastActivityAt, liveness`heard
    ensures Noted(liveness, bytes, n, at) && forall i :: n <= i < |bytes| ==> at < bytes[i]
    ensures ReadIsExact(bytes, liveness.contentSilenceSince, liveness.keepAliveTimeoutMs, localWork, start, budgetMs,
                        windowMs, record, end, at, armed)
  {
    at, n, armed := start, noted, start + budgetMs;
    ghost var cap := liveness.keepAliveTimeoutMs;
    ghost var since := liveness.contentSilenceSince;
    var deadline := armed;
    while !Beats(record, deadline)
      invariant Noted(liveness, bytes, n, at) && liveness.contentSilenceSince == since
      invariant start <= at < deadline && start + budgetMs <= armed <= deadline && at <= record.at
      invariant armed == start + budgetMs ||
        (start + budgetMs <= armed - budgetMs <= at && localWork(armed - budgetMs))
      invariant forall t :: armed <= t < deadline ==> !Overdue(bytes, since, cap, t, windowMs)
      decreases record.at - deadline
    {
      n := DeliverBytes(liveness, bytes, n, at, deadline);
      at := deadline;
      if localWork(deadline) {
        deadline := deadline + budgetMs;
        armed := deadline;
        continue;
      }
      LaterBytesDoNotCount(bytes, n, since, cap, deadline, windowMs);
      var verdict := liveness.OnSilenceDeadline(deadline, windowMs);
      if !verdict.Extend? {
        return TimedOut(verdict), deadline, n, armed;
      }
      forall t | deadline <= t < deadline + verdict.delayMs
        ensures !Overdue(bytes, since, cap, t, windowMs)
      {
        LaterBytesDoNotCount(bytes, n, since, cap, t, windowMs);
      }
      deadline := deadline + verdict.delayMs;
    }
    n := DeliverBytes(liveness, bytes, n, at, record.at);
    return Arrived, record.at, n, armed;
  }

  predicate NoWork(now: int) {
    false
  }

  /** Without bytes and local work a read simply gets `budgetMs`. */
  lemma QuietRead(contentSince: int, cap: Option<int>, start: int, budgetMs: int, windowMs: int, record: Settlement,
                  end: ReadEnd, at: int, armed: int)
    requires ReadIsExact([], contentSince, cap, NoWork, start, budgetMs, windowMs, record, end, at, armed)
    ensures end.TimedOut? <==> record.at > start + budgetMs || (record.at == start + budgetMs && !record.first)
    ensures at == if end.TimedOut? then start + budgetMs else record.at
  {
    assert Overdue([], contentSince, cap, armed, windowMs);
  }

  /**
   * Without local work the lazily extended timer is the eager one: the read times out if and only if the record does not
   * come before the instant the eager timer, cut short by the keep-alive cap, would fire, and it times out at that
   * instant, so never later than the initial deadline or the cap, whichever is later.
   */
  lemma {:induction false} ReadRefinesEagerTimer(bytes: seq<int>, contentSince: int, cap: Option<int>,
                                                 localWork: int -> bool, start: int, budgetMs: int, windowMs: int,
                                                 record: Settlement, end: ReadEnd, at: int, armed: int)
    requires Ascending(bytes) && windowMs >= 1 && forall t :: start <= t ==> !localWork(t)
    requires budgetMs >= 1
    requires ReadIsExact(bytes, contentSince, cap, localWork, start, budgetMs, windowMs, record, end, at, armed)
    ensures var from := start + budgetMs;
      var eager := EagerDeadline(bytes, windowMs, from);
      var deadline := if cap == None then eager else Min(eager, Max(from, contentSince + cap.value));
      && (end.TimedOut? <==> record.at > deadline || (record.at == deadline && !record.first))
      && at == (if end.TimedOut? then deadline else record.at)
      && (end.TimedOut? && cap.Some? ==> at <= Max(from, contentSince + cap.value))
  {
    var from := start + budgetMs;
    var eager := EagerDeadline(bytes, windowMs, from);
    var deadline := if cap == None then eager else Min(eager, Max(from, contentSince + cap.value));
    LazyRefinesEager(bytes, contentSince, cap, windowMs, from, at);
    LazyRefinesEager(bytes, contentSince, cap, windowMs, from, deadline);
  }

  // ---------------------------------------------------------------- the reads of one stream

  class AssistantEventReader {
    const idleTimeoutMs: Option<int>
    const startTimeoutMs: Option<int>
    const configuredStartTimeoutMs: Option<int>
    const liveness: TransportLiveness
    var sawFirstEvent: bool
    var silentMs: int

    constructor (idleTimeoutMs: Option<int>, startTimeoutMs: Option<int>, configuredStartTimeoutMs: Option<int>,
                 liveness: TransportLiveness)
      ensures this.idleTimeoutMs == idleTimeoutMs && this.startTimeoutMs == startTimeoutMs
      ensures this.configuredStartTimeoutMs == configuredStartTimeoutMs && this.liveness == liveness
      ensures !sawFirstEvent && silentMs == 0
    {
      this.idleTimeoutMs, this.startTimeoutMs := idleTimeoutMs, startTimeoutMs;
      this.configuredStartTimeoutMs, this.liveness := configuredStartTimeoutMs, liveness;
      sawFirstEvent, silentMs := false, 0;
    }

    predicate Valid()
      reads this`silentMs
    {
      && silentMs >= 0
      && (idleTimeoutMs.Some? ==> idleTimeoutMs.value >= 1)
      && (startTimeoutMs.Some? ==> startTimeoutMs.value >= 1)
      && (configuredStartTimeoutMs.Some? ==> configuredStartTimeoutMs.value >= 1)
    }

    /** The bound on the next read, before what earlier progress records used of it, and the window of its silence. */
    function Bound(): (r: Option<(int, int)>)
      reads this`sawFirstEvent
    {
      if !sawFirstEvent && startTimeoutMs.Some? then
        Some((startTimeoutMs.value,
              if configuredStartTimeoutMs.Some? then configuredStartTimeoutMs.value else startTimeoutMs.value))
      else if idleTimeoutMs.Some? then Some((idleTimeoutMs.value, idleTimeoutMs.value))
      else None
    }

    /**
     * Reads one record. Progress records leave the bound running: what they took is taken off the next read. Only a public
     * event or the end of the stream starts it afresh, and only a public event counts as content for the keep-alive cap.
     */
    method Next(bytes: seq<int>, noted: nat, localWork: int -> bool, start: int, record: Settlement)
      returns (end: ReadEnd, at: int, n: nat, armed: int)
      requires Valid() && Ascending(bytes) && Noted(liveness, bytes, noted, start) && start <= record.at
      modifies this`sawFirstEvent, this`silentMs, liveness
      ensures Valid() && Noted(liveness, bytes, n, at) && forall i :: n <= i < |bytes| ==> at < bytes[i]
      ensures old(Bound()) == None ==> end.Arrived? && at == record.at
      ensures old(Bound()).Some? ==>
        ReadIsExact(bytes, old(liveness.contentSilenceSince), liveness.keepAliveTimeoutMs, localWork, start,
                    Max(1, old(Bound()).value.0 - old(silentMs)), old(Bound()).value.1, record, end, at, armed)
      ensures (silentMs, sawFirstEvent) ==
        if end.TimedOut? || record.kind.Failure? then (old(silentMs), old(sawFirstEvent))
        else if record.kind.Progress? then (old(silentMs) + at - start, old(sawFirstEvent))
        else (0, old(sawFirstEvent) || record.kind.PublicEvent?)
      ensures liveness.contentSilenceSince ==
        if end.Arrived? && record.kind.PublicEvent? then at else old(liveness.contentSilenceSince)
    {
      var useStartBound := !sawFirstEvent && startTimeoutMs != None;
      var readTimeoutMs := if useStartBound then startTimeoutMs else idleTimeoutMs;
      if readTimeoutMs == None {
        n := DeliverBytes(liveness, bytes, noted, start, record.at);
        end, at, armed := Arrived, record.at, start;
      } else {
        var windowMs :=
          if useStartBound && configuredStartTimeoutMs != None then configuredStartTimeoutMs.value
          else readTimeoutMs.value;
        end, at, n, armed := ReadNext(liveness, bytes, noted, localWork, start,
                                      Max(1, readTimeoutMs.value - silentMs), windowMs, record);
      }
      if end.TimedOut? || record.kind.Failure? {
        return;
      }
      if record.kind.Progress? {
        silentMs := silentMs + (at - start);
      } else {
        silentMs := 0;
        if record.kind.PublicEvent? {
          sawFirstEvent := true;
          liveness.ContentArrived(at);
        }
      }
    }
  }

  // ---------------------------------------------------------------- the start budget

  class PreStreamBound {
    const startedAt: int
    const startTimeoutMs: Option<int>
    const idleTimeoutMs: Option<int>

    constructor (startTimeoutMs: Option<int>, idleTimeoutMs: Option<int>, now: int)
      ensures this.startTimeoutMs == startTimeoutMs && this.idleTimeoutMs == idleTimeoutMs && startedAt == now
    {
      this.startTimeoutMs, this.idleTimeoutMs, startedAt := startTimeoutMs, idleTimeoutMs, now;
    }

    function Remaining(now: int): Option<int> {
      if startTimeoutMs == None then idleTimeoutMs else Some(Max(0, startTimeoutMs.value - (now - startedAt)))
    }

    /** Runs one step before the stream; with a start bound, no step outlives the bound shared by all of them. */
    method RunStep(now: int, work: Settlement) returns (timedOut: bool, at: int)
      requires now <= work.at
      ensures timedOut <==>
        && Remaining(now).Some?
        && var due := now + Remaining(now).value; work.at > due || (work.at == due && !work.first)
      ensures at == if timedOut then now + Remaining(now).value else work.at
      ensures startTimeoutMs.Some? && now <= startedAt + startTimeoutMs.value ==>
        at <= startedAt + startTimeoutMs.value && (timedOut ==> at == startedAt + startTimeoutMs.value)
    {
      var budget := Remaining(now);
      if budget == None || Beats(work, now + budget.value) {
        return false, work.at;
      }
      return true, now + budget.value;
    }

    function RemainingStartMs(now: int): Option<int> {
      if startTimeoutMs == None then None else Some(Max(1, Remaining(now).value))
    }
  }

  /** A step, or a record of the stream, that takes `ms`; `pauseMs` is what the consumer of the stream took before it. */
  datatype Wait = Wait(ms: nat, first: bool, kind: Kind, pauseMs: nat)

  predicate InTime(w: Wait, budgetMs: int) {
    w.ms < budgetMs || (w.ms == budgetMs && w.first)
  }

  /** How long the steps take together, and whether the bound ended them. */
  function StepsWait(startMs: int, elapsed: int, steps: seq<Wait>): (int, bool)
    decreases |steps|
  {
    if steps == [] then (elapsed, false)
    else if !InTime(steps[0], Max(0, startMs - elapsed)) then (elapsed + Max(0, startMs - elapsed), true)
    else StepsWait(startMs, elapsed + steps[0].ms, steps[1..])
  }

  /** How long reads wait until one ends the start phase; a read that nothing reaches in time uses up its bound. */
  function ReadsWait(boundMs: int, silentMs: int, records: seq<Wait>): (int, bool)
    decreases |records|
  {
    var budget := Max(1, boundMs - silentMs);
    if records == [] || !InTime(records[0], budget) then (budget, true)
    else if !records[0].kind.Progress? then (records[0].ms, false)
    else
      var rest := ReadsWait(boundMs, silentMs + records[0].ms, records[1..]);
      (records[0].ms + rest.0, rest.1)
  }

  /** No read starts when earlier progress records have already used up the whole bound. */
  predicate NeverSpent(boundMs: int, silentMs: int, records: seq<Wait>)
    decreases |records|
  {
    && silentMs < boundMs
    && (records != [] && InTime(records[0], Max(1, boundMs - silentMs)) && records[0].kind.Progress? ==>
          NeverSpent(boundMs, silentMs + records[0].ms, records[1..]))
  }

  lemma {:induction false} StepsStayInBudget(startMs: int, elapsed: int, steps: seq<Wait>)
    requires 0 <= elapsed <= startMs
    ensures elapsed <= StepsWait(startMs, elapsed, steps).0 <= startMs
    ensures StepsWait(startMs, elapsed, steps).1 ==> StepsWait(startMs, elapsed, steps).0 == startMs
    decreases |steps|
  {
    if steps != [] && InTime(steps[0], Max(0, startMs - elapsed)) {
      StepsStayInBudget(startMs, elapsed + steps[0].ms, steps[1..]);
    }
  }

  /**
   * Progress records between reads never lengthen the wait: as long as no read starts with its bound already spent, the
   * reads end within it; and a wait that times out takes exactly the bound if and only if no read started so.
   */
  lemma {:induction false} ReadsStayInBudget(boundMs: int, silentMs: int, records: seq<Wait>)
    requires boundMs >= 1 && silentMs >= 0
    ensures NeverSpent(boundMs, silentMs, records) ==> silentMs + ReadsWait(boundMs, silentMs, records).0 <= boundMs
    ensures ReadsWait(boundMs, silentMs, records).1 ==>
      (NeverSpent(boundMs, silentMs, records) <==> silentMs + ReadsWait(boundMs, silentMs, records).0 == boundMs)
    ensures silentMs >= boundMs && ReadsWait(boundMs, silentMs, records).1 ==>
      silentMs + ReadsWait(boundMs, silentMs, records).0 > boundMs
    decreases |records|
  {
    if records != [] && InTime(records[0], Max(1, boundMs - silentMs)) && records[0].kind.Progress? {
      ReadsStayInBudget(boundMs, silentMs + records[0].ms, records[1..]);
    }
  }

  /** The whole start phase: how long it takes and whether a bound ended it. */
  function StartPhase(startMs: int, steps: seq<Wait>, records: seq<Wait>): (int, bool) {
    var before := StepsWait(startMs, 0, steps);
    if before.1 then before
    else
      var after := ReadsWait(Max(1, startMs - before.0), 0, records);
      (before.0 + after.0, after.1)
  }

  /** The silence that earlier progress records have left when the last read starts, and how long that read takes. */
  function LastRead(boundMs: int, silentMs: int, records: seq<Wait>): (int, int)
    decreases |records|
  {
    var budget := Max(1, boundMs - silentMs);
    if records == [] || !InTime(records[0], budget) then (silentMs, budget)
    else if !records[0].kind.Progress? then (silentMs, records[0].ms)
    else LastRead(boundMs, silentMs + records[0].ms, records[1..])
  }

  lemma {:induction false} WaitEndsWithLastRead(boundMs: int, silentMs: int, records: seq<Wait>)
    requires boundMs >= 1 && silentMs >= 0
    ensures var (silence, ms) := LastRead(boundMs, silentMs, records);
      && silentMs <= silence && silentMs + ReadsWait(boundMs, silentMs, records).0 == silence + ms
      && 0 <= ms <= Max(1, boundMs - silence)
    decreases |records|
  {
    if records != [] && InTime(records[0], Max(1, boundMs - silentMs)) && records[0].kind.Progress? {
      WaitEndsWithLastRead(boundMs, silentMs + records[0].ms, records[1..]);
    }
  }

  /**
   * The start budget is shared, however the time is split between the steps and the reads: the start phase ends within
   * `startMs` and one millisecond if and only if its last read starts within `startMs`, or one millisecond later and ends
   * at once.
   */
  lemma {:induction false} StartBudgetIsShared(startMs: int, steps: seq<Wait>, records: seq<Wait>)
    requires startMs >= 1
    ensures var before := StepsWait(startMs, 0, steps);
      var (silence, ms) := LastRead(Max(1, startMs - before.0), 0, records);
      && before.0 <= startMs
      && (StartPhase(startMs, steps, records).0 <= startMs + 1 <==>
            before.1 || before.0 + silence <= startMs || (before.0 + silence == startMs + 1 && ms == 0))
  {
    StepsStayInBudget(startMs, 0, steps);
    WaitEndsWithLastRead(Max(1, startMs - StepsWait(startMs, 0, steps).0), 0, records);
  }

  /** Progress records that win at the very instant their read is due, `n` of them at the one-millisecond floor. */
  function OnTheWire(n: nat): (records: seq<Wait>)
    ensures |records| == n && forall i :: 0 <= i < n ==> records[i] == Wait(1, true, Progress, 0)
  {
    seq(n, i => Wait(1, true, Progress, 0))
  }

  lemma {:induction false} FloorReads(boundMs: int, silentMs: int, n: nat)
    requires boundMs >= 1 && silentMs >= boundMs
    ensures ReadsWait(boundMs, silentMs, OnTheWire(n)) == (n + 1, true)
    decreases n
  {
    if n > 0 {
      assert OnTheWire(n)[1..] == OnTheWire(n - 1);
      FloorReads(boundMs, silentMs + 1, n - 1);
    }
  }

  /**
   * The exception is real for every start bound: one progress record at the very instant the first read is due, and then
   * one after every millisecond, keep the start phase waiting `n` milliseconds beyond the promise.
   */
  lemma {:induction false} FloorIsNotABound(startMs: nat, n: nat)
    requires startMs >= 1
    ensures StartPhase(startMs, [], [Wait(startMs, true, Progress, 0)] + OnTheWire(n)) == (startMs + 1 + n, true)
  {
    var records := [Wait(startMs, true, Progress, 0)] + OnTheWire(n);
    assert records[1..] == OnTheWire(n);
    FloorReads(startMs, startMs, n);
  }

  /** The steps before the stream, one after another. */
  method RunSteps(preStream: PreStreamBound, startMs: int, steps: seq<Wait>) returns (elapsed: int, timedOut: bool)
    requires startMs >= 1 && preStream.startTimeoutMs == Some(startMs)
    ensures (elapsed, timedOut) == StepsWait(startMs, 0, steps)
  {
    elapsed := 0;
    for i := 0 to |steps|
      invariant 0 <= elapsed && StepsWait(startMs, elapsed, steps[i..]) == StepsWait(startMs, 0, steps)
    {
      var now := preStream.startedAt + elapsed;
      var late, at := preStream.RunStep(now, Settlement(now + steps[i].ms, steps[i].first, steps[i].kind));
      elapsed := at - preStream.startedAt;
      if late {
        return elapsed, true;
      }
    }
    timedOut := false;
  }

  /** One read of the start phase, with no bytes and no local work. */
  method ReadQuietly(reader: AssistantEventReader, boundMs: int, now: int, record: Settlement)
    returns (timedOut: bool, at: int)
    requires reader.Valid() && !reader.sawFirstEvent && reader.startTimeoutMs == Some(boundMs)
    requires Noted(reader.liveness, [], 0, now) && now <= record.at
    modifies reader, reader.liveness
    ensures var deadline := now + Max(1, boundMs - old(reader.silentMs));
      timedOut == !Beats(record, deadline) && at == if timedOut then deadline else record.at
    ensures reader.Valid() && Noted(reader.liveness, [], 0, at)
    ensures !timedOut && record.kind.Progress? ==>
      !reader.sawFirstEvent && reader.silentMs == old(reader.silentMs) + at - now
  {
    ghost var since, budget := reader.liveness.contentSilenceSince, Max(1, boundMs - reader.silentMs);
    var end, at', _, armed := reader.Next([], 0, NoWork, now, record);
    QuietRead(since, reader.liveness.keepAliveTimeoutMs, now, budget, old(reader.Bound()).value.1,
              record, end, at', armed);
    timedOut, at := end.TimedOut?, at';
  }

  /** Reads until a public event, the end of the stream, a failure or the bound ends the start phase. */
  method ReadUntilFirstEvent(reader: AssistantEventReader, boundMs: int, from: int, records: seq<Wait>)
    returns (waited: int, timedOut: bool)
    requires reader.Valid() && !reader.sawFirstEvent && reader.silentMs == 0 && reader.startTimeoutMs == Some(boundMs)
    requires Noted(reader.liveness, [], 0, from)
    modifies reader, reader.liveness
    ensures (waited, timedOut) == ReadsWait(boundMs, 0, records)
  {
    waited := 0;
    var now := from;
    for i := 0 to |records|
      invariant reader.Valid() && !reader.sawFirstEvent && reader.silentMs == waited && Noted(reader.liveness, [], 0, now)
      invariant ReadsWait(boundMs, 0, records).1 == ReadsWait(boundMs, waited, records[i..]).1
      invariant ReadsWait(boundMs, 0, records).0 == waited + ReadsWait(boundMs, waited, records[i..]).0
    {
      now := now + records[i].pauseMs;
      var record := Settlement(now + records[i].ms, records[i].first, records[i].kind);
      var late, at := ReadQuietly(reader, boundMs, now, record);
      waited := waited + (at - now);
      if late || !records[i].kind.Progress? {
        return waited, late;
      }
      now := at;
    }
    var late, at := ReadQuietly(reader, boundMs, now, Settlement(now + waited + Max(1, boundMs) + 1, false, EndOfStream));
    waited, timedOut := waited + (at - now), late;
  }

  /** The start phase as it runs, when the transport sends no bytes and no local work is in progress. */
  method WaitForFirstEvent(startMs: int, idleTimeoutMs: Option<int>, keepAliveTimeoutMs: Option<int>, startedAt: int,
                           steps: seq<Wait>, records: seq<Wait>)
    returns (waited: int, timedOut: bool)
    requires startMs >= 1 && (idleTimeoutMs.Some? ==> idleTimeoutMs.value >= 1)
    ensures (waited, timedOut) == StartPhase(startMs, steps, records)
  {
    var preStream := new PreStreamBound(Some(startMs), idleTimeoutMs, startedAt);
    waited, timedOut := RunSteps(preStream, startMs, steps);
    if timedOut {
      return;
    }
    var liveness := new TransportLiveness(keepAliveTimeoutMs, startedAt);
    var now := startedAt + waited;
    var reader := new AssistantEventReader(idleTimeoutMs, preStream.RemainingStartMs(now), Some(startMs), liveness);
    var inReads, late := ReadUntilFirstEvent(reader, reader.startTimeoutMs.value, now, records);
    waited, timedOut := waited + inReads, late;
  }
}
