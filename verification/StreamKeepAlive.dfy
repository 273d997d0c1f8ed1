/**
 * Transport liveness of one provider request (packages/agent/src/stream-keepalive.ts:32-54), and the silence deadline it
 * defines. Time is whole milliseconds of one monotone clock.
 */
module StreamKeepAlive {
  import opened Numbers
  import opened Options

  // ---------------------------------------------------------------- what counts as silence

  ghost predicate Ascending(instants: seq<int>) {
    forall i, j :: 0 <= i < j < |instants| ==> instants[i] <= instants[j]
  }

  /** No byte arrived within the `windowMs` before `now`; a byte at `now` itself was noticed. */
  ghost predicate Quiet(bytes: seq<int>, now: int, windowMs: int) {
    forall b :: b in bytes ==> !(now - windowMs < b <= now)
  }

  /** The silence bound may not be extended at `now`: the transport is quiet, or keep-alives have used up their budget. */
  ghost predicate Overdue(bytes: seq<int>, contentSince: int, cap: Option<int>, now: int, windowMs: int) {
    Quiet(bytes, now, windowMs) || (cap.Some? && now >= contentSince + cap.value)
  }

  ghost predicate FirstOverdue(bytes: seq<int>, contentSince: int, cap: Option<int>, windowMs: int, from: int, at: int) {
    && from <= at && Overdue(bytes, contentSince, cap, at, windowMs)
    && forall t :: from <= t < at ==> !Overdue(bytes, contentSince, cap, t, windowMs)
  }

  // ---------------------------------------------------------------- the eager timer

  /** The deadline of a timer that every byte arriving in time pushes to `windowMs` after it. */
  ghost function EagerDeadline(bytes: seq<int>, windowMs: int, from: int): int {
    if bytes == [] then from
    else
      var deadline, b := EagerDeadline(bytes[..|bytes| - 1], windowMs, from), bytes[|bytes| - 1];
      if b <= deadline && deadline < b + windowMs then b + windowMs else deadline
  }

  lemma QuietWithoutBytes(now: int, windowMs: int)
    ensures Quiet([], now, windowMs)
  {}

  lemma QuietWithOneMore(rest: seq<int>, b: int, now: int, windowMs: int)
    ensures Quiet(rest + [b], now, windowMs) <==> Quiet(rest, now, windowMs) && !(now - windowMs < b <= now)
  {
    var bytes := rest + [b];
    assert bytes[|rest|] == b;
    if Quiet(bytes, now, windowMs) {
      assert b in bytes && forall c :: c in rest ==> c in bytes;
      assert Quiet(rest, now, windowMs);
    } else {
      var c :| c in bytes && now - windowMs < c <= now;
      assert c in rest || c == b;
    }
  }

  lemma QuietAfterAll(bytes: seq<int>, windowMs: int)
    requires Ascending(bytes) && bytes != [] && windowMs > 0
    ensures Quiet(bytes, bytes[|bytes| - 1] + windowMs, windowMs)
  {}

  lemma {:induction false} EagerIsFirstQuiet(bytes: seq<int>, windowMs: int, from: int)
    requires Ascending(bytes) && windowMs > 0
    ensures FirstOverdue(bytes, 0, None, windowMs, from, EagerDeadline(bytes, windowMs, from))
    decreases |bytes|
  {
    hide Quiet;
    if bytes == [] {
      QuietWithoutBytes(from, windowMs);
    } else {
      var rest, b := bytes[..|bytes| - 1], bytes[|bytes| - 1];
      var deadline := EagerDeadline(rest, windowMs, from);
      EagerIsFirstQuiet(rest, windowMs, from);
      assert bytes == rest + [b];
      forall t
        ensures Quiet(bytes, t, windowMs) <==> Quiet(rest, t, windowMs) && !(t - windowMs < b <= t)
      {
        QuietWithOneMore(rest, b, t, windowMs);
      }
      QuietAfterAll(bytes, windowMs);
      forall t | from <= t < deadline
        ensures !Quiet(bytes, t, windowMs)
      {
        assert !Overdue(rest, 0, None, t, windowMs);
      }
    }
  }

  /**
   * The instant a lazily extended timer may fire for good is the eager timer's, cut short only by the keep-alive cap, and
   * is therefore never later than the cap allows.
   */
  lemma {:induction false} LazyRefinesEager(bytes: seq<int>, contentSince: int, cap: Option<int>, windowMs: int,
                                            from: int, at: int)
    requires Ascending(bytes) && windowMs > 0
    ensures FirstOverdue(bytes, contentSince, cap, windowMs, from, at) <==>
      at == (var eager := EagerDeadline(bytes, windowMs, from);
             if cap == None then eager else Min(eager, Max(from, contentSince + cap.value)))
    ensures cap.Some? && FirstOverdue(bytes, contentSince, cap, windowMs, from, at) ==>
      at <= Max(from, contentSince + cap.value)
  {
    EagerIsFirstQuiet(bytes, windowMs, from);
    var eager := EagerDeadline(bytes, windowMs, from);
    assert Overdue(bytes, 0, None, eager, windowMs);
    forall t | from <= t < eager
      ensures !Quiet(bytes, t, windowMs)
    {
      assert !Overdue(bytes, 0, None, t, windowMs);
    }
    var first := if cap == None then eager else Min(eager, Max(from, contentSince + cap.value));
    assert FirstOverdue(bytes, contentSince, cap, windowMs, from, first);
    if FirstOverdue(bytes, contentSince, cap, windowMs, from, at) {
      assert !(at < first) && !(first < at);
    }
  }

  // ---------------------------------------------------------------- the liveness object

  datatype SilenceVerdict = Expire | Extend(delayMs: int) | KeepAliveExhausted(timeoutMs: int)

  class TransportLiveness {
    const keepAliveTimeoutMs: Option<int>
    var lastActivityAt: Option<int>
    var contentSilenceSince: int
    ghost var heard: seq<int>

    ghost predicate Valid()
      reads this
    {
      && Ascending(heard)
      && lastActivityAt == (if heard == [] then None else Some(heard[|heard| - 1]))
    }

    constructor (keepAliveTimeoutMs: Option<int>, now: int)
      ensures Valid() && heard == [] && contentSilenceSince == now && this.keepAliveTimeoutMs == keepAliveTimeoutMs
    {
      this.keepAliveTimeoutMs := keepAliveTimeoutMs;
      lastActivityAt := None;
      contentSilenceSince := now;
      heard := [];
    }

    method NoteActivity(now: int)
      requires Valid() && forall b :: b in heard ==> b <= now
      modifies this`lastActivityAt, this`heard
      ensures Valid() && heard == old(heard) + [now]
    {
      assert forall i :: 0 <= i < |heard| ==> heard[i] in heard;
      lastActivityAt := Some(now);
      heard := heard + [now];
    }

    method ContentArrived(now: int)
      modifies this`contentSilenceSince
      ensures contentSilenceSince == now
    {
      contentSilenceSince := now;
    }

    /** Only an overdue bound ends the request, and an extension lasts exactly until the bound is next overdue. */
    method OnSilenceDeadline(now: int, windowMs: int) returns (verdict: SilenceVerdict)
      requires Valid() && windowMs > 0 && forall b :: b in heard ==> b <= now
      ensures verdict.Expire? <==> Quiet(heard, now, windowMs)
      ensures verdict.KeepAliveExhausted? <==>
        !Quiet(heard, now, windowMs) && Overdue(heard, contentSilenceSince, keepAliveTimeoutMs, now, windowMs)
      ensures verdict.KeepAliveExhausted? ==> verdict.timeoutMs == keepAliveTimeoutMs.value
      ensures verdict.Extend? ==>
        verdict.delayMs >= 1
        && FirstOverdue(heard, contentSilenceSince, keepAliveTimeoutMs, windowMs, now, now + verdict.delayMs)
    {
      if lastActivityAt == None || now - lastActivityAt.value >= windowMs {
        return Expire;
      }
      ghost var last := heard[|heard| - 1];
      assert last in heard && forall b :: b in heard ==> b <= last;
      var delayMs := windowMs - (now - lastActivityAt.value);
      assert forall t :: now <= t < now + delayMs ==> !Quiet(heard, t, windowMs);
      if keepAliveTimeoutMs == None {
        return Extend(delayMs);
      }
      var keepAliveLeftMs := keepAliveTimeoutMs.value - (now - contentSilenceSince);
      if keepAliveLeftMs <= 0 {
        return KeepAliveExhausted(keepAliveTimeoutMs.value);
      }
      verdict := Extend(Max(1, Min(delayMs, keepAliveLeftMs)));
    }
  }
}
