/** The `requestInProgress` / `deferred` flags that `syncIds` uses to avoid
    overlapping identity syncs, as a state machine with two steps: a call of
    `syncIds`, and the completion of a request it scheduled. The network
    request itself is an abstract event; the machine counts the requests
    scheduled and not yet completed.

    As written, a call made while a request is in progress sets `deferred`
    and then goes on to schedule a request anyway. `CallDebounced` is the
    variant that returns after setting `deferred`.

    `Complete` is a request that ends normally or by a caught `IOException`.
    A request ended by any other exception is `Abort`, which is not one of
    the events of `Run`: the lemmas at the end of the module say what
    follows it. */
module SyncIds {

  datatype SyncState = SyncState(
    requestInProgress: bool,
    deferred: bool,
    inFlight: nat,  // requests scheduled and not yet completed
    issued: nat     // requests scheduled so far
  )

  const Idle := SyncState(false, false, 0, 0)

  /** Which `syncIds` a completion re-invokes. */
  datatype Variant = AsWritten | Debounced

  /** `syncIds` as written: a busy call marks the sync as deferred, and every
      call sets `requestInProgress` and schedules a request. */
  function Call(s: SyncState): (t: SyncState)
    ensures t.requestInProgress
    ensures t.deferred <==> s.deferred || s.requestInProgress
    ensures t.inFlight == s.inFlight + 1 && t.issued == s.issued + 1
  {
    SyncState(true, s.deferred || s.requestInProgress, s.inFlight + 1, s.issued + 1)
  }

  /** `syncIds` with a return after `deferred = true`: a busy call only
      records that another sync is wanted. */
  function CallDebounced(s: SyncState): (t: SyncState)
    ensures t.requestInProgress
    ensures s.requestInProgress ==> t == s.(deferred := true)
    ensures !s.requestInProgress ==> t.deferred == s.deferred && t.inFlight == s.inFlight + 1 && t.issued == s.issued + 1
  {
    if s.requestInProgress then s.(deferred := true)
    else SyncState(true, s.deferred, s.inFlight + 1, s.issued + 1)
  }

  function Sync(v: Variant, s: SyncState): SyncState {
    match v
    case AsWritten => Call(s)
    case Debounced => CallDebounced(s)
  }

  /** A scheduled request finishing: `requestInProgress` is cleared, and a
      deferred sync is cleared and re-invoked. */
  function Complete(v: Variant, s: SyncState): (t: SyncState)
    requires s.inFlight > 0
    ensures !s.deferred ==> t == SyncState(false, false, s.inFlight - 1, s.issued)
    ensures s.deferred ==> t.requestInProgress && !t.deferred
    ensures s.deferred && v.AsWritten? ==> t.inFlight == s.inFlight && t.issued == s.issued + 1
  {
    var cleared := s.(requestInProgress := false, inFlight := s.inFlight - 1);
    if cleared.deferred then Sync(v, cleared.(deferred := false)) else cleared
  }

  /** What may happen next: a call of `syncIds`, or the completion of the
      oldest scheduled request. */
  datatype Event = SyncCalled | RequestDone

  /** The state after a run of events. A completion with nothing in flight
      cannot happen and is skipped. */
  function Run(v: Variant, s: SyncState, evs: seq<Event>): SyncState
    decreases |evs|
  {
    if |evs| == 0 then s
    else
      var next :=
        match evs[0]
        case SyncCalled => Sync(v, s)
        case RequestDone => if s.inFlight > 0 then Complete(v, s) else s;
      Run(v, next, evs[1..])
  }

  /** Lets every scheduled request (and every re-sync they trigger) finish. */
  function Drain(v: Variant, s: SyncState): SyncState
    decreases 2 * s.inFlight + (if s.deferred then 1 else 0)
  {
    if s.inFlight == 0 then s else Drain(v, Complete(v, s))
  }

  // ---------------------------------------------------------------------------
  // The flags as written
  // ---------------------------------------------------------------------------

  /** What the flags mean for the code as written: a deferred sync is only
      recorded while a request is in progress, and `requestInProgress` is
      only set while something is in flight. More than one may be. */
  ghost predicate Invariant(s: SyncState) {
    (s.deferred ==> s.requestInProgress) && (s.requestInProgress ==> s.inFlight > 0)
  }

  lemma {:induction false} InvariantKept(s: SyncState, evs: seq<Event>)
    requires Invariant(s)
    ensures Invariant(Run(AsWritten, s, evs))
    decreases |evs|
  {
    if |evs| > 0 {
      var next := match evs[0]
        case SyncCalled => Sync(AsWritten, s)
        case RequestDone => if s.inFlight > 0 then Complete(AsWritten, s) else s;
      assert Invariant(next);
      InvariantKept(next, evs[1..]);
    }
  }

  /** Once every request has finished the flags are clear, and exactly one
      more request was scheduled when a sync was deferred. */
  lemma {:induction false} DrainSettles(s: SyncState)
    requires Invariant(s)
    ensures Drain(AsWritten, s) == SyncState(false, false, 0, s.issued + if s.deferred then 1 else 0)
    decreases 2 * s.inFlight + (if s.deferred then 1 else 0)
  {
    if s.inFlight > 0 {
      DrainSettles(Complete(AsWritten, s));
    }
  }

  /** `n` calls in a row, with no request finishing in between. */
  function Burst(n: nat): seq<Event> {
    seq(n, _ => SyncCalled)
  }

  lemma {:induction false} BurstState(v: Variant, n: nat)
    ensures v.AsWritten? ==> Run(v, Idle, Burst(n)) == SyncState(n > 0, n >= 2, n, n)
    ensures v.Debounced? ==> Run(v, Idle, Burst(n)) == SyncState(n > 0, n >= 2, if n > 0 then 1 else 0, if n > 0 then 1 else 0)
  {
    BurstFrom(v, Idle, n);
  }

  lemma {:induction false} BurstFrom(v: Variant, s: SyncState, n: nat)
    requires s.inFlight == s.issued && s.inFlight <= 1 && (s.requestInProgress <==> s.inFlight == 1)
    requires s.deferred ==> s.requestInProgress
    ensures var t := Run(v, s, Burst(n));
      && (v.AsWritten? ==> t == SyncState(s.requestInProgress || n > 0, s.deferred || (s.requestInProgress && n > 0) || n >= 2,
                                          s.inFlight + n, s.issued + n))
      && (v.Debounced? ==> t == SyncState(s.requestInProgress || n > 0, s.deferred || (s.requestInProgress && n > 0) || n >= 2,
                                          if s.requestInProgress || n > 0 then 1 else 0, if s.requestInProgress || n > 0 then 1 else 0))
    decreases n
  {
    if n > 0 {
      assert Burst(n)[1..] == Burst(n - 1);
      var next := Sync(v, s);
      if v.AsWritten? {
        BurstAsWritten(next, n - 1);
      } else {
        BurstFrom(v, next, n - 1);
      }
    }
  }

  lemma {:induction false} BurstAsWritten(s: SyncState, n: nat)
    requires s.requestInProgress
    ensures Run(AsWritten, s, Burst(n)) == SyncState(true, s.deferred || n > 0, s.inFlight + n, s.issued + n)
    decreases n
  {
    if n > 0 {
      assert Burst(n)[1..] == Burst(n - 1);
      BurstAsWritten(Call(s), n - 1);
    }
  }

  /** As written, a burst of `n >= 2` calls has all `n` requests in flight
      at once and schedules `n + 1` requests in all. */
  lemma BurstOverlaps(n: nat)
    requires n >= 2
    ensures Run(AsWritten, Idle, Burst(n)).inFlight == n
    ensures Drain(AsWritten, Run(AsWritten, Idle, Burst(n))).issued == n + 1
  {
    BurstState(AsWritten, n);
    DrainSettles(Run(AsWritten, Idle, Burst(n)));
  }

  /** The smallest instance: two calls in a row put two requests in flight. */
  lemma TwoCallsOverlap()
    ensures Run(AsWritten, Idle, [SyncCalled, SyncCalled]).inFlight == 2
  {
    BurstOverlaps(2);
    assert Burst(2) == [SyncCalled, SyncCalled];
  }

  // ---------------------------------------------------------------------------
  // The debounced correction
  // ---------------------------------------------------------------------------

  /** With the early return, `requestInProgress` means exactly one request
      is in flight, and never more than one is. */
  ghost predicate DebouncedInvariant(s: SyncState) {
    (s.deferred ==> s.requestInProgress) && (s.requestInProgress <==> s.inFlight == 1) && s.inFlight <= 1
  }

  lemma {:induction false} AtMostOneInFlight(s: SyncState, evs: seq<Event>)
    requires DebouncedInvariant(s)
    ensures DebouncedInvariant(Run(Debounced, s, evs))
    ensures Run(Debounced, s, evs).inFlight <= 1
    decreases |evs|
  {
    if |evs| > 0 {
      var next := match evs[0]
        case SyncCalled => Sync(Debounced, s)
        case RequestDone => if s.inFlight > 0 then Complete(Debounced, s) else s;
      assert DebouncedInvariant(next);
      AtMostOneInFlight(next, evs[1..]);
    }
  }

  /** A deferred sync is still carried out: once everything has finished,
      exactly one more request was scheduled for it. */
  lemma {:induction false} DebouncedDrainSettles(s: SyncState)
    requires DebouncedInvariant(s)
    ensures Drain(Debounced, s) == SyncState(false, false, 0, s.issued + if s.deferred then 1 else 0)
    decreases 2 * s.inFlight + (if s.deferred then 1 else 0)
  {
    if s.inFlight > 0 {
      DebouncedDrainSettles(Complete(Debounced, s));
    }
  }

  /** With the early return, a burst of `n >= 2` calls schedules two
      requests in all, one at a time. */
  lemma DebouncedBurst(n: nat)
    requires n >= 2
    ensures Run(Debounced, Idle, Burst(n)).inFlight == 1
    ensures Drain(Debounced, Run(Debounced, Idle, Burst(n))).issued == 2
  {
    BurstState(Debounced, n);
    DebouncedDrainSettles(Run(Debounced, Idle, Burst(n)));
  }

  // ---------------------------------------------------------------------------
  // A request that ends by an exception other than `IOException`
  // ---------------------------------------------------------------------------

  /** The runnable catches only `IOException`. Any other exception leaves it
      before `requestInProgress = false` and before the deferred re-sync: the
      request is over, and both flags stay as they were. */
  function Abort(s: SyncState): (t: SyncState)
    requires s.inFlight > 0
    ensures t.inFlight == s.inFlight - 1 && t.issued == s.issued
    ensures t.requestInProgress == s.requestInProgress && t.deferred == s.deferred
  {
    s.(inFlight := s.inFlight - 1)
  }

  /** An abort of the only request in flight strands the flags:
      `requestInProgress` stays set with nothing in flight, and a deferred
      sync is not carried out. */
  lemma AbortStrands(s: SyncState)
    requires Invariant(s) && s.inFlight == 1
    ensures Abort(s).requestInProgress == s.requestInProgress && Abort(s).inFlight == 0
    ensures Drain(AsWritten, Abort(s)) == Abort(s)
  {
  }

  /** As written, the next call recovers from stranded flags: it schedules a
      request anyway, and since the stranded flag makes it defer as well,
      two requests follow in all, after which both flags are clear. */
  lemma AsWrittenRecovers(s: SyncState)
    requires s.requestInProgress && s.inFlight == 0
    ensures Drain(AsWritten, Call(s)) == SyncState(false, false, 0, s.issued + 2)
  {
    DrainSettles(Call(s));
  }

  /** With the early return, stranded flags are never cleared: whatever
      happens next, no request is scheduled again. */
  lemma {:induction false} DebouncedStaysStranded(s: SyncState, evs: seq<Event>)
    requires s.requestInProgress && s.inFlight == 0
    ensures Run(Debounced, s, evs).requestInProgress
    ensures Run(Debounced, s, evs).inFlight == 0
    ensures Run(Debounced, s, evs).issued == s.issued
    decreases |evs|
  {
    if |evs| > 0 {
      var next := match evs[0]
        case SyncCalled => Sync(Debounced, s)
        case RequestDone => s;
      assert next.requestInProgress && next.inFlight == 0 && next.issued == s.issued;
      DebouncedStaysStranded(next, evs[1..]);
    }
  }
}
