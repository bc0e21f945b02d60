/** Pending OIDC logins: Start purges what has expired, Consume takes an entry out; purging is never seen. */
module LoginFlow {
  import opened Basics

  datatype Pending = Pending(state: string, nonce: string, verifier: string, expiresAt: int)

  function Purged(pending: map<string, Pending>, now: int): map<string, Pending> {
    map k | k in pending && pending[k].expiresAt > now :: pending[k]
  }

  /** What Consume answers. */
  function Answer(pending: map<string, Pending>, state: string, now: int): Option<Pending> {
    if state in pending && pending[state].expiresAt > now then Some(pending[state]) else None
  }

  // ----- histories

  /** `at` is the clock when the lock is held; Start has read `now` no later than that. */
  datatype Event =
    | Started(state: string, nonce: string, verifier: string, now: int, at: int)
    | Consumed(state: string, at: int)

  function Entry(ttl: int, e: Event): Pending
    requires e.Started?
  {
    Pending(e.state, e.nonce, e.verifier, e.now + ttl)
  }

  /** The pending map after a history. */
  function Run(ttl: int, trace: seq<Event>): map<string, Pending> {
    if trace == [] then map[]
    else
      var before, e := Run(ttl, trace[..|trace| - 1]), trace[|trace| - 1];
      match e
      case Started(state, _, _, now, _) => Purged(before, now)[state := Entry(ttl, e)]
      case Consumed(state, _) => before - {state}
  }

  /** The same without purging: every start that has not been consumed since. */
  function Full(ttl: int, trace: seq<Event>): map<string, Pending> {
    if trace == [] then map[]
    else
      var before, e := Full(ttl, trace[..|trace| - 1]), trace[|trace| - 1];
      match e
      case Started(state, _, _, _, _) => before[state := Entry(ttl, e)]
      case Consumed(state, _) => before - {state}
  }

  /** The clock never runs backwards, and ends no later than `at`. */
  ghost predicate Monotone(trace: seq<Event>, at: int) {
    && (forall i, j :: 0 <= i < j < |trace| ==> trace[i].at <= trace[j].at)
    && (forall i :: 0 <= i < |trace| ==> trace[i].at <= at && (trace[i].Started? ==> trace[i].now <= trace[i].at))
  }

  lemma MonotoneFront(trace: seq<Event>, at: int)
    requires trace != [] && Monotone(trace, at)
    ensures Monotone(trace[..|trace| - 1], trace[|trace| - 1].at)
  {}

  /** The purged map holds the full map's entries, all but some that have expired. */
  ghost predicate Covers(pending: map<string, Pending>, full: map<string, Pending>, at: int) {
    && (forall k :: k in pending ==> k in full && pending[k] == full[k])
    && (forall k :: k in full && k !in pending ==> full[k].expiresAt <= at)
  }

  lemma {:induction false} PurgedCovers(ttl: int, trace: seq<Event>, at: int)
    requires Monotone(trace, at)
    ensures Covers(Run(ttl, trace), Full(ttl, trace), at)
  {
    if trace != [] {
      MonotoneFront(trace, at);
      PurgedCovers(ttl, trace[..|trace| - 1], trace[|trace| - 1].at);
    }
  }

  /** Purging in Start is unobservable: after any history Consume answers as if nothing had ever been purged. */
  lemma PurgeUnobservable(ttl: int, trace: seq<Event>, state: string, at: int)
    requires Monotone(trace, at)
    ensures Answer(Run(ttl, trace), state, at) == Answer(Full(ttl, trace), state, at)
  {
    PurgedCovers(ttl, trace, at);
  }

  ghost predicate IssuedAt(trace: seq<Event>, i: int, state: string) {
    0 <= i < |trace| && trace[i].Started? && trace[i].state == state
  }

  /** Start number `i` issued this state and nothing has touched it since. */
  ghost predicate Outstanding(trace: seq<Event>, i: int, state: string) {
    IssuedAt(trace, i, state) && forall j :: i < j < |trace| ==> trace[j].state != state
  }

  lemma {:induction false} OutstandingKept(ttl: int, trace: seq<Event>, i: int, state: string)
    requires Outstanding(trace, i, state)
    ensures state in Full(ttl, trace) && Full(ttl, trace)[state] == Entry(ttl, trace[i])
  {
    if i < |trace| - 1 {
      var front := trace[..|trace| - 1];
      assert forall j :: 0 <= j < |front| ==> front[j] == trace[j];
      OutstandingKept(ttl, front, i, state);
    }
  }

  lemma {:induction false} KeptIsOutstanding(ttl: int, trace: seq<Event>, state: string) returns (i: int)
    requires state in Full(ttl, trace)
    ensures Outstanding(trace, i, state)
  {
    i := |trace| - 1;
    if trace[i].state != state {
      var front := trace[..|trace| - 1];
      i := KeptIsOutstanding(ttl, front, state);
      assert forall j :: 0 <= j < |front| ==> front[j] == trace[j];
    }
  }

  /** States are random, so no two starts share one. */
  ghost predicate FreshStates(trace: seq<Event>) {
    forall i, j :: 0 <= i < j < |trace| && trace[i].Started? && trace[j].Started? ==> trace[i].state != trace[j].state
  }

  ghost predicate ConsumedAfter(trace: seq<Event>, i: int, state: string) {
    exists j :: i < j < |trace| && 0 <= j && trace[j].Consumed? && trace[j].state == state
  }

  lemma FreshOutstanding(trace: seq<Event>, i: int, state: string)
    requires FreshStates(trace) && IssuedAt(trace, i, state)
    ensures Outstanding(trace, i, state) <==> !ConsumedAfter(trace, i, state)
  {}

  /** Consume succeeds exactly for a state that was issued, not consumed since, and has not expired, with its values. */
  lemma ConsumeExact(ttl: int, trace: seq<Event>, i: int, state: string, at: int)
    requires Monotone(trace, at) && FreshStates(trace)
    requires IssuedAt(trace, i, state)
    ensures Answer(Run(ttl, trace), state, at) ==
      if !ConsumedAfter(trace, i, state) && trace[i].now + ttl > at
      then Some(Pending(state, trace[i].nonce, trace[i].verifier, trace[i].now + ttl)) else None
  {
    PurgeUnobservable(ttl, trace, state, at);
    FreshOutstanding(trace, i, state);
    if Outstanding(trace, i, state) {
      OutstandingKept(ttl, trace, i, state);
    } else if state in Full(ttl, trace) {
      var k := KeptIsOutstanding(ttl, trace, state);
    }
  }

  /** A state that was never issued, or was just consumed, is refused. */
  lemma ConsumeRefuses(ttl: int, trace: seq<Event>, state: string, at: int)
    requires Monotone(trace, at)
    ensures (forall i :: !IssuedAt(trace, i, state)) ==> Answer(Run(ttl, trace), state, at).None?
    ensures forall later :: Answer(Run(ttl, trace + [Consumed(state, at)]), state, later).None?
  {
    PurgeUnobservable(ttl, trace, state, at);
    if state in Full(ttl, trace) {
      var k := KeptIsOutstanding(ttl, trace, state);
      assert IssuedAt(trace, k, state);
    }
    assert (trace + [Consumed(state, at)])[..|trace|] == trace;
  }

  // ----- the flow object

  class Flow {
    const ttl: int
    var pending: map<string, Pending>
    ghost var history: seq<Event>

    ghost predicate Valid()
      reads this
    {
      pending == Run(ttl, history)
    }

    constructor (ttl: int)
      ensures Valid() && this.ttl == ttl && history == []
    {
      this.ttl, pending, history := ttl, map[], [];
    }

    method Purge(now: int)
      modifies `pending
      ensures pending == Purged(old(pending), now)
    {
      var keys := pending.Keys;
      while keys != {}
        invariant keys <= old(pending).Keys
        invariant pending ==
          map k | k in old(pending) && (k in keys || old(pending)[k].expiresAt > now) :: old(pending)[k]
        decreases |keys|
      {
        var key :| key in keys;
        if pending[key].expiresAt <= now { pending := pending - {key}; }
        keys := keys - {key};
      }
    }

    /** The random values come in as arguments; `now` was read before the lock was taken at `at`. */
    method Start(state: string, nonce: string, verifier: string, now: int, ghost at: int)
      requires Valid()
      modifies this
      ensures Valid() && history == old(history) + [Started(state, nonce, verifier, now, at)]
    {
      Purge(now);
      pending := pending[state := Pending(state, nonce, verifier, now + ttl)];
      history := history + [Started(state, nonce, verifier, now, at)];
      assert history[..|history| - 1] == old(history);
    }

    /** On a monotone clock the answer is the one the unpurged history gives. */
    method Consume(state: string, now: int) returns (r: Option<Pending>)
      requires Valid()
      modifies this
      ensures Valid() && history == old(history) + [Consumed(state, now)]
      ensures r == Answer(Run(ttl, old(history)), state, now)
      ensures Monotone(old(history), now) ==> r == Answer(Full(ttl, old(history)), state, now)
    {
      var found := if state in pending then Some(pending[state]) else None;
      pending := pending - {state};
      r := if found.None? || found.value.expiresAt <= now then None else found;
      if Monotone(history, now) { PurgeUnobservable(ttl, history, state, now); }
      history := history + [Consumed(state, now)];
      assert history[..|history| - 1] == old(history);
    }
  }
}
