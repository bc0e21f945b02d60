/** The Kubernetes Executor's recovery cache: two durable buckets, and the restart code that reads them. */
module K8sCache {
  import opened Basics
  import opened Order

  type TaskId = string
  type EventId = string

  datatype EventType = Running | Finished | Failed

  /** The wire envelope of a task event. */
  datatype Envelope = Envelope(
    eventId: EventId, teamId: string, taskId: TaskId, executorId: string,
    eventType: EventType, occurredAt: string, payload: string)

  datatype Delivery = Pending | Accepted

  /** `EventOutboxRecord`: an envelope and its delivery state. */
  datatype OutboxRecord = OutboxRecord(envelope: Envelope, delivery: Delivery)

  datatype AssignmentState = Claiming | Claimed | InProgress | Ended(eventType: EventType)

  datatype Assignment = Assignment(
    taskId: TaskId, teamId: string, ownerCommandId: string, resolvedImage: string,
    runtimeRef: string, conversationId: string, state: AssignmentState)

  type Assignments = map<TaskId, Assignment>
  type Outbox = map<EventId, OutboxRecord>

  /** A listed Pod: its name and its command-id label, if it carries one. */
  datatype PodState = PodState(name: string, commandLabel: Option<string>)

  // ---- What the buckets hold after each operation ----

  /** `UpdateOutboxState` to accepted: an error when the record is missing. */
  function AcceptRecord(outbox: Outbox, id: EventId): Option<Outbox> {
    if id in outbox then Some(outbox[id := outbox[id].(delivery := Accepted)]) else None
  }

  /** The same when the caller ignores the error: a missing record or a failed write changes nothing. */
  function AcceptEvent(outbox: Outbox, id: EventId, written: bool): Outbox {
    if id in outbox && written then AcceptRecord(outbox, id).value else outbox
  }

  function PutEvent(outbox: Outbox, rec: OutboxRecord, written: bool): Outbox {
    if rec.envelope.eventId != "" && written then outbox[rec.envelope.eventId := rec] else outbox
  }

  function PutRecord(all: Assignments, rec: Assignment, written: bool): Assignments {
    if rec.taskId != "" && written then all[rec.taskId := rec] else all
  }

  function DropRecord(all: Assignments, t: TaskId, written: bool): Assignments {
    if written then all - {t} else all
  }

  predicate Terminal(rec: Assignment) { rec.state.Ended? }

  /** Some listed Pod carries the record's non-empty command id. */
  predicate Labelled(rec: Assignment, pods: seq<PodState>) {
    rec.ownerCommandId != "" && exists i :: 0 <= i < |pods| && pods[i].commandLabel == Some(rec.ownerCommandId)
  }

  predicate Kept(rec: Assignment, pods: seq<PodState>) { Terminal(rec) || Labelled(rec, pods) }

  /** The bucket after reconciliation; `stuck` are the tasks whose delete fails, which the source ignores. */
  function Reconciled(all: Assignments, pods: seq<PodState>, stuck: set<TaskId>): Assignments {
    map t | t in all && (Kept(all[t], pods) || t in stuck) :: all[t]
  }

  /** The records to reconnect, in the order of `keys`. */
  function Resumable(keys: seq<TaskId>, all: Assignments, pods: seq<PodState>): seq<Assignment>
    requires forall k :: k in keys ==> k in all
  {
    if keys == [] then []
    else
      var rec := all[keys[0]];
      (if !Terminal(rec) && Labelled(rec, pods) then [rec] else []) + Resumable(keys[1..], all, pods)
  }

  /** `strings.SplitN(ref, "@", 2)`, accepted only with two non-empty halves. */
  function SplitRef(ref: string): Option<(string, string)> {
    match SplitAt(ref)
    case None => None
    case Some((name, uid)) => if name == "" || uid == "" then None else Some((name, uid))
  }

  /** The text before and after the first `@`. */
  function SplitAt(ref: string): Option<(string, string)> {
    if ref == "" then None
    else if ref[0] == '@' then Some(("", ref[1..]))
    else match SplitAt(ref[1..])
      case None => None
      case Some((name, uid)) => Some(([ref[0]] + name, uid))
  }

  // ---- The store ----

  class Store {
    var assignments: Assignments
    var outbox: Outbox

    /** Every record sits under its own key, and no key is empty. */
    ghost predicate Valid()
      reads this
    {
      && (forall t :: t in assignments ==> t != "" && assignments[t].taskId == t)
      && (forall e :: e in outbox ==> e != "" && outbox[e].envelope.eventId == e)
    }

    constructor ()
      ensures Valid() && assignments == map[] && outbox == map[]
    {
      assignments, outbox := map[], map[];
    }

    /** `written` is false when the database transaction fails. */
    method PutAssignment(rec: Assignment, written: bool) returns (ok: bool)
      requires Valid()
      modifies this`assignments
      ensures Valid() && (ok <==> rec.taskId != "" && written)
      ensures assignments == PutRecord(old(assignments), rec, written)
    {
      ok := rec.taskId != "" && written;
      if ok { assignments := assignments[rec.taskId := rec]; }
    }

    method DeleteAssignment(t: TaskId, written: bool) returns (ok: bool)
      requires Valid()
      modifies this`assignments
      ensures Valid() && ok == written
      ensures assignments == DropRecord(old(assignments), t, written)
    {
      ok := written;
      if ok { assignments := assignments - {t}; }
    }

    method PutOutbox(rec: OutboxRecord, written: bool) returns (ok: bool)
      requires Valid()
      modifies this`outbox
      ensures Valid() && (ok <==> rec.envelope.eventId != "" && written)
      ensures outbox == PutEvent(old(outbox), rec, written)
    {
      ok := rec.envelope.eventId != "" && written;
      if ok { outbox := outbox[rec.envelope.eventId := rec]; }
    }

    method MarkAccepted(id: EventId, written: bool) returns (ok: bool)
      requires Valid()
      modifies this`outbox
      ensures Valid() && (ok <==> id in old(outbox) && written)
      ensures outbox == AcceptEvent(old(outbox), id, written)
    {
      ok := id in outbox && written;
      if ok { outbox := outbox[id := outbox[id].(delivery := Accepted)]; }
    }

    /** The pending envelopes, in key order. */
    method PendingOutbox() returns (pending: seq<Envelope>)
      requires Valid()
      ensures IsPendingList(pending, outbox)
    {
      var keys := SortedKeys(outbox.Keys);
      pending := [];
      ghost var done: set<EventId> := {};
      for i := 0 to |keys|
        invariant done == set k | k in keys[..i]
        invariant Lists(Ids(pending), set e | e in done && e in outbox && outbox[e].delivery == Pending)
        invariant forall j :: 0 <= j < |pending| ==>
          && pending[j].eventId in done && pending[j].eventId in outbox
          && outbox[pending[j].eventId].envelope == pending[j]
      {
        var e := keys[i];
        assert e in keys;
        assert forall k :: k in done ==> Less(k, e);
        done := done + {e};
        assert keys[..i + 1] == keys[..i] + [e];
        if outbox[e].delivery == Pending {
          ghost var before := Ids(pending);
          pending := pending + [outbox[e].envelope];
          assert Ids(pending) == before + [e];
        }
      }
    }
  }

  function Ids(envelopes: seq<Envelope>): (ids: seq<EventId>)
    ensures |ids| == |envelopes|
    ensures forall i :: 0 <= i < |ids| ==> ids[i] == envelopes[i].eventId
  {
    seq(|envelopes|, i requires 0 <= i < |envelopes| => envelopes[i].eventId)
  }

  function PendingIds(outbox: Outbox): set<EventId> {
    set e | e in outbox && outbox[e].delivery == Pending
  }

  /** Every pending envelope, in key order. */
  ghost predicate IsPendingList(pending: seq<Envelope>, outbox: Outbox) {
    && Lists(Ids(pending), PendingIds(outbox))
    && (forall i :: 0 <= i < |pending| ==>
          pending[i].eventId in outbox && outbox[pending[i].eventId].envelope == pending[i])
  }

  // ---- Restart reconciliation ----

  /** The command ids that label some listed Pod. */
  method IndexPods(pods: seq<PodState>) returns (byCommand: set<string>)
    ensures forall rec: Assignment :: rec.ownerCommandId in byCommand <==> Labelled(rec, pods)
  {
    byCommand := {};
    for i := 0 to |pods|
      invariant forall id :: id in byCommand <==> id != "" && exists j :: 0 <= j < i && pods[j].commandLabel == Some(id)
    {
      if pods[i].commandLabel.Some? && pods[i].commandLabel.value != "" {
        byCommand := byCommand + {pods[i].commandLabel.value};
      }
    }
  }

  /** The bucket once the records of `seen` have been looked at. */
  function Swept(all: Assignments, pods: seq<PodState>, stuck: set<TaskId>, seen: set<TaskId>): Assignments {
    map t | t in all && (t !in seen || Kept(all[t], pods) || t in stuck) :: all[t]
  }

  lemma SweepOne(all: Assignments, pods: seq<PodState>, stuck: set<TaskId>, seen: set<TaskId>, t: TaskId)
    requires t in all
    ensures Swept(all, pods, stuck, seen + {t}) ==
              if Kept(all[t], pods) || t in stuck then Swept(all, pods, stuck, seen)
              else Swept(all, pods, stuck, seen) - {t}
  {}

  lemma {:induction false} ResumableSnoc(keys: seq<TaskId>, t: TaskId, all: Assignments, pods: seq<PodState>)
    requires t in all && forall k :: k in keys ==> k in all
    ensures Resumable(keys + [t], all, pods) ==
              Resumable(keys, all, pods) + if !Terminal(all[t]) && Labelled(all[t], pods) then [all[t]] else []
    decreases |keys|
  {
    if keys == [] {
      assert [t][1..] == [];
    } else {
      assert (keys + [t])[1..] == keys[1..] + [t];
      ResumableSnoc(keys[1..], t, all, pods);
    }
  }

  /** One record of the reconciliation loop: skip it, keep it for reconnecting, or drop it. */
  method Visit(store: Store, rec: Assignment, labelled: bool, written: bool) returns (resume: bool)
    requires store.Valid()
    modifies store`assignments
    ensures store.Valid() && (resume <==> !Terminal(rec) && labelled)
    ensures store.assignments ==
              if Terminal(rec) || labelled || !written then old(store.assignments)
              else old(store.assignments) - {rec.taskId}
  {
    if Terminal(rec) { return false; }
    if labelled { return true; }
    var _ := store.DeleteAssignment(rec.taskId, written);
    return false;
  }

  /**
   * `Reconcile` on a configured namespace: the records to reconnect, in key order, and the bucket rid of every
   * non-terminal record no listed Pod answers for, save those whose delete failed.
   */
  method Reconcile(store: Store, pods: seq<PodState>, stuck: set<TaskId>)
      returns (out: seq<Assignment>, ghost keys: seq<TaskId>)
    requires store.Valid()
    modifies store`assignments
    ensures store.Valid()
    ensures Lists(keys, old(store.assignments).Keys)
    ensures out == Resumable(keys, old(store.assignments), pods)
    ensures store.assignments == Reconciled(old(store.assignments), pods, stuck)
  {
    var all := store.assignments;
    var order := SortedKeys(all.Keys);
    keys := order;
    var byCommand := IndexPods(pods);
    ghost var seen: set<TaskId> := {};
    out := [];
    for i := 0 to |order|
      invariant store.Valid()
      invariant forall k :: k in seen <==> k in order[..i]
      invariant out == Resumable(order[..i], all, pods)
      invariant store.assignments == Swept(all, pods, stuck, seen)
    {
      var t := order[i];
      assert t in order;
      assert order[..i + 1] == order[..i] + [t];
      ResumableSnoc(order[..i], t, all, pods);
      SweepOne(all, pods, stuck, seen, t);
      seen := seen + {t};
      var resume := Visit(store, all[t], all[t].ownerCommandId in byCommand, t !in stuck);
      if resume { out := out + [all[t]]; }
    }
    assert order[..|order|] == order;
  }

  // ---- Retrying the outbox ----

  /** The bucket with the records of `ids` marked accepted. */
  function AcceptAll(outbox: Outbox, ids: set<EventId>): Outbox {
    map e | e in outbox :: if e in ids then outbox[e].(delivery := Accepted) else outbox[e]
  }

  lemma AcceptOne(outbox: Outbox, ids: set<EventId>, id: EventId)
    requires id in outbox
    ensures AcceptRecord(AcceptAll(outbox, ids), id) == Some(AcceptAll(outbox, ids + {id}))
  {
    assert AcceptRecord(AcceptAll(outbox, ids), id).value == AcceptAll(outbox, ids + {id});
  }

  /**
   * `retryPendingOutbox`: posts a prefix of the pending envelopes, unchanged and in key order, and marks accepted
   * exactly those whose post (`replies`) and cache write (`written`) succeeded. No error means none is left pending.
   */
  method RetryPendingOutbox(store: Store, replies: EventId -> bool, written: EventId -> bool)
    returns (ok: bool, posted: seq<Envelope>, ghost pending: seq<Envelope>)
    requires store.Valid()
    modifies store`outbox
    ensures store.Valid()
    ensures IsPendingList(pending, old(store.outbox))
    ensures posted <= pending
    ensures ok <==> forall i :: 0 <= i < |pending| ==> Delivered(pending[i], replies, written)
    ensures ok ==> posted == pending && PendingIds(store.outbox) == {}
    ensures forall i :: 0 <= i < |posted| && !Delivered(posted[i], replies, written) ==> i == |posted| - 1
    ensures store.outbox == AcceptAll(old(store.outbox), DeliveredIds(posted, replies, written))
  {
    var todo := store.PendingOutbox();
    pending := todo;
    posted := [];
    ghost var was := store.outbox;
    ghost var done: set<EventId> := {};
    for i := 0 to |todo|
      invariant store.Valid() && posted == todo[..i]
      invariant done == FirstIds(todo, i)
      invariant store.outbox == AcceptAll(was, done)
      invariant forall j :: 0 <= j < i ==> Delivered(todo[j], replies, written)
    {
      posted := posted + [todo[i]];
      assert posted == todo[..i + 1];
      if !replies(todo[i].eventId) {
        DeliveredPrefix(todo, i, i + 1, replies, written);
        return false, posted, pending;
      }
      var marked := store.MarkAccepted(todo[i].eventId, written(todo[i].eventId));
      if !marked {
        DeliveredPrefix(todo, i, i + 1, replies, written);
        return false, posted, pending;
      }
      AcceptOne(was, done, todo[i].eventId);
      FirstIdsStep(todo, i);
      done := FirstIds(todo, i + 1);
    }
    DeliveredPrefix(todo, |todo|, |todo|, replies, written);
    AllAccepted(was, todo, done);
    ok := true;
  }

  predicate Delivered(e: Envelope, replies: EventId -> bool, written: EventId -> bool) {
    replies(e.eventId) && written(e.eventId)
  }

  ghost function DeliveredIds(posted: seq<Envelope>, replies: EventId -> bool, written: EventId -> bool): set<EventId> {
    set i | 0 <= i < |posted| && Delivered(posted[i], replies, written) :: posted[i].eventId
  }

  ghost function FirstIds(todo: seq<Envelope>, n: nat): set<EventId>
    requires n <= |todo|
  {
    set j | 0 <= j < n :: todo[j].eventId
  }

  lemma FirstIdsStep(todo: seq<Envelope>, n: nat)
    requires n < |todo|
    ensures FirstIds(todo, n + 1) == FirstIds(todo, n) + {todo[n].eventId}
  {}

  lemma DeliveredPrefix(todo: seq<Envelope>, n: nat, m: nat, replies: EventId -> bool, written: EventId -> bool)
    requires n <= m <= |todo| && forall j :: 0 <= j < n ==> Delivered(todo[j], replies, written)
    requires forall j :: n <= j < m ==> !Delivered(todo[j], replies, written)
    ensures DeliveredIds(todo[..m], replies, written) == FirstIds(todo, n)
  {
    var posted := todo[..m];
    forall j | 0 <= j < n ensures todo[j].eventId in DeliveredIds(posted, replies, written) {
      assert posted[j] == todo[j];
    }
  }

  lemma AllAccepted(outbox: Outbox, pending: seq<Envelope>, done: set<EventId>)
    requires Lists(Ids(pending), PendingIds(outbox))
    requires done == FirstIds(pending, |pending|)
    ensures PendingIds(AcceptAll(outbox, done)) == {}
  {
    forall e | e in PendingIds(outbox) ensures e in done {
      assert e in Ids(pending);
      var j :| 0 <= j < |Ids(pending)| && Ids(pending)[j] == e;
      assert pending[j].eventId == e;
    }
  }

  // ---- What reconciliation means ----

  lemma {:induction false} ResumableExact(keys: seq<TaskId>, all: Assignments, pods: seq<PodState>)
    requires forall k :: k in keys ==> k in all && all[k].taskId == k
    requires Ascending(keys)
    ensures var out := Resumable(keys, all, pods);
            && (forall rec: Assignment :: rec in out <==>
                  rec.taskId in keys && all[rec.taskId] == rec && !Terminal(rec) && Labelled(rec, pods))
            && (forall i, j :: 0 <= i < j < |out| ==> Less(out[i].taskId, out[j].taskId))
    decreases |keys|
  {
    if keys != [] {
      ResumableExact(keys[1..], all, pods);
      var rest := Resumable(keys[1..], all, pods);
      forall i | 0 <= i < |rest| ensures Less(keys[0], rest[i].taskId) {
        assert rest[i] in rest;
        assert rest[i].taskId in keys[1..];
      }
      assert keys == [keys[0]] + keys[1..];
    }
  }

  /**
   * With every delete succeeding the bucket keeps exactly the resumable and the terminal records, and a second pass
   * changes nothing.
   */
  lemma ReconcileSettles(
      all: Assignments, pods: seq<PodState>, keys: seq<TaskId>, keys': seq<TaskId>, stuck: set<TaskId>)
    requires forall t :: t in all ==> all[t].taskId == t
    requires Lists(keys, all.Keys) && Lists(keys', Reconciled(all, pods, {}).Keys)
    ensures var after := Reconciled(all, pods, {});
            && (forall t :: t in after <==> t in all && (Terminal(all[t]) || all[t] in Resumable(keys, all, pods)))
            && Reconciled(after, pods, stuck) == after
            && Resumable(keys', after, pods) == Resumable(keys, all, pods)
  {
    var after := Reconciled(all, pods, {});
    ResumableExact(keys, all, pods);
    Survivors(keys, all, pods, keys');
  }

  /** Listing the survivors gives the same records as listing everything. */
  lemma {:induction false} Survivors(keys: seq<TaskId>, all: Assignments, pods: seq<PodState>, keys': seq<TaskId>)
    requires Ascending(keys) && Ascending(keys') && (forall k :: k in keys ==> k in all)
    requires forall k :: k in keys' <==> k in keys && Kept(all[k], pods)
    ensures forall k :: k in keys' ==> k in Reconciled(all, pods, {})
    ensures Resumable(keys', Reconciled(all, pods, {}), pods) == Resumable(keys, all, pods)
    decreases |keys|
  {
    if keys == [] {
      ListingSize(keys', {});
    } else {
      var s := set k | k in keys && Kept(all[k], pods);
      assert Lists(keys', s);
      var k0 := keys[0];
      LessTotal(k0, k0);
      assert keys == [k0] + keys[1..];
      if Kept(all[k0], pods) {
        assert k0 in keys';
        assert keys'[0] in keys;
        FirstIsLeast(keys, keys');
        assert keys' == [k0] + keys'[1..];
        assert forall i :: 0 < i < |keys'| ==> keys'[i] != k0;
        assert forall i :: 0 < i < |keys| ==> keys[i] != k0;
        forall k ensures k in keys'[1..] <==> k in keys[1..] && Kept(all[k], pods) {
          assert k in keys[1..] ==> k in keys && k != k0;
          assert k in keys'[1..] ==> k in keys' && k != k0;
        }
        Survivors(keys[1..], all, pods, keys'[1..]);
      } else {
        Survivors(keys[1..], all, pods, keys');
      }
    }
  }

  lemma FirstIsLeast(keys: seq<TaskId>, keys': seq<TaskId>)
    requires Ascending(keys) && Ascending(keys') && keys != [] && keys[0] in keys'
    requires forall k :: k in keys' ==> k in keys
    ensures keys'[0] == keys[0]
  {
    assert keys'[0] in keys';
    var i :| 0 <= i < |keys| && keys[i] == keys'[0];
    var j :| 0 <= j < |keys'| && keys'[j] == keys[0];
    LessTotal(keys[0], keys[0]);
    if i > 0 && j > 0 {
      LessTransitive(keys[0], keys[i], keys'[j]);
    }
  }

  /** A reference written as name, `@`, uid splits back exactly when the name has no `@`. */
  lemma RefRoundTrip(name: string, uid: string)
    requires name != "" && uid != ""
    ensures SplitRef(name + "@" + uid) == Some((name, uid)) <==> '@' !in name
  {
    SplitFirst(name, uid);
  }

  lemma {:induction false} SplitFirst(name: string, uid: string)
    ensures SplitAt(name + "@" + uid).Some?
    ensures '@' !in SplitAt(name + "@" + uid).value.0
    ensures '@' !in name ==> SplitAt(name + "@" + uid) == Some((name, uid))
  {
    if name == "" {
      assert name + "@" + uid == "@" + uid;
      assert ("@" + uid)[1..] == uid;
    } else {
      assert (name + "@" + uid)[1..] == name[1..] + "@" + uid;
      SplitFirst(name[1..], uid);
      assert name == [name[0]] + name[1..];
    }
  }
}
