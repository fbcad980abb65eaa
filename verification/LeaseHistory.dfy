/** Exclusion by the root lease, read off the event log of any interleaving. */
module LeaseHistory {
  import opened Wrappers
  import opened RunRecords
  import opened RunStore
  import opened Protocol
  import opened JournalInvariants
  import opened JournalCommits
  import opened JournalTheorems
  import Lifecycle

  predicate IsLeaseEvent(kind: EventKind) {
    kind.LeaseAcquired? || kind.LeaseReleased? || kind.LeaseTakeover?
  }

  /** Position of the last lease event. */
  function LastLease(events: seq<RunEvent>): (last: Option<nat>)
    ensures last.Some? ==> last.value < |events| && IsLeaseEvent(events[last.value].kind)
    ensures last.Some? ==> forall i :: last.value < i < |events| ==> !IsLeaseEvent(events[i].kind)
    ensures last.None? ==> forall i :: 0 <= i < |events| ==> !IsLeaseEvent(events[i].kind)
  {
    if events == [] then None
    else if IsLeaseEvent(events[|events| - 1].kind) then Some(|events| - 1)
    else LastLease(events[..|events| - 1])
  }

  /** The lease in the table is the one the last lease event granted. */
  predicate LeaseOk(run: RunState) {
    match LastLease(run.events)
    case None => run.lease == None
    case Some(m) =>
      var event := run.events[m];
      if event.kind.LeaseReleased? then run.lease == None
      else
        && run.lease.Some?
        && run.lease.value.id == event.kind.leaseId
        && run.lease.value.acquiredAt == event.recordedAt
        && run.lease.value.expiresAt == event.recordedAt + ROOT_LEASE_TTL_MS
  }

  /** Acquisitions among events[from..end]. */
  function Acquisitions(events: seq<RunEvent>, from: nat, end: nat): nat
    requires from <= end <= |events|
    decreases end
  {
    if from == end then 0
    else Acquisitions(events, from, end - 1) + if events[end - 1].kind.LeaseAcquired? then 1 else 0
  }

  /** Neither released nor taken over strictly between two positions. */
  predicate Undisturbed(events: seq<RunEvent>, i: nat, j: nat)
    requires j <= |events|
  {
    forall k :: i < k < j ==> !events[k].kind.LeaseReleased? && !events[k].kind.LeaseTakeover?
  }

  predicate SpacedAt(events: seq<RunEvent>, i: nat, j: nat)
    requires i < j < |events|
  {
    (events[i].kind.LeaseAcquired? || events[i].kind.LeaseTakeover?)
    && events[j].kind.LeaseAcquired?
    && Undisturbed(events, i, j)
    ==> events[j].recordedAt - events[i].recordedAt >= ROOT_LEASE_TTL_MS * Acquisitions(events, i + 1, j + 1)
  }

  ghost predicate Spaced(events: seq<RunEvent>) {
    forall i, j :: 0 <= i < j < |events| ==> SpacedAt(events, i, j)
  }

  lemma {:induction false} AcquisitionsOfAppend(events: seq<RunEvent>, event: RunEvent, from: nat, end: nat)
    requires from <= end <= |events|
    ensures Acquisitions(events + [event], from, end) == Acquisitions(events, from, end)
    decreases end
  {
    if from < end {
      AcquisitionsOfAppend(events, event, from, end - 1);
    }
  }

  lemma {:induction false} NoAcquisitions(events: seq<RunEvent>, from: nat, middle: nat, end: nat)
    requires from <= middle <= end <= |events|
    requires forall k :: middle <= k < end ==> !events[k].kind.LeaseAcquired?
    ensures Acquisitions(events, from, end) == Acquisitions(events, from, middle)
    decreases end
  {
    if middle < end {
      NoAcquisitions(events, from, middle, end - 1);
    }
  }

  /** A granted lease adds one more span of the TTL to every undisturbed stretch it ends. */
  lemma AcquireKeepsSpacing(run: RunState, event: RunEvent, i: nat)
    requires LeaseOk(run) && Spaced(run.events) && i < |run.events|
    requires event.kind.LeaseAcquired?
    requires run.lease.Some? ==> run.lease.value.expiresAt <= event.recordedAt
    ensures SpacedAt(run.events + [event], i, |run.events|)
  {
    var n := |run.events|;
    var events' := run.events + [event];
    if (events'[i].kind.LeaseAcquired? || events'[i].kind.LeaseTakeover?) && Undisturbed(events', i, n) {
      var m := LastLease(run.events).value;
      assert forall k :: 0 <= k < n ==> events'[k] == run.events[k];
      assert i <= m && run.lease.Some? && run.lease.value.acquiredAt == run.events[m].recordedAt;
      assert Acquisitions(events', i + 1, n + 1) == Acquisitions(events', i + 1, n) + 1;
      NoAcquisitions(events', i + 1, m + 1, n);
      AcquisitionsOfAppend(run.events, event, i + 1, m + 1);
      if i < m {
        assert Undisturbed(run.events, i, m);
        assert SpacedAt(run.events, i, m);
      }
    }
  }

  lemma AppendKeepsSpacing(run: RunState, event: RunEvent)
    requires LeaseOk(run) && Spaced(run.events)
    requires event.kind.LeaseAcquired? && run.lease.Some? ==> run.lease.value.expiresAt <= event.recordedAt
    ensures Spaced(run.events + [event])
  {
    var events' := run.events + [event];
    forall i, j | 0 <= i < j < |events'| ensures SpacedAt(events', i, j) {
      if j < |run.events| {
        assert SpacedAt(run.events, i, j);
        AcquisitionsOfAppend(run.events, event, i + 1, j + 1);
        assert Undisturbed(events', i, j) ==> Undisturbed(run.events, i, j) by {
          assert forall k :: i < k < j ==> events'[k] == run.events[k];
        }
      } else if event.kind.LeaseAcquired? {
        AcquireKeepsSpacing(run, event, i);
      }
    }
  }

  lemma LastLeaseOfAppend(events: seq<RunEvent>, event: RunEvent)
    ensures LastLease(events + [event]) == if IsLeaseEvent(event.kind) then Some(|events|) else LastLease(events)
  {
    assert (events + [event])[..|events|] == events;
  }

  /** What a committed request does to the lease. */
  lemma CommitLease(run: RunState, snapshot: RunState, request: Request, recordId: Id, eventId: Id, intent: Intent)
    requires Compute(snapshot, request, recordId, eventId) == Ok(intent)
    requires Commit(run, intent).error.None?
    ensures IsLeaseEvent(KindOf(request, recordId)) <==>
              request.AcquireLease? || request.ReleaseLease? || request.TakeOverLease?
    ensures Commit(run, intent).state.lease ==
            match request
            case AcquireLease(owner, now) => Some(AcquireRootLease(recordId, owner, now))
            case ReleaseLease(_, _) => None
            case TakeOverLease(owner, _, now) => Some(AcquireRootLease(recordId, owner, now))
            case _ => run.lease
    ensures request.AcquireLease? && run.lease.Some? ==> run.lease.value.IsExpired(request.now)
  {
  }

  lemma CommitKeepsLease(s: Sys, c: Id)
    requires Inv(s) && Commits(s, Persist(c)) && LeaseOk(s.run) && Spaced(s.run.events)
    ensures LeaseOk(Exec(s, Persist(c)).run) && Spaced(Exec(s, Persist(c)).run.events)
  {
    var call := s.calls[c];
    var event := call.intent.event;
    WinningFacts(s, c);
    CommittedOnSnapshot(s, c);
    ComputedKind(call.snapshot, call.request, c + 1, c + 2);
    CommitLease(s.run, call.snapshot, call.request, c + 1, c + 2, call.intent);
    AppendKeepsSpacing(s.run, event);
    LastLeaseOfAppend(s.run.events, event);
  }

  lemma {:induction false} LeaseInvariant(now: int, steps: seq<Step>)
    ensures LeaseOk(Run(now, steps).run) && Spaced(Run(now, steps).run.events)
  {
    if steps == [] {
      LastLeaseOfAppend([], Init(now).run.events[0]);
      assert [] + [Init(now).run.events[0]] == Init(now).run.events;
    } else {
      var s := Run(now, steps[..|steps| - 1]);
      var step := steps[|steps| - 1];
      LeaseInvariant(now, steps[..|steps| - 1]);
      RunKeeps(now, steps[..|steps| - 1]);
      if Commits(s, step) {
        CommitKeepsLease(s, step.call);
      } else {
        DriftingStep(s, step);
      }
    }
  }

  /** Exclusion over whole runs, however the calls interleave and whatever clocks they bring: from
      one granted lease to a later acquisition with no release and no takeover between them, every
      acquisition on the way took a full TTL. */
  lemma AcquisitionsAreSpaced(now: int, steps: seq<Step>, i: nat, j: nat)
    requires i < j < |Run(now, steps).run.events|
    requires var events := Run(now, steps).run.events;
             && (events[i].kind.LeaseAcquired? || events[i].kind.LeaseTakeover?)
             && events[j].kind.LeaseAcquired?
             && Undisturbed(events, i, j)
    ensures var events := Run(now, steps).run.events;
            events[j].recordedAt - events[i].recordedAt >= 30000 * Acquisitions(events, i + 1, j + 1)
  {
    LeaseInvariant(now, steps);
    assert SpacedAt(Run(now, steps).run.events, i, j);
  }

  /** A held lease is taken over only when its owner was confirmed gone and no effect was claimed,
      dispatched or unknown; between the check and the commit an effect can only have been claimed
      by a claim that left no log entry. */
  lemma TakeoverIsSafe(s: Sys, c: Id)
    requires Inv(s) && Commits(s, Persist(c)) && s.calls[c].request.TakeOverLease? && s.run.lease.Some?
    ensures s.calls[c].request.priorOwnerGone
    ensures |s.calls[c].snapshot.effects| == |s.run.effects|
    ensures forall i :: 0 <= i < |s.run.effects| ==>
              s.run.effects[i].Quiet() || (s.run.effects[i].phase.Claimed? && s.calls[c].snapshot.effects[i].phase.Prepared?)
  {
    CommittedOnSnapshot(s, c);
    var snapshot := s.calls[c].snapshot;
    assert !Lifecycle.AnyUnresolved(snapshot.effects);
    forall i | 0 <= i < |s.run.effects|
      ensures s.run.effects[i].Quiet() || (s.run.effects[i].phase.Claimed? && snapshot.effects[i].phase.Prepared?)
    {
      assert s.run.effects[i] == snapshot.effects[i] || ClaimedFrom(snapshot.effects[i], s.run.effects[i]);
      assert !snapshot.effects[i].Unresolved();
      assert s.run.effects[i].WellShaped();
      Lifecycle.QuietOrUnresolved(s.run.effects[i]);
    }
  }
}
