/** The decision taken when a run is opened again. */
module Resume {
  import opened Wrappers
  import opened RunRecords
  import opened RunStore
  import opened Protocol
  import opened JournalTheorems
  import opened JournalAudit
  import opened Canonical
  import opened HashedRecords
  import SerialRuns
  import RaceWitnesses

  datatype Decision =
    | Continue
    | RequireReapprovalOrAbandon
    | SkipConfirmedReplacement(effectId: Id)
    | RequireFreshGrant(expiredGrantId: Id)

  /** What is checked outside the journal. */
  datatype Outside = Outside(filesystemMatches: bool, policyMatches: bool, versionsMatch: bool)

  predicate CommittedReplacement(e: EffectRecord) {
    e.operationId == OP_CREATE_OR_REPLACE && e.certainty == Some(ConfirmedCommitted)
  }

  predicate Unusable(g: CapabilityGrant, now: int) {
    g.revokedAt.Some? || now >= g.expiresAt
  }

  /** Effect i is the first committed replacement from the k-th effect on. */
  predicate FirstCommittedAt(effects: seq<EffectRecord>, k: nat, i: nat) {
    k <= i < |effects| && CommittedReplacement(effects[i]) && forall j :: k <= j < i ==> !CommittedReplacement(effects[j])
  }

  predicate FirstUnusableAt(grants: seq<CapabilityGrant>, k: nat, i: nat, now: int) {
    k <= i < |grants| && Unusable(grants[i], now) && forall j :: k <= j < i ==> !Unusable(grants[j], now)
  }

  function FirstCommitted(effects: seq<EffectRecord>, k: nat): (r: Option<Id>)
    requires k <= |effects|
    ensures r.None? <==> forall i :: k <= i < |effects| ==> !CommittedReplacement(effects[i])
    ensures r.Some? ==> exists i: nat :: FirstCommittedAt(effects, k, i) && effects[i].id == r.value
    decreases |effects| - k
  {
    if k == |effects| then None
    else if CommittedReplacement(effects[k]) then assert FirstCommittedAt(effects, k, k); Some(effects[k].id)
    else
      var r := FirstCommitted(effects, k + 1);
      assert forall i: nat :: FirstCommittedAt(effects, k + 1, i) ==> FirstCommittedAt(effects, k, i);
      r
  }

  function FirstUnusable(grants: seq<CapabilityGrant>, k: nat, now: int): (r: Option<Id>)
    requires k <= |grants|
    ensures r.None? <==> forall i :: k <= i < |grants| ==> !Unusable(grants[i], now)
    ensures r.Some? ==> exists i: nat :: FirstUnusableAt(grants, k, i, now) && grants[i].id == r.value
    decreases |grants| - k
  {
    if k == |grants| then None
    else if Unusable(grants[k], now) then assert FirstUnusableAt(grants, k, k, now); Some(grants[k].id)
    else
      var r := FirstUnusable(grants, k + 1, now);
      assert forall i: nat :: FirstUnusableAt(grants, k + 1, i, now) ==> FirstUnusableAt(grants, k, i, now);
      r
  }

  function Evaluate(chainMatches: bool, outside: Outside, expired: Option<Id>, confirmed: Option<Id>): Decision {
    if !chainMatches || !outside.filesystemMatches || !outside.policyMatches || !outside.versionsMatch
    then RequireReapprovalOrAbandon
    else if confirmed.Some? then SkipConfirmedReplacement(confirmed.value)
    else if expired.Some? then RequireFreshGrant(expired.value)
    else Continue
  }

  /** A run without a checkpoint is continued without further questions. */
  function Decide<Digest(==)>(run: RunState, outside: Outside, text: Id -> Bytes, hash: Bytes -> Digest, now: int): Decision {
    if run.checkpoints == [] then Continue
    else
      var last := run.checkpoints[|run.checkpoints| - 1];
      var selected := ChainOf(UpTo(run.events, last.lastEventSequence));
      Evaluate(hash(ChainBytes(selected, text)) == hash(ChainBytes(last.chain, text)), outside,
               FirstUnusable(run.grants, 0, now), FirstCommitted(run.effects, 0))
  }

  /** On a run's own log the chain comparison never is what stops a resume: the decision depends on the
      outside checks, the effects and the grants alone. */
  lemma ChainNeverObjects<Digest>(start: int, steps: seq<Step>, outside: Outside, text: Id -> Bytes,
                                  hash: Bytes -> Digest, now: int)
    requires Run(start, steps).run.checkpoints != []
    ensures var run := Run(start, steps).run;
            Decide(run, outside, text, hash, now)
              == Evaluate(true, outside, FirstUnusable(run.grants, 0, now), FirstCommitted(run.effects, 0))
  {
    ResumeComparisonHolds(start, steps, |Run(start, steps).run.checkpoints| - 1, text, hash);
  }

  /** Exactly when a resume goes on as if nothing had happened. */
  lemma ContinueExactly<Digest>(start: int, steps: seq<Step>, outside: Outside, text: Id -> Bytes,
                                hash: Bytes -> Digest, now: int)
    ensures var run := Run(start, steps).run;
            Decide(run, outside, text, hash, now) == Continue <==>
              || run.checkpoints == []
              || (&& outside == Outside(true, true, true)
                  && (forall i :: 0 <= i < |run.effects| ==> !CommittedReplacement(run.effects[i]))
                  && (forall i :: 0 <= i < |run.grants| ==> !Unusable(run.grants[i], now)))
  {
    if Run(start, steps).run.checkpoints != [] {
      ChainNeverObjects(start, steps, outside, text, hash, now);
    }
  }

  /** What a resume of a checkpointed run decides. */
  ghost predicate Decided(run: RunState, outside: Outside, now: int, decision: Decision) {
    match decision
    case RequireReapprovalOrAbandon => outside != Outside(true, true, true)
    case SkipConfirmedReplacement(id) =>
      outside == Outside(true, true, true) && exists i: nat :: FirstCommittedAt(run.effects, 0, i) && run.effects[i].id == id
    case RequireFreshGrant(id) =>
      && outside == Outside(true, true, true)
      && (forall i :: 0 <= i < |run.effects| ==> !CommittedReplacement(run.effects[i]))
      && exists i: nat :: FirstUnusableAt(run.grants, 0, i, now) && run.grants[i].id == id
    case Continue =>
      && outside == Outside(true, true, true)
      && (forall i :: 0 <= i < |run.effects| ==> !CommittedReplacement(run.effects[i]))
      && (forall i :: 0 <= i < |run.grants| ==> !Unusable(run.grants[i], now))
  }

  lemma EvaluateExactly(run: RunState, outside: Outside, now: int, decision: Decision)
    ensures Evaluate(true, outside, FirstUnusable(run.grants, 0, now), FirstCommitted(run.effects, 0)) == decision
       <==> Decided(run, outside, now, decision)
  {
    var expired, confirmed := FirstUnusable(run.grants, 0, now), FirstCommitted(run.effects, 0);
    if decision.SkipConfirmedReplacement? && Decided(run, outside, now, decision) {
      var i: nat :| FirstCommittedAt(run.effects, 0, i) && run.effects[i].id == decision.effectId;
      assert confirmed == Some(run.effects[i].id);
    }
    if decision.RequireFreshGrant? && Decided(run, outside, now, decision) {
      var i: nat :| FirstUnusableAt(run.grants, 0, i, now) && run.grants[i].id == decision.expiredGrantId;
      assert expired == Some(run.grants[i].id);
    }
  }

  /** A resume of a checkpointed run asks for a new approval exactly when something outside changed, otherwise
      skips the first committed replacement if there is one, otherwise asks for a fresh grant in place of the first
      one that is revoked or expired, and otherwise goes on. */
  lemma DecidesExactly<Digest>(start: int, steps: seq<Step>, outside: Outside, text: Id -> Bytes,
                               hash: Bytes -> Digest, now: int, decision: Decision)
    requires Run(start, steps).run.checkpoints != []
    ensures Decide(Run(start, steps).run, outside, text, hash, now) == decision
       <==> Decided(Run(start, steps).run, outside, now, decision)
  {
    ChainNeverObjects(start, steps, outside, text, hash, now);
    EvaluateExactly(Run(start, steps).run, outside, now, decision);
  }

  /** Once a checkpointed run holds a committed replacement, no later resume, at whatever time and with
      whatever outside checks, lets the replacement be made again: it is skipped, by the name of a
      committed effect, or the run needs a new approval. */
  lemma CommittedIsNeverRepeated<Digest>(start: int, steps: seq<Step>, early: nat, i: nat, outside: Outside,
                                         text: Id -> Bytes, hash: Bytes -> Digest, now: int)
    requires early <= |steps| && Run(start, steps[..early]).run.checkpoints != []
    requires i < |Run(start, steps[..early]).run.effects|
    requires CommittedReplacement(Run(start, steps[..early]).run.effects[i])
    ensures var run := Run(start, steps).run;
            var decision := Decide(run, outside, text, hash, now);
            || decision == RequireReapprovalOrAbandon
            || (decision.SkipConfirmedReplacement?
                && exists k :: 0 <= k < |run.effects| && CommittedReplacement(run.effects[k]) && run.effects[k].id == decision.effectId)
  {
    NothingIsLost(start, steps, early, |steps|);
    assert steps[..|steps|] == steps;
    var a, b := Run(start, steps[..early]).run, Run(start, steps).run;
    assert Evolves(a.effects[i], b.effects[i]);
    assert CommittedReplacement(b.effects[i]);
    ChainNeverObjects(start, steps, outside, text, hash, now);
  }

  // ----- Without a checkpoint -----

  /** A run that holds a committed replacement is continued all the same exactly when it has no checkpoint. */
  lemma ContinueOverCommittedExactly<Digest>(start: int, steps: seq<Step>, i: nat, outside: Outside, text: Id -> Bytes,
                                             hash: Bytes -> Digest, now: int)
    requires i < |Run(start, steps).run.effects| && CommittedReplacement(Run(start, steps).run.effects[i])
    ensures Decide(Run(start, steps).run, outside, text, hash, now) == Continue <==> Run(start, steps).run.checkpoints == []
  {
    ContinueExactly(start, steps, outside, text, hash, now);
  }

  /** There is such a run: grant, prepare, claim, dispatch and settle one replacement. */
  lemma ContinuesOverCommitted<Digest>(outside: Outside, text: Id -> Bytes, hash: Bytes -> Digest, now: int)
    ensures var run := Run(0, SerialRuns.Schedule(0, RaceWitnesses.replacing)).run;
            && |run.effects| == 1 && CommittedReplacement(run.effects[0])
            && Decide(run, outside, text, hash, now) == Continue
  {
    RaceWitnesses.CommittedWithoutCheckpoint();
  }
}
