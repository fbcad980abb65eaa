/** What the stored hashes of a run cover: the event chain of a checkpoint, and the meaning a plan
    approval covers. */
module HashedRecords {
  import opened RunRecords
  import opened Canonical
  import opened Protocol
  import opened JournalInvariants
  import opened JournalCommits
  import opened JournalTheorems
  import opened JournalAudit

  /** Identifiers have 128 bits. */
  const ID_BYTES: nat := 16

  predicate IsId(id: Id) {
    id < Pow256(ID_BYTES)
  }

  /** The printed form of identifiers: never the same for two of them. */
  ghost predicate IsIdText(text: Id -> Bytes) {
    && (forall i, j :: IsId(i) && IsId(j) && text(i) == text(j) ==> i == j)
    && (forall i :: IsId(i) ==> |text(i)| < LENGTH_LIMIT)
  }

  function PlainText(): Id -> Bytes {
    (id: Id) => BigEndian(id, ID_BYTES)
  }

  /** There is such a form. */
  lemma PlainTextIsIdText()
    ensures IsIdText(PlainText())
  {
    forall i, j | IsId(i) && IsId(j) && PlainText()(i) == PlainText()(j) ensures i == j {
      BigEndianInjective(i, j, ID_BYTES);
    }
  }

  // ----- The event chain -----

  /** Sequence numbers have 64 bits. */
  const SEQUENCE_LIMIT: nat := 0x1_0000_0000_0000_0000

  predicate Encodable(link: ChainLink) {
    link.sequence < SEQUENCE_LIMIT && IsId(link.id) && IsAscii(link.tag) && |link.tag| < LENGTH_LIMIT
  }

  predicate AllEncodable(links: seq<ChainLink>) {
    forall i :: 0 <= i < |links| ==> Encodable(links[i])
  }

  function LinkFields(link: ChainLink, text: Id -> Bytes): seq<Field>
  {
    [Field(Ascii("sequence"), BigEndian(link.sequence, 8)),
     Field(Ascii("id"), text(link.id)),
     Field(Ascii("kind"), Ascii(link.tag))]
  }

  function ChainFields(links: seq<ChainLink>, text: Id -> Bytes): (r: seq<Field>)
    ensures |r| == 3 * |links|
  {
    if links == [] then []
    else ChainFields(links[..|links| - 1], text) + LinkFields(links[|links| - 1], text)
  }

  /** The buffer `hash_event_chain` hashes. */
  function ChainBytes(links: seq<ChainLink>, text: Id -> Bytes): Bytes
  {
    Versioned(ChainFields(links, text))
  }

  lemma {:induction false} ChainFieldsShort(links: seq<ChainLink>, text: Id -> Bytes)
    requires IsIdText(text) && AllEncodable(links)
    ensures AllShort(ChainFields(links, text))
  {
    if links != [] {
      ChainFieldsShort(links[..|links| - 1], text);
    }
  }

  lemma LinkInjective(a: ChainLink, b: ChainLink, text: Id -> Bytes)
    requires IsIdText(text) && Encodable(a) && Encodable(b) && LinkFields(a, text) == LinkFields(b, text)
    ensures a == b
  {
    assert LinkFields(a, text)[0].value == LinkFields(b, text)[0].value;
    assert LinkFields(a, text)[1].value == LinkFields(b, text)[1].value;
    assert LinkFields(a, text)[2].value == LinkFields(b, text)[2].value;
    EightBytes();
    BigEndianInjective(a.sequence, b.sequence, 8);
    AsciiInjective(a.tag, b.tag);
  }

  lemma LastFields(links: seq<ChainLink>, text: Id -> Bytes)
    requires links != []
    ensures var n := |links| - 1;
            ChainFields(links, text)[..3 * n] == ChainFields(links[..n], text)
            && ChainFields(links, text)[3 * n..] == LinkFields(links[n], text)
  {
  }

  lemma {:induction false} ChainFieldsInjective(a: seq<ChainLink>, b: seq<ChainLink>, text: Id -> Bytes)
    requires IsIdText(text)
    requires AllEncodable(a)
    requires AllEncodable(b)
    requires ChainFields(a, text) == ChainFields(b, text)
    ensures a == b
  {
    assert |ChainFields(a, text)| == |ChainFields(b, text)|;
    if a != [] {
      var n := |a| - 1;
      LastFields(a, text);
      LastFields(b, text);
      ChainFieldsInjective(a[..n], b[..n], text);
      LinkInjective(a[n], b[n], text);
      assert a == a[..n] + [a[n]] && b == b[..n] + [b[n]];
    }
  }

  /** Equal chain buffers come from logs that agree on every sequence number, identifier and kind tag. */
  lemma ChainInjective(a: seq<ChainLink>, b: seq<ChainLink>, text: Id -> Bytes)
    requires IsIdText(text)
    requires AllEncodable(a)
    requires AllEncodable(b)
    requires ChainBytes(a, text) == ChainBytes(b, text)
    ensures a == b
  {
    ChainFieldsShort(a, text);
    ChainFieldsShort(b, text);
    VersionedInjective(ChainFields(a, text), ChainFields(b, text));
    ChainFieldsInjective(a, b, text);
  }

  predicate ShortAscii(s: string) {
    IsAscii(s) && |s| < 20
  }

  lemma EffectTagIsAscii(kind: EventKind)
    requires kind.EffectPrepared? || kind.EffectClaimed? || kind.EffectDispatched? || kind.EffectSettled?
             || kind.LeaseAcquired? || kind.LeaseReleased? || kind.LeaseTakeover?
    ensures ShortAscii(kind.CanonicalTag())
  {
  }

  lemma StageTagIsAscii(kind: EventKind)
    requires kind.Checkpointed? || kind.Validated? || kind.Completed? || kind.Paused? || kind.Cancelled?
             || kind.Abandoned? || kind.Resumed?
    ensures ShortAscii(kind.CanonicalTag())
  {
  }

  lemma PlanTagIsAscii(kind: EventKind)
    requires kind.RunCreated? || kind.PairFrozen? || kind.Approved? || kind.GrantIssued? || kind.GrantRevoked? || kind.Denied?
    ensures ShortAscii(kind.CanonicalTag())
  {
  }

  lemma TagIsAscii(kind: EventKind)
    ensures ShortAscii(kind.CanonicalTag())
  {
    if kind.EffectPrepared? || kind.EffectClaimed? || kind.EffectDispatched? || kind.EffectSettled?
       || kind.LeaseAcquired? || kind.LeaseReleased? || kind.LeaseTakeover? {
      EffectTagIsAscii(kind);
    } else if kind.RunCreated? || kind.PairFrozen? || kind.Approved? || kind.GrantIssued? || kind.GrantRevoked? || kind.Denied? {
      PlanTagIsAscii(kind);
    } else {
      StageTagIsAscii(kind);
    }
  }

  lemma EventsEncodable(events: seq<RunEvent>)
    requires forall i :: 0 <= i < |events| ==> events[i].sequence < SEQUENCE_LIMIT && IsId(events[i].id)
    ensures AllEncodable(ChainOf(events))
  {
    forall i | 0 <= i < |events| ensures Encodable(ChainOf(events)[i]) {
      TagIsAscii(events[i].kind);
    }
  }

  method HashEventChain<Digest>(events: seq<RunEvent>, text: Id -> Bytes, hash: Bytes -> Digest) returns (digest: Digest)
    ensures digest == hash(ChainBytes(ChainOf(events), text))
  {
    ghost var links := ChainOf(events);
    var buffer := new Buffer();
    buffer.AppendField(Ascii("encoding"), Ascii(ENCODING_VERSION));
    EncodeOfAppend([], VersionField());
    assert [] + [VersionField()] == [VersionField()];
    for i := 0 to |events|
      invariant buffer.bytes == ChainBytes(links[..i], text)
    {
      buffer.AppendField(Ascii("sequence"), BigEndian(events[i].sequence, 8));
      buffer.AppendField(Ascii("id"), text(events[i].id));
      buffer.AppendField(Ascii("kind"), Ascii(events[i].kind.CanonicalTag()));
      AppendLink(links, i, text);
    }
    assert links[..|events|] == links;
    digest := hash(buffer.bytes);
  }

  lemma AppendLink(links: seq<ChainLink>, i: nat, text: Id -> Bytes)
    requires i < |links|
    ensures ChainBytes(links[..i + 1], text)
         == ChainBytes(links[..i], text) + EncodeField(Field(Ascii("sequence"), BigEndian(links[i].sequence, 8)))
            + EncodeField(Field(Ascii("id"), text(links[i].id))) + EncodeField(Field(Ascii("kind"), Ascii(links[i].tag)))
  {
    var before, added := [VersionField()] + ChainFields(links[..i], text), LinkFields(links[i], text);
    assert links[..i + 1][..i] == links[..i];
    assert [VersionField()] + ChainFields(links[..i + 1], text) == before + [added[0]] + [added[1]] + [added[2]];
    EncodeOfAppend(before, added[0]);
    EncodeOfAppend(before + [added[0]], added[1]);
    EncodeOfAppend(before + [added[0]] + [added[1]], added[2]);
  }

  /** In every later state of a run, hashing the events a resume selects for a checkpoint gives the
      hash stored with it: whatever the hash function, the resume comparison succeeds. */
  lemma ResumeComparisonHolds<Digest>(now: int, steps: seq<Step>, i: nat, text: Id -> Bytes, hash: Bytes -> Digest)
    requires i < |Run(now, steps).run.checkpoints|
    ensures var run := Run(now, steps).run;
            var selected := ChainOf(UpTo(run.events, run.checkpoints[i].lastEventSequence));
            hash(ChainBytes(selected, text)) == hash(ChainBytes(run.checkpoints[i].chain, text))
  {
    CheckpointsNeverStale(now, steps, i);
  }

  /** And a log that was altered within a checkpoint's prefix is given away by its buffer. */
  lemma AlteredPrefixShows(events: seq<RunEvent>, altered: seq<RunEvent>, text: Id -> Bytes)
    requires IsIdText(text)
    requires forall i :: 0 <= i < |events| ==> events[i].sequence < SEQUENCE_LIMIT && IsId(events[i].id)
    requires forall i :: 0 <= i < |altered| ==> altered[i].sequence < SEQUENCE_LIMIT && IsId(altered[i].id)
    ensures ChainBytes(ChainOf(events), text) == ChainBytes(ChainOf(altered), text)
       <==> ChainOf(events) == ChainOf(altered)
  {
    EventsEncodable(events);
    EventsEncodable(altered);
    if ChainBytes(ChainOf(events), text) == ChainBytes(ChainOf(altered), text) {
      ChainInjective(ChainOf(events), ChainOf(altered), text);
    }
  }

  // ----- What the tags tell -----

  /** Which kind of event it is, whatever it carries. */
  function KindNumber(kind: EventKind): nat {
    match kind
    case RunCreated => 0
    case PairFrozen(_, _, _) => 1
    case Approved(_) => 2
    case GrantIssued(_) => 3
    case GrantRevoked(_) => 4
    case Denied(_) => 5
    case EffectPrepared(_) => 6
    case EffectClaimed(_, _) => 7
    case EffectDispatched(_) => 8
    case EffectSettled(_, _) => 9
    case Checkpointed(_) => 10
    case Validated(_) => 11
    case Completed => 12
    case Paused => 13
    case Cancelled => 14
    case Abandoned => 15
    case LeaseAcquired(_) => 16
    case LeaseReleased(_) => 17
    case LeaseTakeover(_) => 18
    case Resumed => 19
  }

  /** The length of a tag, its first character and its third from the end tell the kind. */
  function KindOfTag(n: nat, first: char, inner: char): nat {
    match n
    case 6 => if first == 'd' then 5 else 13
    case 7 => 19
    case 8 => 2
    case 9 => if first == 'v' then 11 else if first == 'a' then 15 else if inner == 't' then 12 else 14
    case 11 => if first == 'r' then 0 else 1
    case 12 => if first == 'g' then 3 else 10
    case 13 => 4
    case 14 => if first == 'e' then (if inner == 'm' then 7 else 9) else if inner == 'r' then 16 else if inner == 's' then 17 else 18
    case 15 => 6
    case _ => 8
  }

  lemma TagTellsKind(kind: EventKind)
    ensures |kind.CanonicalTag()| >= 6
    ensures var tag := kind.CanonicalTag(); KindOfTag(|tag|, tag[0], tag[|tag| - 3]) == KindNumber(kind)
  {
  }

  /** Two logs have the same events but for times and for what an event carries beyond its kind. */
  predicate SameKinds(a: seq<RunEvent>, b: seq<RunEvent>) {
    && |a| == |b|
    && forall i :: 0 <= i < |a| ==>
         a[i].sequence == b[i].sequence && a[i].id == b[i].id && KindNumber(a[i].kind) == KindNumber(b[i].kind)
  }

  lemma SameTag(kind: EventKind, other: EventKind)
    ensures kind.CanonicalTag() == other.CanonicalTag() <==> KindNumber(kind) == KindNumber(other)
  {
    TagTellsKind(kind);
    TagTellsKind(other);
  }

  lemma ChainsAgreeExactly(a: seq<RunEvent>, b: seq<RunEvent>)
    ensures ChainOf(a) == ChainOf(b) <==> SameKinds(a, b)
  {
    assert |ChainOf(a)| == |a| && |ChainOf(b)| == |b|;
    if |a| == |b| {
      forall i | 0 <= i < |a|
        ensures ChainOf(a)[i] == ChainOf(b)[i] <==>
                a[i].sequence == b[i].sequence && a[i].id == b[i].id && KindNumber(a[i].kind) == KindNumber(b[i].kind)
      {
        SameTag(a[i].kind, b[i].kind);
      }
    }
  }

  /** So the buffers of two logs are equal exactly when the logs agree on every sequence number, every identifier
      and every kind of event. */
  lemma BuffersAgreeExactly(a: seq<RunEvent>, b: seq<RunEvent>, text: Id -> Bytes)
    requires IsIdText(text)
    requires forall i :: 0 <= i < |a| ==> a[i].sequence < SEQUENCE_LIMIT && IsId(a[i].id)
    requires forall i :: 0 <= i < |b| ==> b[i].sequence < SEQUENCE_LIMIT && IsId(b[i].id)
    ensures ChainBytes(ChainOf(a), text) == ChainBytes(ChainOf(b), text) <==> SameKinds(a, b)
  {
    AlteredPrefixShows(a, b, text);
    ChainsAgreeExactly(a, b);
  }

  /** The events of any run are encodable as long as its counters stay within their machine widths. */
  lemma RunChainsEncodable(now: int, steps: seq<Step>)
    requires IsId(Run(now, steps).supply) && |Run(now, steps).run.events| < SEQUENCE_LIMIT
    ensures AllEncodable(ChainOf(Run(now, steps).run.events))
  {
    RunEventsHaveIds(now, steps);
    RunKeeps(now, steps);
    EventsEncodable(Run(now, steps).run.events);
  }

  predicate EventsBelow(events: seq<RunEvent>, supply: Id) {
    forall i :: 0 <= i < |events| ==> events[i].id < supply
  }

  lemma {:induction false} RunEventsHaveIds(now: int, steps: seq<Step>)
    ensures EventsBelow(Run(now, steps).run.events, Run(now, steps).supply)
  {
    if steps != [] {
      var before, step := steps[..|steps| - 1], steps[|steps| - 1];
      RunEventsHaveIds(now, before);
      RunKeeps(now, before);
      StepKeepsEventIds(Run(now, before), step);
    }
  }

  lemma SupplyGrows(s: Sys, step: Step)
    ensures s.supply <= Exec(s, step).supply
  {
  }

  lemma NewEventId(s: Sys, c: Id)
    requires Inv(s) && Commits(s, Persist(c))
    ensures s.calls[c].intent.event.id < s.supply
    ensures Exec(s, Persist(c)).run.events == s.run.events + [s.calls[c].intent.event]
  {
    PersistedRun(s, c);
    WinningKind(s, c);
    CommittedOnSnapshot(s, c);
    ComputedSequence(s.calls[c].snapshot, s.calls[c].request, c + 1, c + 2);
  }

  lemma StepKeepsEventIds(s: Sys, step: Step)
    requires Inv(s) && EventsBelow(s.run.events, s.supply)
    ensures EventsBelow(Exec(s, step).run.events, Exec(s, step).supply)
  {
    SupplyGrows(s, step);
    if Commits(s, step) {
      NewEventId(s, step.call);
    } else {
      DriftingStep(s, step);
    }
  }

  // ----- Plan approval -----

  function CapabilityText(c: Capability): (r: string)
    ensures IsAscii(r) && 0 < |r| < 20
  {
    match c
    case ListRoot => "list"
    case LocalRead => "local_read"
    case CreateOrReplace => "create_or_replace"
    case NativeInspection => "native_inspection"
    case ProviderDisclose => "provider_disclose"
  }

  lemma CapabilityTextInjective(c: Capability, d: Capability)
    requires CapabilityText(c) == CapabilityText(d)
    ensures c == d
  {
    assert CapabilityText(c)[0] == CapabilityText(d)[0] && |CapabilityText(c)| == |CapabilityText(d)|;
  }

  datatype Envelope = Envelope(summary: Bytes, requested: seq<Capability>)

  function CapabilityFields(requested: seq<Capability>): (r: seq<Field>)
    ensures |r| == |requested|
    ensures forall i :: 0 <= i < |r| ==> r[i] == Field(Ascii("capability"), Ascii(CapabilityText(requested[i])))
  {
    seq(|requested|, i requires 0 <= i < |requested| =>
      Field(Ascii("capability"), Ascii(CapabilityText(requested[i]))))
  }

  function EnvelopeFields(envelope: Envelope): seq<Field> {
    [Field(Ascii("summary"), envelope.summary)] + CapabilityFields(envelope.requested)
  }

  function EnvelopeBytes(envelope: Envelope): Bytes {
    Encode(EnvelopeFields(envelope))
  }

  lemma EnvelopeShort(envelope: Envelope)
    requires |envelope.summary| < LENGTH_LIMIT
    ensures AllShort(EnvelopeFields(envelope))
  {
  }

  lemma CapabilityFieldsInjective(a: seq<Capability>, b: seq<Capability>)
    requires CapabilityFields(a) == CapabilityFields(b)
    ensures a == b
  {
    assert |CapabilityFields(a)| == |CapabilityFields(b)|;
    forall i | 0 <= i < |a| ensures a[i] == b[i] {
      assert CapabilityFields(a)[i].value == CapabilityFields(b)[i].value;
      AsciiInjective(CapabilityText(a[i]), CapabilityText(b[i]));
      CapabilityTextInjective(a[i], b[i]);
    }
  }

  lemma EnvelopeInjective(a: Envelope, b: Envelope)
    requires |a.summary| < LENGTH_LIMIT && |b.summary| < LENGTH_LIMIT && EnvelopeBytes(a) == EnvelopeBytes(b)
    ensures a == b
  {
    var fa, fb := EnvelopeFields(a), EnvelopeFields(b);
    EnvelopeShort(a);
    EnvelopeShort(b);
    EncodingInjective(fa, fb);
    assert fa[0].value == a.summary && fb[0].value == b.summary;
    assert fa[1..] == CapabilityFields(a.requested) && fb[1..] == CapabilityFields(b.requested);
    CapabilityFieldsInjective(a.requested, b.requested);
  }

  /** Everything the approval hash of a plan covers. */
  datatype Approved = Approved(
    planId: Id,
    graphId: Id,
    graphHash: Bytes,
    instructions: Bytes,
    providerProfileId: Bytes,
    modelId: Bytes,
    disclosurePolicyId: Bytes,
    allowedDisclosure: Bytes,
    envelope: Envelope,
    contextManifestHash: Bytes,
    requestSemanticHash: Bytes,
    relativeTarget: Bytes,
    preimageHash: Bytes,
    postimageHash: Bytes,
    expectedDiffHash: Bytes,
    preimageIdentity: Bytes,
    retryRule: Bytes,
    validationRule: Bytes,
    operationSchema: Bytes,
    policyRevision: Bytes)

  predicate HasIds(a: Approved) {
    IsId(a.planId) && IsId(a.graphId)
  }

  const NODE_REPLACE: string := "replace-existing-file-v1"
  const NODE_VERIFY: string := "verify-approved-postimage-v1"

  function ApprovalFields(a: Approved, text: Id -> Bytes): seq<Field> {
    [Field(Ascii("plan_id"), text(a.planId)),
     Field(Ascii("graph_id"), text(a.graphId)),
     Field(Ascii("graph_hash"), a.graphHash),
     Field(Ascii("instructions"), a.instructions),
     Field(Ascii("provider_profile_id"), a.providerProfileId),
     Field(Ascii("model_id"), a.modelId),
     Field(Ascii("disclosure_policy_id"), a.disclosurePolicyId),
     Field(Ascii("allowed_disclosure"), a.allowedDisclosure),
     Field(Ascii("capability_envelope"), EnvelopeBytes(a.envelope)),
     Field(Ascii("context_manifest_hash"), a.contextManifestHash),
     Field(Ascii("request_semantic_hash"), a.requestSemanticHash),
     Field(Ascii("relative_target"), a.relativeTarget),
     Field(Ascii("preimage_hash"), a.preimageHash),
     Field(Ascii("postimage_hash"), a.postimageHash),
     Field(Ascii("expected_diff_hash"), a.expectedDiffHash),
     Field(Ascii("preimage_filesystem_identity"), a.preimageIdentity),
     Field(Ascii("retry_rule"), a.retryRule),
     Field(Ascii("validation_rule"), a.validationRule),
     Field(Ascii("op_replace"), Ascii(NODE_REPLACE)),
     Field(Ascii("op_verify"), Ascii(NODE_VERIFY)),
     Field(Ascii("registered_operation_schema"), a.operationSchema),
     Field(Ascii("execution_policy_revision"), a.policyRevision)]
  }

  /** The buffer `hash_execution_plan_approval` hashes. */
  function ApprovalBytes(a: Approved, text: Id -> Bytes): Bytes {
    Versioned(ApprovalFields(a, text))
  }

  lemma ApprovalFieldsInjective(a: Approved, b: Approved, text: Id -> Bytes)
    requires IsIdText(text) && HasIds(a) && HasIds(b) && ApprovalFields(a, text) == ApprovalFields(b, text)
    requires |a.envelope.summary| < LENGTH_LIMIT && |b.envelope.summary| < LENGTH_LIMIT
    ensures a == b
  {
    var fa, fb := ApprovalFields(a, text), ApprovalFields(b, text);
    assert fa[0].value == fb[0].value && fa[1].value == fb[1].value && fa[2].value == fb[2].value;
    assert fa[3].value == fb[3].value && fa[4].value == fb[4].value && fa[5].value == fb[5].value;
    assert fa[6].value == fb[6].value && fa[7].value == fb[7].value && fa[8].value == fb[8].value;
    assert fa[9].value == fb[9].value && fa[10].value == fb[10].value && fa[11].value == fb[11].value;
    assert fa[12].value == fb[12].value && fa[13].value == fb[13].value && fa[14].value == fb[14].value;
    assert fa[15].value == fb[15].value && fa[16].value == fb[16].value && fa[17].value == fb[17].value;
    assert fa[20].value == fb[20].value && fa[21].value == fb[21].value;
    EnvelopeInjective(a.envelope, b.envelope);
  }

  /** Equal approval buffers mean that every covered value is equal, down to the order of the
      requested capabilities. */
  lemma ApprovalInjective(a: Approved, b: Approved, text: Id -> Bytes)
    requires IsIdText(text) && HasIds(a) && HasIds(b)
    requires AllShort(ApprovalFields(a, text)) && AllShort(ApprovalFields(b, text))
    requires |a.envelope.summary| < LENGTH_LIMIT && |b.envelope.summary| < LENGTH_LIMIT
    ensures ApprovalBytes(a, text) == ApprovalBytes(b, text) <==> a == b
  {
    if ApprovalBytes(a, text) == ApprovalBytes(b, text) {
      VersionedInjective(ApprovalFields(a, text), ApprovalFields(b, text));
      ApprovalFieldsInjective(a, b, text);
    }
  }
}
