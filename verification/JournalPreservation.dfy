/** Every step of the interleaved protocol keeps the journal invariant. */
module JournalPreservation {
  import opened Wrappers
  import opened RunRecords
  import opened RunStore
  import opened Protocol
  import opened JournalInvariants

  lemma CreatedLog(now: int)
    ensures LogOk(Init(now).run)
  {
    var events := Init(now).run.events;
    forall id: Id ensures Own(events, id) == [] {
      OwnOfAppend([], events[0], id);
      assert [] + [events[0]] == events;
    }
  }

  lemma NoTickets(now: int)
    ensures TicketsOk(Init(now))
  {
    var s := Init(now);
    forall g: Id ensures |StartedWith(s.startedUnder, g)| + |Holders(s.calls, g)| == 0 {
      assert StartedWith(s.startedUnder, g) == {};
      assert Holders(s.calls, g) == {};
    }
  }

  lemma InitKeeps(now: int)
    ensures Inv(Init(now))
  {
    CreatedLog(now);
    NoTickets(now);
  }

  // ----- Calls come and go -----

  lemma LostCallKeeps(s: Sys, s': Sys, c: Id)
    requires Inv(s) && s' == s.(calls := s.calls - {c})
    ensures Inv(s')
  {
    DriftKeepsEffects(s, s');
    DriftKeepsGrants(s, s');
    forall g: Id ensures |StartedWith(s'.startedUnder, g)| + |Holders(s'.calls, g)| <= Count(s'.consumed, g) {
      FewerHolders(s.calls, s'.calls, g);
    }
  }

  lemma LoseKeeps(s: Sys, c: Id)
    requires Inv(s)
    ensures Inv(Exec(s, Lose(c)))
  {
    LostCallKeeps(s, s.(calls := s.calls - {c}), c);
  }

  lemma FewerHolders(calls: map<Id, Call>, calls': map<Id, Call>, g: Id)
    requires forall c :: c in calls' && HoldsTicket(calls'[c], g) ==> c in calls && HoldsTicket(calls[c], g)
    ensures |Holders(calls', g)| <= |Holders(calls, g)|
  {
    assert Holders(calls', g) <= Holders(calls, g);
    SubsetSize(Holders(calls', g), Holders(calls, g));
  }

  lemma SubsetSize(a: set<Id>, b: set<Id>)
    requires a <= b
    ensures |a| <= |b|
  {
    assert b == a + (b - a);
  }

  /** A snapshot taken now describes the run as it is now. */
  lemma FreshCallReady(s: Sys, c: Id, request: Request)
    requires Inv(s) && Compute(s.run, request, c + 1, c + 2).Ok?
    ensures ReadyOk(s.run, s.consumed, c,
                    Ready(request, s.run, |s.consumed|, Compute(s.run, request, c + 1, c + 2).value))
  {
    assert s.consumed[..|s.consumed|] == s.consumed;
  }

  /** One call changes, the run does not. */
  lemma CallChangeKeeps(s: Sys, s': Sys, c: Id, call: Call)
    requires Inv(s)
    requires s'.run == s.run && s'.consumed == s.consumed && s'.startedUnder == s.startedUnder
    requires s'.calls == s.calls[c := call] && s.supply <= s'.supply && c + 3 <= s'.supply
    requires c in s.calls || c == s.supply
    requires call.Ready? ==> ReadyOk(s.run, s.consumed, c, call)
    requires forall g: Id :: HoldsTicket(call, g) ==> c in s.calls && HoldsTicket(s.calls[c], g)
    ensures Inv(s')
  {
    DriftKeepsEffects(s, s');
    DriftKeepsGrants(s, s');
    forall g: Id ensures |StartedWith(s'.startedUnder, g)| + |Holders(s'.calls, g)| <= Count(s'.consumed, g) {
      FewerHolders(s.calls, s'.calls, g);
    }
  }

  lemma SupplyIsFresh(s: Sys)
    requires CallsOk(s)
    ensures s.supply !in s.calls
  {
  }

  lemma RefusedReadKeeps(s: Sys, s': Sys)
    requires Inv(s) && s' == s.(supply := s'.supply) && s.supply <= s'.supply
    ensures Inv(s')
  {
    DriftKeepsEffects(s, s');
    DriftKeepsGrants(s, s');
  }

  lemma AcceptedReadKeeps(s: Sys, request: Request, intent: Intent)
    requires Inv(s) && !request.Dispatch?
    requires Compute(s.run, request, s.supply + 1, s.supply + 2) == Ok(intent)
    ensures Inv(s.(supply := s.supply + 3,
                   calls := s.calls[s.supply := Ready(request, s.run, |s.consumed|, intent)]))
  {
    FreshCallReady(s, s.supply, request);
    CallChangeKeeps(s, s.(supply := s.supply + 3,
                          calls := s.calls[s.supply := Ready(request, s.run, |s.consumed|, intent)]),
                    s.supply, Ready(request, s.run, |s.consumed|, intent));
  }

  lemma ReadShape(s: Sys, request: Request, r: Result<Intent, UseCaseError>)
    requires !request.Dispatch? && r == Compute(s.run, request, s.supply + 1, s.supply + 2)
    ensures Exec(s, Read(request)) ==
            if r.Err? then s.(supply := s.supply + 3, calls := s.calls - {s.supply})
            else s.(supply := s.supply + 3,
                    calls := s.calls[s.supply := Ready(request, s.run, |s.consumed|, r.value)])
  {
  }

  lemma ReadKeeps(s: Sys, request: Request)
    requires Inv(s)
    ensures Inv(Exec(s, Read(request)))
  {
    if !request.Dispatch? {
      var r := Compute(s.run, request, s.supply + 1, s.supply + 2);
      ReadShape(s, request, r);
      if r.Err? {
        SupplyIsFresh(s);
        assert s.calls - {s.supply} == s.calls;
        RefusedReadKeeps(s, s.(supply := s.supply + 3));
      } else {
        AcceptedReadKeeps(s, request, r.value);
      }
    }
  }

  lemma ReadTicketShape(s: Sys, c: Id, request: Request, r: Result<Intent, UseCaseError>)
    requires c in s.calls && s.calls[c].Ticket?
    requires request == Dispatch(s.calls[c].effectId, s.calls[c].grantId, s.calls[c].claimant, s.calls[c].now)
    requires r == Compute(s.run, request, c + 1, c + 2)
    ensures Exec(s, ReadTicket(c)) ==
            if r.Err? then s.(calls := s.calls - {c})
            else s.(calls := s.calls[c := Ready(request, s.run, |s.consumed|, r.value)])
  {
  }

  lemma AcceptedTicketKeeps(s: Sys, c: Id, request: Request, intent: Intent)
    requires Inv(s) && c in s.calls && s.calls[c].Ticket?
    requires request.Dispatch? && request.grantId == s.calls[c].grantId
    requires Compute(s.run, request, c + 1, c + 2) == Ok(intent)
    ensures Inv(s.(calls := s.calls[c := Ready(request, s.run, |s.consumed|, intent)]))
  {
    FreshCallReady(s, c, request);
    CallChangeKeeps(s, s.(calls := s.calls[c := Ready(request, s.run, |s.consumed|, intent)]),
                    c, Ready(request, s.run, |s.consumed|, intent));
  }

  lemma ReadTicketKeeps(s: Sys, c: Id)
    requires Inv(s)
    ensures Inv(Exec(s, ReadTicket(c)))
  {
    if c in s.calls && s.calls[c].Ticket? {
      var t := s.calls[c];
      var request := Dispatch(t.effectId, t.grantId, t.claimant, t.now);
      var r := Compute(s.run, request, c + 1, c + 2);
      ReadTicketShape(s, c, request, r);
      if r.Err? {
        LostCallKeeps(s, s.(calls := s.calls - {c}), c);
      } else {
        AcceptedTicketKeeps(s, c, request, r.value);
      }
    }
  }

  lemma DriftKeepsEffects(s: Sys, s': Sys)
    requires EffectsOk(s) && Drift(s.run, s'.run) && s.supply <= s'.supply
    requires s'.calls.Keys <= s.calls.Keys + {s.supply}
    ensures EffectsOk(s')
  {
    forall i | 0 <= i < |s'.run.effects|
      ensures s'.run.effects[i].id == s.run.effects[i].id
      ensures s'.run.effects[i].WellShaped()
    {
      assert s.run.effects[i].WellShaped();
    }
  }

  lemma DriftKeepsGrants(s: Sys, s': Sys)
    requires GrantsOk(s) && Drift(s.run, s'.run) && s.supply <= s'.supply
    requires s'.calls.Keys <= s.calls.Keys + {s.supply}
    ensures GrantsOk(s')
  {
    forall i | 0 <= i < |s'.run.grants|
      ensures s'.run.grants[i].id == s.run.grants[i].id
    {
    }
  }

  // ----- Budget -----

  lemma ConsumeKeepsBudget(run: RunState, consumed: seq<Id>, k: nat)
    requires BudgetOk(run, consumed)
    requires forall i, j :: 0 <= i < j < |run.grants| ==> run.grants[i].id != run.grants[j].id
    requires k < |run.grants| && run.grants[k].revokedAt.None? && run.grants[k].ConsumeDispatch().Ok?
    ensures BudgetOk(run.(grants := run.grants[k := run.grants[k].ConsumeDispatch().value]),
                     consumed + [run.grants[k].id])
  {
    var run' := run.(grants := run.grants[k := run.grants[k].ConsumeDispatch().value]);
    var consumed' := consumed + [run.grants[k].id];
    forall i | 0 <= i < |run'.grants|
      ensures Balanced(run'.grants[i], consumed')
      ensures run'.grants[i].remaining <= run'.grants[i].budget
      ensures Count(consumed', run'.grants[i].id) <= run'.grants[i].budget
    {
      assert Balanced(run.grants[i], consumed);
      assert run.grants[i].remaining <= run.grants[i].budget;
      assert Count(consumed, run.grants[i].id) <= run.grants[i].budget;
      CountOfAppend(consumed, run.grants[k].id, run.grants[i].id);
    }
    forall id: Id | Count(consumed', id) > 0
      ensures exists i :: 0 <= i < |run'.grants| && run'.grants[i].id == id
    {
      CountOfAppend(consumed, run.grants[k].id, id);
      var i :| 0 <= i < |run.grants| && run.grants[i].id == id;
      assert run'.grants[i].id == id;
    }
  }

  lemma OneMoreHolder(calls: map<Id, Call>, c: Id, call: Call, g: Id)
    requires c !in calls
    ensures |Holders(calls[c := call], g)| == |Holders(calls, g)| + if HoldsTicket(call, g) then 1 else 0
  {
    assert Holders(calls[c := call], g) == Holders(calls, g) + if HoldsTicket(call, g) then {c} else {};
  }

  lemma ConsumeKeepsHolders(s: Sys, s': Sys, call: Call, grantId: Id)
    requires s.supply !in s.calls
    requires forall g: Id :: |StartedWith(s.startedUnder, g)| + |Holders(s.calls, g)| <= Count(s.consumed, g)
    requires call.Ticket? && call.grantId == grantId
    requires s'.calls == s.calls[s.supply := call] && s'.consumed == s.consumed + [grantId]
    requires s'.startedUnder == s.startedUnder
    ensures forall g: Id :: |StartedWith(s'.startedUnder, g)| + |Holders(s'.calls, g)| <= Count(s'.consumed, g)
  {
    forall g: Id ensures |StartedWith(s'.startedUnder, g)| + |Holders(s'.calls, g)| <= Count(s'.consumed, g) {
      CountOfAppend(s.consumed, grantId, g);
      OneMoreHolder(s.calls, s.supply, call, g);
    }
  }

  lemma ConsumeKeeps(s: Sys, effectId: Id, grantId: Id, claimant: string, now: int)
    requires Inv(s)
    ensures Inv(Exec(s, Consume(effectId, grantId, claimant, now)))
  {
    if CommitConsume(s.run, grantId, now).error.None? {
      var s' := Exec(s, Consume(effectId, grantId, claimant, now));
      ConsumeDrifts(s.run, grantId, now);
      SupplyIsFresh(s);
      var k := FindGrant(s.run.grants, grantId).value;
      ConsumeKeepsBudget(s.run, s.consumed, k);
      ConsumeKeepsHolders(s, s', Ticket(effectId, grantId, claimant, now), grantId);
      DriftKeepsInv(s, s');
    }
  }

  /** A step without a log entry: the parts that only need the drift. */
  lemma DriftKeepsInv(s: Sys, s': Sys)
    requires Inv(s) && Drift(s.run, s'.run) && s.supply <= s'.supply
    requires s.consumed <= s'.consumed && s'.startedUnder == s.startedUnder
    requires s'.calls.Keys <= s.calls.Keys + {s.supply}
    requires forall c :: c in s'.calls ==>
               (c in s.calls && s'.calls[c] == s.calls[c]) || (c + 3 <= s'.supply && s'.calls[c].Ticket?)
    requires BudgetOk(s'.run, s'.consumed)
    requires forall g: Id :: |StartedWith(s'.startedUnder, g)| + |Holders(s'.calls, g)| <= Count(s'.consumed, g)
    ensures Inv(s')
  {
    DriftKeepsEffects(s, s');
    DriftKeepsGrants(s, s');
    DriftKeepsLog(s.run, s'.run);
    DriftKeepsCalls(s, s'.run, s'.consumed);
    DriftKeepsTickets(s, s');
  }

  // ----- Commits -----

  lemma LosingCommitKeeps(s: Sys, c: Id)
    requires Inv(s) && c in s.calls && s.calls[c].Ready?
    requires Commit(s.run, s.calls[c].intent).error.Some?
    ensures Inv(Exec(s, Persist(c)))
  {
    var s' := Exec(s, Persist(c));
    CommitAppendsOrDrifts(s.run, s.calls[c].intent);
    ClaimDriftKeepsBudget(s.run, s'.run, s.consumed);
    forall g: Id ensures |StartedWith(s'.startedUnder, g)| + |Holders(s'.calls, g)| <= Count(s'.consumed, g) {
      FewerHolders(s.calls, s'.calls, g);
    }
    DriftKeepsInv(s, s');
  }
}
