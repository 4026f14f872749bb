/** The webhook handler inside the protocol: every recorded event has had its effect, so in every reachable
    world the fold over a delivery's events says where they lead; and a handler left alone is one turn of it. */
module OutboundWebhooks {
  import opened Basics
  import opened DeliveryRow
  import opened OutboundProtocol
  import opened OutboundSafety
  import opened OutboundAlone
  import opened OutboundEvents

  // ---------------------------------------------------------------- recorded events have had their effect

  ghost predicate EventEffective(w: World, kind: EventKind, id: string) {
    && id in w.mails && w.mails[id] in w.rows
    && Rank(TargetStatus(kind)) <= Rank(w.rows[w.mails[id]].status)
  }

  ghost predicate Effective(w: World) {
    && (forall kind, id :: (kind, id) in w.events ==> EventEffective(w, kind, id))
    && (forall p :: 0 <= p < |w.procs| && w.procs[p].pc.Transacting? ==> w.procs[p].pc.delivery in w.rows)
  }

  lemma {:induction false} MailOfIsMail(w: World, d: string, id: string)
    requires ProviderConsistent(w) && IsMailOf(w, d, id)
    ensures id in w.mails && w.mails[id] == d
  {
    KeyInjective(w.mails[id], d);
  }

  /** Later worlds keep what is effective. */
  lemma {:induction false} EffectStays(w: World, w': World, kind: EventKind, id: string)
    requires EventEffective(w, kind, id) && RowsAdvance(w.rows, w'.rows) && ProviderGrows(w, w')
    ensures EventEffective(w', kind, id)
  {
    assert Advances(w.rows[w.mails[id]], w'.rows[w.mails[id]]);
  }

  /** A committed webhook transaction has raised the row to its target, or found it there. */
  lemma {:induction false} TransactionTakesEffect(w: World, pc: Pc, x: Input)
    requires pc.Transacting? && pc.delivery in w.rows && WebhookCommits(w, pc.kind, pc.emailId, pc.delivery, x.fault)
    ensures var rows := TableWork(w, pc, x).rows;
            pc.delivery in rows && Rank(TargetStatus(pc.kind)) <= Rank(rows[pc.delivery].status)
  {
  }

  lemma {:induction false} AdvanceEffective(w: World, p: nat, x: Input)
    requires Honest(w) && Effective(w) && Enabled(w, Advance(p, x))
    ensures Effective(Next(w, Advance(p, x)))
  {
    var w', pc := Next(w, Advance(p, x)), w.procs[p].pc;
    AdvanceAdvances(w, p, x);
    StepKeepsProvider(w, Advance(p, x));
    assert PcHonest(w, pc);
    if pc.Transacting? && WebhookCommits(w, pc.kind, pc.emailId, pc.delivery, x.fault) {
      MailOfIsMail(w, pc.delivery, pc.emailId);
      TransactionTakesEffect(w, pc, x);
    }
    forall kind, id | (kind, id) in w'.events ensures EventEffective(w', kind, id) {
      if (kind, id) in w.events {
        EffectStays(w, w', kind, id);
      }
    }
    HandlersKnowTheirRow(w, p, x);
  }

  lemma {:induction false} HandlersKnowTheirRow(w: World, p: nat, x: Input)
    requires Effective(w) && Enabled(w, Advance(p, x))
    ensures var w' := Next(w, Advance(p, x));
            forall q :: 0 <= q < |w'.procs| && w'.procs[q].pc.Transacting? ==> w'.procs[q].pc.delivery in w'.rows
  {
    var w', pc := Next(w, Advance(p, x)), w.procs[p].pc;
    AdvanceAdvances(w, p, x);
    FoundIsRow(w, pc, x);
  }

  lemma {:induction false} FoundIsRow(w: World, pc: Pc, x: Input)
    requires QueryAnswered(w, pc, x)
    ensures var after := PcAfter(w, pc, x, TableWork(w, pc, x));
            after.Transacting? ==> after.delivery in w.rows
  {
  }

  lemma {:induction false} OtherStepEffective(w: World, a: Action)
    requires Honest(w) && Effective(w) && Enabled(w, a) && !a.Advance?
    ensures Effective(Next(w, a))
  {
    var w' := Next(w, a);
    StepAdvances(w, a);
    StepKeepsProvider(w, a);
    OtherStepHandlers(w, a);
    forall kind, id | (kind, id) in w'.events ensures EventEffective(w', kind, id) {
      EffectStays(w, w', kind, id);
    }
  }

  lemma {:induction false} OtherStepHandlers(w: World, a: Action)
    requires Effective(w) && Enabled(w, a) && !a.Advance?
    ensures var w' := Next(w, a);
            && w'.events == w.events
            && forall q :: 0 <= q < |w'.procs| && w'.procs[q].pc.Transacting? ==> w'.procs[q].pc.delivery in w'.rows
  {
    var w' := Next(w, a);
    StepAdvances(w, a);
    NoNewTransaction(w, a);
    forall q | 0 <= q < |w'.procs| && w'.procs[q].pc.Transacting? ensures w'.procs[q].pc.delivery in w'.rows {
      assert w.procs[q].pc == w'.procs[q].pc;
    }
  }

  lemma {:induction false} NoNewTransaction(w: World, a: Action)
    requires Enabled(w, a) && !a.Advance?
    ensures Next(w, a).events == w.events
    ensures forall q :: 0 <= q < |Next(w, a).procs| && Next(w, a).procs[q].pc.Transacting? ==>
              q < |w.procs| && w.procs[q].pc == Next(w, a).procs[q].pc
  {
    if a.CreateMessage? {
      CreationStartsNoTransaction(w, a.delivery, a.recipient, a.at, a.fault);
    }
  }

  lemma {:induction false} CreationStartsNoTransaction(w: World, d: string, recipient: Option<string>, at: nat, fault: Fault)
    ensures AfterCreate(w, d, recipient, at, fault).events == w.events
    ensures forall q :: 0 <= q < |AfterCreate(w, d, recipient, at, fault).procs| && AfterCreate(w, d, recipient, at, fault).procs[q].pc.Transacting? ==>
              q < |w.procs| && w.procs[q].pc == AfterCreate(w, d, recipient, at, fault).procs[q].pc
  {
  }

  /** In every reachable world each recorded webhook event has had its effect on the delivery its mail
      belongs to: that delivery stands at least as high as the event's status. */
  lemma {:induction false} AlwaysEffective(ws: seq<World>, acts: seq<Action>)
    requires IsRun(ws, acts)
    ensures Effective(ws[|acts|])
  {
    if acts != [] {
      var n := |acts| - 1;
      Shorter(ws, acts);
      AlwaysEffective(ws[..|ws| - 1], acts[..n]);
      AlwaysHonest(ws, acts);
      if acts[n].Advance? {
        AdvanceEffective(ws[n], acts[n].p, acts[n].x);
      } else {
        OtherStepEffective(ws[n], acts[n]);
      }
    }
  }

  // ---------------------------------------------------------------- the fold, in reachable worlds

  /** These events are about the mail of delivery d. */
  ghost predicate About(w: World, d: string, hooks: seq<Hook>) {
    forall h :: h in hooks ==> h.emailId in w.mails && w.mails[h.emailId] == d
  }

  lemma {:induction false} EffectiveReflects(w: World, d: string, hooks: seq<Hook>)
    requires Effective(w) && d in w.rows && About(w, d, hooks)
    ensures Reflected(w.rows[d], w.events, hooks)
  {
    forall h | h in hooks && (h.kind, h.emailId) in w.events
      ensures Rank(TargetStatus(h.kind)) <= Rank(w.rows[d].status)
    {
      assert EventEffective(w, h.kind, h.emailId);
    }
  }

  /** Webhook confluence where it matters: from any reachable world, any further events of a delivery, with
      repeats of each other and of events already recorded, lead to the first terminal outcome, or else to
      the highest status; and with one outcome any other order of them leads there too. */
  lemma {:induction false} WebhooksConverge(ws: seq<World>, acts: seq<Action>, d: string, xs: seq<Hook>, ys: seq<Hook>)
    requires IsRun(ws, acts) && d in ws[|acts|].rows && About(ws[|acts|], d, xs)
    requires multiset(xs) == multiset(ys)
    ensures var w := ws[|acts|];
            && HandleAll(w.rows[d], w.events, xs).0.status == Expected(w.rows[d].status, xs)
            && (OneOutcome(xs) ==> HandleAll(w.rows[d], w.events, ys).0.status == HandleAll(w.rows[d], w.events, xs).0.status)
  {
    var w := ws[|acts|];
    AlwaysEffective(ws, acts);
    EffectiveReflects(w, d, xs);
    FoldGivesExpected(w.rows[d], w.events, xs);
    if OneOutcome(xs) {
      OrderDoesNotMatter(w.rows[d], w.events, xs, ys);
    }
  }

  // ---------------------------------------------------------------- one handler, left alone

  /** The row the handler looks up: by tag, or without one by the provider's id. */
  ghost predicate LooksUp(rows: map<string, Row>, emailId: string, tag: Option<string>, found: Option<string>) {
    if tag.Some? then found == if tag.value in rows then tag else None
    else
      && (found.Some? ==> found.value in rows && rows[found.value].providerMessageId == Some(emailId))
      && (found.None? ==> forall d :: d in rows ==> rows[d].providerMessageId != Some(emailId))
  }

  /** The event is recorded already, or its mail is another delivery's: the transaction rolls back. */
  predicate IsDuplicate(rows: map<string, Row>, events: Seen, h: Hook, d: string) {
    (h.kind, h.emailId) in events || Clashes(rows, d, Correlate(h.emailId))
  }

  function RowHandled(rows: map<string, Row>, events: Seen, h: Hook, d: string): Row
    requires d in rows
  {
    if IsDuplicate(rows, events, h, d) then rows[d] else HandleOne(rows[d], events, h).0
  }

  function EventsHandled(rows: map<string, Row>, events: Seen, h: Hook, d: string): Seen
    requires d in rows
  {
    if IsDuplicate(rows, events, h, d) then events else HandleOne(rows[d], events, h).1
  }

  function NewsOf(d: string, before: Row, after: Row): Ledger {
    if before.status == after.status then multiset{} else multiset{(d, after.status)}
  }

  lemma {:induction false} TransactionIsHandleOne(w: World, h: Hook, d: string, x: Input)
    requires d in w.rows && x.fault == NoFault && x.at == h.at
    ensures var pc := Transacting(h.kind, h.emailId, d); var hit := TableWork(w, pc, x);
            && hit.rows == w.rows[d := RowHandled(w.rows, w.events, h, d)]
            && Once(OwesAfter(Proc(pc, None), hit)) == NewsOf(d, w.rows[d], RowHandled(w.rows, w.events, h, d))
            && (WebhookCommits(w, h.kind, h.emailId, d, x.fault) <==> !IsDuplicate(w.rows, w.events, h, d))
  {
    var pc := Transacting(h.kind, h.emailId, d);
    if IsDuplicate(w.rows, w.events, h, d) {
      assert w.rows[d := w.rows[d]] == w.rows;
    } else {
      var r := Execute(w.rows[d], Correlate(h.emailId));
      assert UpdateMany(w.rows, d, Correlate(h.emailId), NoFault).rows == w.rows[d := r];
      assert w.rows[d := r][d := Execute(r, ApplyEvent(h.kind, h.at))] == w.rows[d := Execute(r, ApplyEvent(h.kind, h.at))];
      StatusChangesExactlyOnMatch(w.rows[d], Correlate(h.emailId));
      StatusChangesExactlyOnMatch(r, ApplyEvent(h.kind, h.at));
    }
  }

  /** Refinement: a webhook handler left alone is one turn of the fold on the row it looks up. */
  lemma {:induction false} HandlerRuns(w: World, p: nat, h: Hook, tag: Option<string>, found: Option<string>) returns (w': World)
    requires p < |w.procs| && w.procs[p] == Proc(Finding(h.kind, h.emailId, tag), None) && h.at <= w.clock
    requires LooksUp(w.rows, h.emailId, tag, found)
    ensures Leads(w, w', p, true) && OnlyP(w, w', p) && w'.procs[p] == Proc(Done, None) && w'.jobs == w.jobs
    ensures found.None? ==> w'.rows == w.rows && w'.events == w.events && w'.published == w.published
    ensures found.Some? ==>
              var d := found.value; var after := RowHandled(w.rows, w.events, h, d);
              && w'.rows == w.rows[d := after] && w'.events == EventsHandled(w.rows, w.events, h, d)
              && w'.published == w.published + NewsOf(d, w.rows[d], after)
  {
    var x := Input(h.at, NoFault, Reply(None, NoId), if found.Some? then [found.value] else []);
    var w1 := StepAlone(w, p, x, true);
    w' := w1;
    if found.Some? {
      w' := TransactionRuns(w1, p, h, found.value, x);
      LeadsOn(w, w1, w', p, true);
    }
  }

  lemma {:induction false} TransactionRuns(w: World, p: nat, h: Hook, d: string, x: Input) returns (w': World)
    requires p < |w.procs| && w.procs[p] == Proc(Transacting(h.kind, h.emailId, d), None)
    requires d in w.rows && x.fault == NoFault && x.at == h.at <= w.clock
    ensures Leads(w, w', p, true) && OnlyP(w, w', p) && w'.procs[p] == Proc(Done, None) && w'.jobs == w.jobs
    ensures var after := RowHandled(w.rows, w.events, h, d);
            && w'.rows == w.rows[d := after] && w'.events == EventsHandled(w.rows, w.events, h, d)
            && w'.published == w.published + NewsOf(d, w.rows[d], after)
  {
    TransactionIsHandleOne(w, h, d, x);
    w' := StepAndPublish(w, p, x, true);
  }
}
