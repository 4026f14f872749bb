/** What every step of the outbound protocol keeps, and so what holds in every reachable world:
    rows only advance, timestamps agree with statuses, statuses are honest about acceptance by the
    provider, and every committed status change is published exactly once or accounted for. */
module OutboundSafety {
  import opened Basics
  import opened DeliveryRow
  import opened OutboundProtocol

  // ---------------------------------------------------------------- rows only advance

  ghost predicate RowsAdvance(before: map<string, Row>, after: map<string, Row>) {
    forall d :: d in before ==> d in after && Advances(before[d], after[d])
  }

  ghost predicate AllTimestampsAgree(rows: map<string, Row>) {
    forall d :: d in rows ==> TimestampsAgree(rows[d])
  }

  lemma {:induction false} UpdateManyAdvances(rows: map<string, Row>, d: string, stmt: Statement, fault: Fault)
    ensures var hit := UpdateMany(rows, d, stmt, fault);
            && RowsAdvance(rows, hit.rows)
            && (AllTimestampsAgree(rows) ==> AllTimestampsAgree(hit.rows))
  {
    if d in rows {
      ExecuteAdvances(rows[d], stmt);
    }
  }

  lemma {:induction false} TableWorkAdvances(w: World, pc: Pc, x: Input)
    ensures RowsAdvance(w.rows, TableWork(w, pc, x).rows)
    ensures AllTimestampsAgree(w.rows) ==> AllTimestampsAgree(TableWork(w, pc, x).rows)
  {
    if pc.Transacting? {
      UpdateManyAdvances(w.rows, pc.delivery, Correlate(pc.emailId), NoFault);
      UpdateManyAdvances(UpdateMany(w.rows, pc.delivery, Correlate(pc.emailId), NoFault).rows,
                         pc.delivery, ApplyEvent(pc.kind, x.at), x.fault);
    } else if StatementOf(pc, x).Some? {
      UpdateManyAdvances(w.rows, StatementOf(pc, x).value.0, StatementOf(pc, x).value.1, x.fault);
    }
  }

  predicate Quiet(a: Action) {
    !a.Advance? && !a.CreateMessage?
  }

  /** Every other step leaves the table, the provider and the commit ledger alone. */
  lemma {:induction false} QuietStep(w: World, a: Action)
    requires Enabled(w, a) && Quiet(a)
    ensures var w' := Next(w, a);
            w'.rows == w.rows && w'.keys == w.keys && w'.mails == w.mails && w'.committed == w.committed
  {
  }

  lemma {:induction false} CreateStep(w: World, d: string, recipient: Option<string>, at: nat, fault: Fault)
    requires Enabled(w, CreateMessage(d, recipient, at, fault))
    ensures var w' := Next(w, CreateMessage(d, recipient, at, fault));
            && w'.keys == w.keys && w'.mails == w.mails
            && (w'.rows == w.rows || w'.rows == w.rows[d := NewRow(recipient, true, at)])
  {
  }

  lemma {:induction false} NewRowAgrees(recipient: Option<string>, at: nat)
    ensures TimestampsAgree(NewRow(recipient, true, at))
    ensures NewRow(recipient, true, at).status in {PENDING, FAILED}
    ensures NewRow(recipient, true, at).providerMessageId == None
  {
  }

  lemma {:induction false} AdvanceAdvances(w: World, p: nat, x: Input)
    requires Enabled(w, Advance(p, x))
    ensures RowsAdvance(w.rows, Next(w, Advance(p, x)).rows)
    ensures AllTimestampsAgree(w.rows) ==> AllTimestampsAgree(Next(w, Advance(p, x)).rows)
  {
    TableWorkAdvances(w, w.procs[p].pc, x);
  }

  /** Every step by every writer keeps or raises the rank of every delivery and never changes a
      terminal status; timestamps keep agreeing with statuses. */
  lemma {:induction false} StepAdvances(w: World, a: Action)
    requires Enabled(w, a)
    ensures RowsAdvance(w.rows, Next(w, a).rows)
    ensures AllTimestampsAgree(w.rows) ==> AllTimestampsAgree(Next(w, a).rows)
  {
    if a.Advance? {
      AdvanceAdvances(w, a.p, a.x);
    } else if a.CreateMessage? {
      CreateStep(w, a.delivery, a.recipient, a.at, a.fault);
      NewRowAgrees(a.recipient, a.at);
    } else {
      QuietStep(w, a);
    }
  }

  lemma {:induction false} TimestampsAlwaysAgree(ws: seq<World>, acts: seq<Action>)
    requires IsRun(ws, acts)
    ensures forall i :: 0 <= i < |ws| ==> AllTimestampsAgree(ws[i].rows)
  {
    if acts != [] {
      Shorter(ws, acts);
      TimestampsAlwaysAgree(ws[..|ws| - 1], acts[..|acts| - 1]);
      assert ws[|acts| - 1] == ws[..|ws| - 1][|acts| - 1];
      StepAdvances(ws[|acts| - 1], acts[|acts| - 1]);
      forall i | 0 <= i < |ws| ensures AllTimestampsAgree(ws[i].rows) {
        if i < |acts| {
          assert ws[i] == ws[..|ws| - 1][i];
        }
      }
    }
  }

  /** Delivery monotonicity over any stretch of any run. */
  lemma {:induction false} DeliveriesOnlyAdvance(ws: seq<World>, acts: seq<Action>, i: nat, j: nat)
    requires IsRun(ws, acts) && i <= j < |ws|
    ensures RowsAdvance(ws[i].rows, ws[j].rows)
    decreases j - i
  {
    if i < j {
      StepAdvances(ws[i], acts[i]);
      DeliveriesOnlyAdvance(ws, acts, i + 1, j);
    }
  }

  // ---------------------------------------------------------------- honest statuses

  predicate ImpliesAcceptance(s: Status) {
    s in {SENT, DELAYED, DELIVERED, BOUNCED, COMPLAINED, SUPPRESSED}
  }

  /** id is the email the provider accepted for delivery d. */
  ghost predicate IsMailOf(w: World, d: string, id: string) {
    IdempotencyKey(d) in w.keys && w.keys[IdempotencyKey(d)] == id
  }

  ghost predicate ProviderConsistent(w: World) {
    && (forall id :: id in w.mails ==> IsMailOf(w, w.mails[id], id))
    && (forall key :: key in w.keys ==> w.keys[key] in w.mails && IdempotencyKey(w.mails[w.keys[key]]) == key)
  }

  ghost predicate RowHonest(w: World, d: string)
    requires d in w.rows
  {
    && (w.rows[d].providerMessageId.Some? ==> IsMailOf(w, d, w.rows[d].providerMessageId.value))
    && (ImpliesAcceptance(w.rows[d].status) ==> IdempotencyKey(d) in w.keys)
  }

  ghost predicate PcHonest(w: World, pc: Pc) {
    match pc
    case Finishing(c, _, id) => IsMailOf(w, c.delivery, id)
    case Filling(c, _, id) => IsMailOf(w, c.delivery, id)
    case Transacting(_, emailId, d) => IsMailOf(w, d, emailId)
    case Finding(_, emailId, tag) => emailId in w.mails && (tag.Some? ==> tag.value == w.mails[emailId])
    case _ => true
  }

  ghost predicate Honest(w: World) {
    && ProviderConsistent(w)
    && (forall d :: d in w.rows ==> RowHonest(w, d))
    && (forall p :: 0 <= p < |w.procs| ==> PcHonest(w, w.procs[p].pc))
  }

  lemma {:induction false} KeyInjective(d: string, e: string)
    requires IdempotencyKey(d) == IdempotencyKey(e)
    ensures d == e
  {
    var k := |"email-delivery/"|;
    assert IdempotencyKey(d)[k..] == d && IdempotencyKey(e)[k..] == e;
  }

  /** The provider only learns: no accepted mail, key or tag is ever changed. */
  ghost predicate ProviderGrows(before: World, after: World) {
    && (forall key :: key in before.keys ==> key in after.keys && after.keys[key] == before.keys[key])
    && (forall id :: id in before.mails ==> id in after.mails && after.mails[id] == before.mails[id])
  }

  ghost predicate AcceptanceHonest(w: World, pc: Pc, x: Input) {
    pc.Sending? ==> HonestReply(w, pc.c.delivery, x.reply)
  }

  lemma {:induction false} SendKeepsProvider(w: World, w': World, pc: Pc, x: Input)
    requires ProviderConsistent(w) && AcceptanceHonest(w, pc, x)
    requires w'.keys == KeysAfter(w, pc, x) && w'.mails == MailsAfter(w, pc, x)
    ensures ProviderConsistent(w') && ProviderGrows(w, w')
  {
    if AcceptedIn(pc, x).Some? && IdempotencyKey(pc.c.delivery) in w.keys {
      KeyInjective(w.mails[w.keys[IdempotencyKey(pc.c.delivery)]], pc.c.delivery);
    }
  }

  lemma {:induction false} StepKeepsProvider(w: World, a: Action)
    requires Honest(w) && Enabled(w, a)
    ensures ProviderConsistent(Next(w, a)) && ProviderGrows(w, Next(w, a))
  {
    match a
    case Advance(p, x) => SendKeepsProvider(w, Next(w, a), w.procs[p].pc, x);
    case CreateMessage(d, recipient, at, fault) => CreateStep(w, d, recipient, at, fault);
    case _ => QuietStep(w, a);
  }

  /** A statement justified by an accepted mail keeps its row honest. */
  lemma {:induction false} UpdateKeepsRowsHonest(w: World, d: string, stmt: Statement, fault: Fault)
    requires forall k :: k in w.rows ==> RowHonest(w, k)
    requires stmt.MarkSent? || stmt.FillProviderId? || stmt.Correlate? ==> IsMailOf(w, d, stmt.id)
    requires stmt.ApplyEvent? ==> IdempotencyKey(d) in w.keys
    ensures var rows := UpdateMany(w.rows, d, stmt, fault).rows;
            forall k :: k in rows ==> RowHonest(w.(rows := rows), k)
  {
    var rows := UpdateMany(w.rows, d, stmt, fault).rows;
    forall k | k in rows ensures RowHonest(w.(rows := rows), k) {
      assert k in w.rows && RowHonest(w, k);
    }
  }

  lemma {:induction false} TableWorkKeepsRowsHonest(w: World, pc: Pc, x: Input)
    requires forall d :: d in w.rows ==> RowHonest(w, d)
    requires PcHonest(w, pc)
    ensures var rows := TableWork(w, pc, x).rows;
            forall d :: d in rows ==> RowHonest(w.(rows := rows), d)
  {
    if pc.Transacting? {
      var d := pc.delivery;
      UpdateKeepsRowsHonest(w, d, Correlate(pc.emailId), NoFault);
      UpdateKeepsRowsHonest(w.(rows := UpdateMany(w.rows, d, Correlate(pc.emailId), NoFault).rows),
                            d, ApplyEvent(pc.kind, x.at), x.fault);
    } else if StatementOf(pc, x).Some? {
      UpdateKeepsRowsHonest(w, StatementOf(pc, x).value.0, StatementOf(pc, x).value.1, x.fault);
    }
  }

  /** Growing the provider's records keeps rows and processes honest. */
  lemma {:induction false} GrowthKeepsHonesty(w: World, w': World)
    requires ProviderGrows(w, w')
    ensures forall d :: d in w.rows && d in w'.rows && w.rows[d] == w'.rows[d] && RowHonest(w, d) ==> RowHonest(w', d)
    ensures forall pc :: PcHonest(w, pc) ==> PcHonest(w', pc)
  {
  }

  /** A webhook handler that looks its delivery up finds the one its mail belongs to. */
  lemma {:induction false} FindingIsHonest(w: World, pc: Pc, x: Input)
    requires Honest(w) && pc.Finding? && PcHonest(w, pc)
    requires QueryAnswered(w, pc, x) && |x.found| == 1
    ensures IsMailOf(w, x.found[0], pc.emailId)
  {
    if pc.tag.None? {
      assert RowHonest(w, x.found[0]);
    }
  }

  /** The steps after which a process trusts an email id are the send that returned it and the lookup
      that found its delivery; everywhere else it only carries an id along. */
  lemma {:induction false} PcAfterHonest(w: World, w': World, pc: Pc, x: Input, hit: Hit)
    requires Honest(w) && PcHonest(w, pc) && QueryAnswered(w, pc, x)
    requires ProviderGrows(w, w') && w'.keys == KeysAfter(w, pc, x)
    ensures PcHonest(w', PcAfter(w, pc, x, hit))
  {
    var after := PcAfter(w, pc, x, hit);
    if pc.Sending? {
      assert after.Finishing? ==> Sendable(pc.c) && x.reply.answer == GotId(after.id);
    } else if pc.Finding? {
      if |x.found| == 1 {
        FindingIsHonest(w, pc, x);
      }
    } else if pc.Finishing? {
      assert after.Filling? ==> IsMailOf(w, pc.c.delivery, pc.id);
    } else {
      assert !after.Finishing? && !after.Filling? && !after.Transacting? && !after.Finding?;
    }
  }

  lemma {:induction false} AdvanceKeepsHonest(w: World, p: nat, x: Input)
    requires Honest(w) && Enabled(w, Advance(p, x))
    ensures Honest(Next(w, Advance(p, x)))
  {
    var w', pc := Next(w, Advance(p, x)), w.procs[p].pc;
    assert PcHonest(w, pc);
    StepKeepsProvider(w, Advance(p, x));
    TableWorkKeepsRowsHonest(w, pc, x);
    GrowthKeepsHonesty(w, w');
    GrowthKeepsHonesty(w.(rows := w'.rows), w');
    PcAfterHonest(w, w', pc, x, TableWork(w, pc, x));
  }

  lemma {:induction false} CreateKeepsHonest(w: World, d: string, recipient: Option<string>, at: nat, fault: Fault)
    requires Honest(w) && Enabled(w, CreateMessage(d, recipient, at, fault))
    ensures Honest(Next(w, CreateMessage(d, recipient, at, fault)))
  {
    var w' := Next(w, CreateMessage(d, recipient, at, fault));
    CreateStep(w, d, recipient, at, fault);
    NewRowAgrees(recipient, at);
    GrowthKeepsHonesty(w, w');
    CreateProcesses(w, d, recipient, at, fault);
  }

  lemma {:induction false} CreateProcesses(w: World, d: string, recipient: Option<string>, at: nat, fault: Fault)
    requires Honest(w)
    ensures forall p :: 0 <= p < |AfterCreate(w, d, recipient, at, fault).procs| ==>
              PcHonest(w, AfterCreate(w, d, recipient, at, fault).procs[p].pc)
  {
    forall p | 0 <= p < |AfterCreate(w, d, recipient, at, fault).procs|
      ensures PcHonest(w, AfterCreate(w, d, recipient, at, fault).procs[p].pc)
    {
      if p < |w.procs| {
        assert PcHonest(w, w.procs[p].pc);
      }
    }
  }

  lemma {:induction false} QuietKeepsHonest(w: World, a: Action)
    requires Honest(w) && Enabled(w, a) && Quiet(a)
    ensures Honest(Next(w, a))
  {
    QuietStep(w, a);
    GrowthKeepsHonesty(w, Next(w, a));
    QuietProcesses(w, a);
  }

  lemma {:induction false} QuietProcesses(w: World, a: Action)
    requires Honest(w) && Enabled(w, a) && Quiet(a)
    ensures forall p :: 0 <= p < |Next(w, a).procs| ==> PcHonest(w, Next(w, a).procs[p].pc)
  {
    forall p | 0 <= p < |Next(w, a).procs| ensures PcHonest(w, Next(w, a).procs[p].pc) {
      if p < |w.procs| {
        assert PcHonest(w, w.procs[p].pc);
      }
    }
  }

  lemma {:induction false} StepKeepsHonest(w: World, a: Action)
    requires Honest(w) && Enabled(w, a)
    ensures Honest(Next(w, a))
  {
    match a
    case Advance(p, x) => AdvanceKeepsHonest(w, p, x);
    case CreateMessage(d, recipient, at, fault) => CreateKeepsHonest(w, d, recipient, at, fault);
    case _ => QuietKeepsHonest(w, a);
  }

  lemma {:induction false} AlwaysHonest(ws: seq<World>, acts: seq<Action>)
    requires IsRun(ws, acts)
    ensures forall i :: 0 <= i < |ws| ==> Honest(ws[i])
  {
    if acts != [] {
      Shorter(ws, acts);
      AlwaysHonest(ws[..|ws| - 1], acts[..|acts| - 1]);
      assert ws[|acts| - 1] == ws[..|ws| - 1][|acts| - 1];
      StepKeepsHonest(ws[|acts| - 1], acts[|acts| - 1]);
      forall i | 0 <= i < |ws| ensures Honest(ws[i]) {
        if i < |acts| {
          assert ws[i] == ws[..|ws| - 1][i];
        }
      }
    }
  }

  /** Honest status, as a reader would say it: one mail per delivery at most, the provider id is that
      mail's, and a status past SENDING (other than FAILED) means that mail was accepted. */
  lemma {:induction false} HonestStatus(ws: seq<World>, acts: seq<Action>, i: nat)
    requires IsRun(ws, acts) && i < |ws|
    ensures forall id, other | id in ws[i].mails && other in ws[i].mails ::
              ws[i].mails[id] == ws[i].mails[other] ==> id == other
    ensures forall d :: d in ws[i].rows && ws[i].rows[d].providerMessageId.Some? ==>
              ws[i].rows[d].providerMessageId.value in ws[i].mails &&
              ws[i].mails[ws[i].rows[d].providerMessageId.value] == d
    ensures forall d :: d in ws[i].rows && ImpliesAcceptance(ws[i].rows[d].status) ==>
              exists id :: id in ws[i].mails && ws[i].mails[id] == d
  {
    AlwaysHonest(ws, acts);
    var w := ws[i];
    forall d | d in w.rows && IdempotencyKey(d) in w.keys
      ensures w.keys[IdempotencyKey(d)] in w.mails && w.mails[w.keys[IdempotencyKey(d)]] == d
    {
      KeyInjective(w.mails[w.keys[IdempotencyKey(d)]], d);
    }
    assert forall d :: d in w.rows ==> RowHonest(w, d);
  }

  lemma {:induction false} ProviderGrowsAlong(ws: seq<World>, acts: seq<Action>, i: nat, j: nat)
    requires IsRun(ws, acts) && i <= j < |ws|
    ensures ProviderGrows(ws[i], ws[j])
    decreases j - i
  {
    if i < j {
      AlwaysHonest(ws, acts);
      StepKeepsProvider(ws[i], acts[i]);
      ProviderGrowsAlong(ws, acts, i + 1, j);
    }
  }

  /** Two provider ids ever recorded for one delivery are the same id. */
  lemma {:induction false} ProviderIdNeverChanges(ws: seq<World>, acts: seq<Action>, i: nat, j: nat, d: string)
    requires IsRun(ws, acts) && i <= j < |ws|
    requires d in ws[i].rows && ws[i].rows[d].providerMessageId.Some?
    requires d in ws[j].rows && ws[j].rows[d].providerMessageId.Some?
    ensures ws[i].rows[d].providerMessageId == ws[j].rows[d].providerMessageId
  {
    AlwaysHonest(ws, acts);
    ProviderGrowsAlong(ws, acts, i, j);
    assert RowHonest(ws[i], d) && RowHonest(ws[j], d);
  }

  // ---------------------------------------------------------------- publication

  function One(owes: Option<(string, Status)>, change: (string, Status)): nat {
    if owes == Some(change) then 1 else 0
  }

  /** How many live processes have committed this change and not yet published it. */
  ghost function Owing(procs: seq<Proc>, change: (string, Status)): nat {
    if procs == [] then 0 else Owing(procs[..|procs| - 1], change) + One(procs[|procs| - 1].owes, change)
  }

  lemma {:induction false} OwingUpdate(procs: seq<Proc>, p: nat, q: Proc, change: (string, Status))
    requires p < |procs|
    ensures Owing(procs[p := q], change) == Owing(procs, change) - One(procs[p].owes, change) + One(q.owes, change)
  {
    var init, last := procs[..|procs| - 1], |procs| - 1;
    if p < last {
      OwingUpdate(init, p, q, change);
      assert procs[p := q][..last] == init[p := q];
    } else {
      assert procs[p := q][..last] == init;
    }
  }

  lemma {:induction false} OwingAppend(procs: seq<Proc>, q: Proc, change: (string, Status))
    ensures Owing(procs + [q], change) == Owing(procs, change) + One(q.owes, change)
  {
    assert (procs + [q])[..|procs|] == procs;
  }

  ghost predicate BalancedAt(w: World, c: (string, Status)) {
    w.committed[c] == w.published[c] + Owing(w.procs, c) + w.lost[c]
  }

  /** As multisets, committed is published plus owed plus lost. */
  ghost predicate Conserved(w: World) {
    forall change :: BalancedAt(w, change)
  }

  /** What one step does to the ledgers, in the three ways the program allows: an update that wins is
      owed (or lost, if its caller never learns of it), one that loses changes nothing, and a debt is
      kept or lost. */
  ghost predicate Accounted(owes: Option<(string, Status)>, hit: Hit, owesAfter: Option<(string, Status)>,
                            lost: Option<(string, Status)>) {
    || (owes == None && owesAfter == hit.change && lost == None)
    || (owes == None && owesAfter == None && lost == hit.change)
    || (hit.change == None && owesAfter == owes && lost == None)
    || (hit.change == None && owesAfter == None && lost == owes)
  }

  /** The program announces exactly the status its statement writes. */
  lemma {:induction false} AnnouncesWhatItWrites(w: World, pc: Pc, x: Input)
    ensures var hit := TableWork(w, pc, x);
            hit.change == if hit.count == 1 then Announcement(pc) else None
  {
    if pc.Transacting? {
      var rows := UpdateMany(w.rows, pc.delivery, Correlate(pc.emailId), NoFault).rows;
      if pc.delivery in rows {
        StatusChangesExactlyOnMatch(rows[pc.delivery], ApplyEvent(pc.kind, x.at));
      }
    } else if StatementOf(pc, x).Some? {
      var (d, stmt) := StatementOf(pc, x).value;
      if d in w.rows {
        StatusChangesExactlyOnMatch(w.rows[d], stmt);
      }
    }
  }

  lemma {:induction false} AdvanceAccounted(w: World, p: nat, x: Input)
    requires Enabled(w, Advance(p, x))
    ensures var q := w.procs[p]; var hit := TableWork(w, q.pc, x);
            Accounted(q.owes, hit, OwesAfter(q, hit), LostAfter(q, hit))
  {
    AnnouncesWhatItWrites(w, w.procs[p].pc, x);
  }

  /** The balance of a step that changes process p and the ledgers. */
  lemma {:induction false} Balance(w: World, w': World, p: nat, q: Proc, change: Option<(string, Status)>,
                paid: Option<(string, Status)>, lost: Option<(string, Status)>)
    requires Conserved(w) && p < |w.procs| && w'.procs == w.procs[p := q]
    requires w'.committed == w.committed + Once(change)
    requires w'.published == w.published + Once(paid)
    requires w'.lost == w.lost + Once(lost)
    requires forall c :: One(w.procs[p].owes, c) + One(change, c) == One(q.owes, c) + One(paid, c) + One(lost, c)
    ensures Conserved(w')
  {
    forall c ensures BalancedAt(w', c) {
      OwingUpdate(w.procs, p, q, c);
      assert BalancedAt(w, c);
      assert One(w.procs[p].owes, c) + One(change, c) == One(q.owes, c) + One(paid, c) + One(lost, c);
      assert Once(change)[c] == One(change, c) && Once(paid)[c] == One(paid, c) && Once(lost)[c] == One(lost, c);
    }
  }

  lemma {:induction false} AdvanceConserves(w: World, p: nat, x: Input)
    requires Enabled(w, Advance(p, x)) && Conserved(w)
    ensures Conserved(Next(w, Advance(p, x)))
  {
    var q := w.procs[p];
    var hit := TableWork(w, q.pc, x);
    AdvanceAccounted(w, p, x);
    Balance(w, Next(w, Advance(p, x)), p, Proc(PcAfter(w, q.pc, x, hit), OwesAfter(q, hit)),
            hit.change, None, LostAfter(q, hit));
  }

  lemma {:induction false} PublishConserves(w: World, p: nat)
    requires Enabled(w, Publish(p)) && Conserved(w)
    ensures Conserved(Next(w, Publish(p)))
  {
    Balance(w, Next(w, Publish(p)), p, w.procs[p].(owes := None), None, w.procs[p].owes, None);
  }

  lemma {:induction false} CrashConserves(w: World, p: nat)
    requires Enabled(w, Crash(p)) && Conserved(w)
    ensures Conserved(Next(w, Crash(p)))
  {
    Balance(w, Next(w, Crash(p)), p, Proc(Done, None), None, None, w.procs[p].owes);
  }

  lemma {:induction false} AddsOne(m: Ledger, change: (string, Status), c: (string, Status))
    ensures (m + multiset{change})[c] == m[c] + One(Some(change), c)
  {
  }

  lemma {:induction false} CreateConserves(w: World, d: string, recipient: Option<string>, at: nat, fault: Fault)
    requires Enabled(w, CreateMessage(d, recipient, at, fault)) && Conserved(w)
    ensures Conserved(Next(w, CreateMessage(d, recipient, at, fault)))
  {
    var change := (d, NewRow(recipient, true, at).status);
    forall c ensures BalancedAt(AfterCreate(w, d, recipient, at, fault), c) {
      assert BalancedAt(w, c);
      AddsOne(w.committed, change, c);
      AddsOne(w.lost, change, c);
      if fault == NoFault {
        CreatedOwes(w, d, recipient, at, c);
      }
    }
  }

  lemma {:induction false} CreatedOwes(w: World, d: string, recipient: Option<string>, at: nat, c: (string, Status))
    ensures Owing(AfterCreate(w, d, recipient, at, NoFault).procs, c) ==
            Owing(w.procs, c) + One(Some((d, NewRow(recipient, true, at).status)), c)
  {
    var r := NewRow(recipient, true, at);
    OwingAppend(w.procs, Proc(if r.status == PENDING then Queueing(d, GetJob, []) else Done, Some((d, r.status))), c);
  }

  /** A step that only starts a process, or changes neither processes nor ledgers. */
  lemma {:induction false} QuietConserves(w: World, a: Action)
    requires Enabled(w, a) && Conserved(w)
    requires Quiet(a) && !a.Publish? && !a.Crash?
    ensures Conserved(Next(w, a))
  {
    var w' := Next(w, a);
    forall c ensures BalancedAt(w', c) {
      assert BalancedAt(w, c);
      if |w'.procs| > |w.procs| {
        OwingAppend(w.procs, w'.procs[|w.procs|], c);
      }
    }
  }

  lemma {:induction false} StepConserves(w: World, a: Action)
    requires Enabled(w, a) && Conserved(w)
    ensures Conserved(Next(w, a))
  {
    match a
    case Advance(p, x) => AdvanceConserves(w, p, x);
    case Publish(p) => PublishConserves(w, p);
    case Crash(p) => CrashConserves(w, p);
    case CreateMessage(d, recipient, at, fault) => CreateConserves(w, d, recipient, at, fault);
    case _ => QuietConserves(w, a);
  }

  /** Publication conservation: in every reachable world the committed status changes are, as a
      multiset, those published, those a live process still owes, and those lost to a failure. */
  lemma {:induction false} PublicationConserved(ws: seq<World>, acts: seq<Action>)
    requires IsRun(ws, acts)
    ensures Conserved(ws[|acts|])
  {
    if acts != [] {
      Shorter(ws, acts);
      PublicationConserved(ws[..|ws| - 1], acts[..|acts| - 1]);
      StepConserves(ws[|acts| - 1], acts[|acts| - 1]);
    }
  }

  /** The step goes as planned: no crash, no failing database call. */
  predicate Faultless(a: Action) {
    !a.Crash? && (a.CreateMessage? ==> a.fault == NoFault) && (a.Advance? ==> a.x.fault == NoFault)
  }

  /** No unique violation on the provider id either: the id is the delivery's own mail. */
  lemma {:induction false} NoClash(w: World, d: string, stmt: Statement)
    requires Honest(w)
    requires stmt.MarkSent? || stmt.FillProviderId? || stmt.Correlate? ==> IsMailOf(w, d, stmt.id)
    ensures !Clashes(w.rows, d, stmt)
  {
    if Clashes(w.rows, d, stmt) {
      var other :| other in w.rows && other != d && w.rows[other].providerMessageId == Some(stmt.id);
      assert RowHonest(w, other);
      KeyInjective(w.mails[stmt.id], other);
      KeyInjective(w.mails[stmt.id], d);
    }
  }

  /** A duplicate webhook is rolled back; nothing else throws when no call fails. */
  lemma {:induction false} FaultlessTableWork(w: World, pc: Pc, x: Input)
    requires Honest(w) && PcHonest(w, pc) && x.fault == NoFault
    ensures TableWork(w, pc, x).threw ==> pc.Transacting? && TableWork(w, pc, x).change == None
  {
    if StatementOf(pc, x).Some? {
      NoClash(w, StatementOf(pc, x).value.0, StatementOf(pc, x).value.1);
    }
  }

  lemma {:induction false} FaultlessAdvanceLosesNothing(w: World, p: nat, x: Input)
    requires Honest(w) && Enabled(w, Advance(p, x)) && x.fault == NoFault
    ensures Next(w, Advance(p, x)).lost == w.lost
  {
    assert PcHonest(w, w.procs[p].pc);
    FaultlessTableWork(w, w.procs[p].pc, x);
    assert LostAfter(w.procs[p], TableWork(w, w.procs[p].pc, x)) == None;
  }

  lemma {:induction false} FaultlessStepLosesNothing(w: World, a: Action)
    requires Honest(w) && Enabled(w, a) && Faultless(a)
    ensures Next(w, a).lost == w.lost
  {
    match a
    case Advance(p, x) => FaultlessAdvanceLosesNothing(w, p, x);
    case _ =>
  }

  lemma {:induction false} FaultlessRunsLoseNothing(ws: seq<World>, acts: seq<Action>)
    requires IsRun(ws, acts)
    requires forall i :: 0 <= i < |acts| ==> Faultless(acts[i])
    ensures ws[|acts|].lost == multiset{}
  {
    if acts != [] {
      Shorter(ws, acts);
      FaultlessRunsLoseNothing(ws[..|ws| - 1], acts[..|acts| - 1]);
      AlwaysHonest(ws, acts);
      FaultlessStepLosesNothing(ws[|acts| - 1], acts[|acts| - 1]);
    }
  }

  /** Without faults nothing is lost: published plus owed is exactly what was committed. */
  lemma {:induction false} FaultlessRunsPublishEverything(ws: seq<World>, acts: seq<Action>)
    requires IsRun(ws, acts)
    requires forall i :: 0 <= i < |acts| ==> Faultless(acts[i])
    ensures ws[|acts|].lost == multiset{}
    ensures forall change :: ws[|acts|].committed[change] == ws[|acts|].published[change] + Owing(ws[|acts|].procs, change)
  {
    PublicationConserved(ws, acts);
    FaultlessRunsLoseNothing(ws, acts);
    forall change ensures ws[|acts|].committed[change] == ws[|acts|].published[change] + Owing(ws[|acts|].procs, change) {
      assert BalancedAt(ws[|acts|], change);
    }
  }

  /** What a step changed in the table: nothing, one new row, or one row's status. */
  ghost function Difference(before: map<string, Row>, after: map<string, Row>, d: string): Option<(string, Status)> {
    if d !in after then None
    else if d !in before then Some((d, after[d].status))
    else StatusChange(d, before[d], after[d])
  }

  ghost predicate OnlyRow(before: map<string, Row>, after: map<string, Row>, d: string) {
    && before.Keys <= after.Keys <= before.Keys + {d}
    && forall k :: k in before && k != d ==> after[k] == before[k]
  }

  /** The row a process's step may touch. */
  function Touches(pc: Pc, x: Input): string {
    if pc.Transacting? then pc.delivery
    else if StatementOf(pc, x).Some? then StatementOf(pc, x).value.0
    else ""
  }

  /** The row a step may touch. */
  function Touched(w: World, a: Action): string {
    match a
    case CreateMessage(d, _, _, _) => d
    case Advance(p, x) => if p < |w.procs| then Touches(w.procs[p].pc, x) else ""
    case _ => ""
  }

  lemma {:induction false} UpdateRecordsTheTable(rows: map<string, Row>, d: string, stmt: Statement, fault: Fault)
    ensures var hit := UpdateMany(rows, d, stmt, fault);
            OnlyRow(rows, hit.rows, d) && hit.change == Difference(rows, hit.rows, d)
  {
  }

  lemma {:induction false} HitRecordsTheTable(w: World, pc: Pc, x: Input)
    ensures var hit, d := TableWork(w, pc, x), Touches(pc, x);
            OnlyRow(w.rows, hit.rows, d) && hit.change == Difference(w.rows, hit.rows, d)
  {
    if pc.Transacting? {
      var d, rows := pc.delivery, UpdateMany(w.rows, pc.delivery, Correlate(pc.emailId), NoFault).rows;
      UpdateRecordsTheTable(w.rows, d, Correlate(pc.emailId), NoFault);
      UpdateRecordsTheTable(rows, d, ApplyEvent(pc.kind, x.at), x.fault);
      assert d in w.rows ==> rows[d].status == w.rows[d].status;
    } else if StatementOf(pc, x).Some? {
      UpdateRecordsTheTable(w.rows, StatementOf(pc, x).value.0, StatementOf(pc, x).value.1, x.fault);
    }
  }

  lemma {:induction false} AdvanceRecordsTheTable(w: World, p: nat, x: Input)
    requires Enabled(w, Advance(p, x))
    ensures var w', d := Next(w, Advance(p, x)), Touches(w.procs[p].pc, x);
            OnlyRow(w.rows, w'.rows, d) && w'.committed == w.committed + Once(Difference(w.rows, w'.rows, d))
  {
    HitRecordsTheTable(w, w.procs[p].pc, x);
  }

  lemma {:induction false} CreateRecordsTheTable(w: World, d: string, recipient: Option<string>, at: nat, fault: Fault)
    requires Enabled(w, CreateMessage(d, recipient, at, fault))
    ensures var w' := Next(w, CreateMessage(d, recipient, at, fault));
            OnlyRow(w.rows, w'.rows, d) && w'.committed == w.committed + Once(Difference(w.rows, w'.rows, d))
  {
  }

  /** The committed ledger is the truth: a step touches one row at most, and the ledger grows by
      exactly that row's status change. */
  lemma {:induction false} LedgerRecordsTheTable(w: World, a: Action)
    requires Enabled(w, a)
    ensures OnlyRow(w.rows, Next(w, a).rows, Touched(w, a))
    ensures Next(w, a).committed == w.committed + Once(Difference(w.rows, Next(w, a).rows, Touched(w, a)))
  {
    match a
    case Advance(p, x) => AdvanceRecordsTheTable(w, p, x);
    case CreateMessage(d, recipient, at, fault) => CreateRecordsTheTable(w, d, recipient, at, fault);
    case _ => QuietStep(w, a);
  }
}
