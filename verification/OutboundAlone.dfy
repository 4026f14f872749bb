/** One process of the outbound protocol left to itself: the runs in which only it steps. */
module OutboundAlone {
  import opened Basics
  import opened DeliveryRow
  import opened OutboundProtocol

  /** A step of process p; a clean one has no failing call. */
  predicate StepOf(a: Action, p: nat, clean: bool) {
    a == Publish(p) || (a.Advance? && a.p == p && (clean ==> a.x.fault == NoFault))
  }

  ghost predicate AloneRun(ws: seq<World>, acts: seq<Action>, p: nat, clean: bool) {
    && |ws| == |acts| + 1
    && forall i :: 0 <= i < |acts| ==>
         StepOf(acts[i], p, clean) && Enabled(ws[i], acts[i]) && ws[i + 1] == Next(ws[i], acts[i])
  }

  /** Alone, process p can take the world from w to w'. */
  ghost predicate Leads(w: World, w': World, p: nat, clean: bool) {
    exists ws, acts :: AloneRun(ws, acts, p, clean) && ws[0] == w && ws[|acts|] == w'
  }

  lemma {:induction false} StaysPut(w: World, p: nat, clean: bool)
    ensures Leads(w, w, p, clean)
  {
    assert AloneRun([w], [], p, clean);
  }

  lemma {:induction false} StepFirst(w: World, a: Action, ws: seq<World>, acts: seq<Action>, p: nat, clean: bool)
    requires StepOf(a, p, clean) && Enabled(w, a)
    requires AloneRun(ws, acts, p, clean) && ws[0] == Next(w, a)
    ensures AloneRun([w] + ws, [a] + acts, p, clean) && ([w] + ws)[|acts| + 1] == ws[|acts|]
  {
  }

  lemma {:induction false} StepLeads(w: World, a: Action, p: nat, clean: bool)
    requires StepOf(a, p, clean) && Enabled(w, a)
    ensures Leads(w, Next(w, a), p, clean)
  {
    StepFirst(w, a, [Next(w, a)], [], p, clean);
  }

  lemma {:induction false} LeadsOn(w: World, w1: World, w2: World, p: nat, clean: bool)
    requires Leads(w, w1, p, clean) && Leads(w1, w2, p, clean)
    ensures Leads(w, w2, p, clean)
  {
    var ws, acts :| AloneRun(ws, acts, p, clean) && ws[0] == w && ws[|acts|] == w1;
    RunLeadsOn(ws, acts, w2, p, clean);
  }

  lemma {:induction false} RunLeadsOn(ws: seq<World>, acts: seq<Action>, w2: World, p: nat, clean: bool)
    requires AloneRun(ws, acts, p, clean) && Leads(ws[|acts|], w2, p, clean)
    ensures Leads(ws[0], w2, p, clean)
    decreases |acts|
  {
    if acts != [] {
      var n := |acts| - 1;
      StepThen(ws[n], acts[n], w2, p, clean);
      RunLeadsOn(ws[..n + 1], acts[..n], w2, p, clean);
    }
  }

  lemma {:induction false} StepThen(w: World, a: Action, w2: World, p: nat, clean: bool)
    requires StepOf(a, p, clean) && Enabled(w, a) && Leads(Next(w, a), w2, p, clean)
    ensures Leads(w, w2, p, clean)
  {
    var ws, acts :| AloneRun(ws, acts, p, clean) && ws[0] == Next(w, a) && ws[|acts|] == w2;
    StepFirst(w, a, ws, acts, p, clean);
  }

  lemma {:induction false} Uncleanly(w: World, w': World, p: nat)
    requires Leads(w, w', p, true)
    ensures Leads(w, w', p, false)
  {
    var ws, acts :| AloneRun(ws, acts, p, true) && ws[0] == w && ws[|acts|] == w';
    assert AloneRun(ws, acts, p, false);
  }

  // ---------------------------------------------------------------- one update and its announcement

  /** The clock and every other process are as they were. */
  ghost predicate OnlyP(w: World, w': World, p: nat) {
    && p < |w.procs| == |w'.procs|
    && (forall q :: 0 <= q < |w.procs| && q != p ==> w'.procs[q] == w.procs[q])
    && w'.clock == w.clock
  }

  /** One step of p, field by field. */
  lemma {:induction false} StepAlone(w: World, p: nat, x: Input, clean: bool) returns (w': World)
    requires Enabled(w, Advance(p, x)) && (clean ==> x.fault == NoFault)
    ensures var q := w.procs[p]; var hit := TableWork(w, q.pc, x);
            && w' == Next(w, Advance(p, x))
            && Leads(w, w', p, clean) && OnlyP(w, w', p)
            && w'.procs[p] == Proc(PcAfter(w, q.pc, x, hit), OwesAfter(q, hit))
            && w'.rows == hit.rows && w'.jobs == JobsAfter(w, p, q.pc, x) && w'.published == w.published
            && (!q.pc.Transacting? ==> w'.events == w.events)
            && (!q.pc.Sending? ==> w'.keys == w.keys && w'.mails == w.mails)
  {
    w' := Next(w, Advance(p, x));
    StepLeads(w, Advance(p, x), p, clean);
  }

  /** The announcement p owes. */
  lemma {:induction false} PublishAlone(w: World, p: nat, clean: bool) returns (w': World)
    requires Enabled(w, Publish(p))
    ensures Leads(w, w', p, clean) && OnlyP(w, w', p)
    ensures w'.procs[p] == Proc(w.procs[p].pc, None) && w'.published == w.published + Once(w.procs[p].owes)
    ensures w'.rows == w.rows && w'.jobs == w.jobs && w'.events == w.events && w'.keys == w.keys && w'.mails == w.mails
  {
    w' := Next(w, Publish(p));
    StepLeads(w, Publish(p), p, clean);
  }

  /** One step of p and, if it then owes an announcement, the announcement. */
  lemma {:induction false} StepAndPublish(w: World, p: nat, x: Input, clean: bool) returns (w': World)
    requires Enabled(w, Advance(p, x)) && w.procs[p].owes == None && (clean ==> x.fault == NoFault)
    requires !w.procs[p].pc.Finishing? && !w.procs[p].pc.Sending?
    ensures var hit := TableWork(w, w.procs[p].pc, x);
            && Leads(w, w', p, clean) && OnlyP(w, w', p)
            && w'.procs[p] == Proc(PcAfter(w, w.procs[p].pc, x, hit), None)
            && w'.rows == hit.rows && w'.jobs == JobsAfter(w, p, w.procs[p].pc, x)
            && w'.published == w.published + Once(OwesAfter(w.procs[p], hit))
            && w'.events == Next(w, Advance(p, x)).events && w'.keys == w.keys && w'.mails == w.mails
  {
    var w1 := StepAlone(w, p, x, clean);
    NeverFilling(w, w.procs[p].pc, x);
    w' := w1;
    if w1.procs[p].owes.Some? {
      w' := PublishAlone(w1, p, clean);
      LeadsOn(w, w1, w', p, clean);
    }
  }

  lemma {:induction false} NeverFilling(w: World, pc: Pc, x: Input)
    requires !pc.Finishing?
    ensures !PcAfter(w, pc, x, TableWork(w, pc, x)).Filling?
  {
  }
}
