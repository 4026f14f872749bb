/** The outbound webhook handler as a fold over the events of one delivery: the webhook_events table
    drops repeats of (type, email id), and each remaining event is a compare-and-set on the status. */
module OutboundEvents {
  import opened Basics
  import opened DeliveryRow

  datatype Hook = Hook(kind: EventKind, emailId: string, at: nat)

  type Seen = set<(EventKind, string)>

  /** One handler transaction: claim the event row, correlate the provider id, move the status. */
  function HandleOne(r: Row, seen: Seen, h: Hook): (Row, Seen) {
    if (h.kind, h.emailId) in seen then (r, seen)
    else (Execute(Execute(r, Correlate(h.emailId)), ApplyEvent(h.kind, h.at)), seen + {(h.kind, h.emailId)})
  }

  function HandleAll(r: Row, seen: Seen, hooks: seq<Hook>): (Row, Seen)
    decreases hooks
  {
    if hooks == [] then (r, seen)
    else var (r', seen') := HandleOne(r, seen, hooks[0]); HandleAll(r', seen', hooks[1..])
  }

  /** The first terminal outcome among the events, if any. */
  function FirstTerminal(hooks: seq<Hook>): Option<Status> {
    if hooks == [] then None
    else if Terminal(TargetStatus(hooks[0].kind)) then Some(TargetStatus(hooks[0].kind))
    else FirstTerminal(hooks[1..])
  }

  /** The highest status among the start and the targets of non-terminal events. */
  function Highest(start: Status, hooks: seq<Hook>): Status
    decreases hooks
  {
    if hooks == [] then start
    else
      var t := TargetStatus(hooks[0].kind);
      Highest(if !Terminal(t) && Rank(start) < Rank(t) then t else start, hooks[1..])
  }

  function Expected(start: Status, hooks: seq<Hook>): Status {
    if Terminal(start) then start
    else if FirstTerminal(hooks).Some? then FirstTerminal(hooks).value
    else Highest(start, hooks)
  }

  /** Of these events, those the table already holds have had their effect on the row. Other deliveries'
      events do not matter. */
  ghost predicate Reflected(r: Row, seen: Seen, hooks: seq<Hook>) {
    forall h :: h in hooks && (h.kind, h.emailId) in seen ==> Rank(TargetStatus(h.kind)) <= Rank(r.status)
  }

  lemma {:induction false} HandleOneStatus(r: Row, seen: Seen, h: Hook, rest: seq<Hook>)
    requires Reflected(r, seen, [h] + rest)
    ensures var (r', seen') := HandleOne(r, seen, h);
            && Reflected(r', seen', rest)
            && r'.status == (if Rank(r.status) < Rank(TargetStatus(h.kind)) then TargetStatus(h.kind) else r.status)
  {
    assert h in [h] + rest;
    assert forall g :: g in rest ==> g in [h] + rest;
  }

  /** What an event does to an open row, kind by kind; nothing moves a terminal one. */
  ghost predicate MovedByKind(before: Row, after: Row, kind: EventKind, at: nat) {
    match kind
    case EmailSent =>
      after == if before.status in {PENDING, SENDING} then before.(status := SENT, sentAt := Some(at)) else before
    case EmailDelayed =>
      after == if before.status in {PENDING, SENDING, SENT} then before.(status := DELAYED) else before
    case EmailDelivered => after == if Open(before) then before.(status := DELIVERED, deliveredAt := Some(at)) else before
    case EmailBounced => after == if Open(before) then before.(status := BOUNCED, failedAt := Some(at)) else before
    case EmailComplained => after == if Open(before) then before.(status := COMPLAINED, failedAt := Some(at)) else before
    case EmailSuppressed => after == if Open(before) then before.(status := SUPPRESSED, failedAt := Some(at)) else before
    case EmailFailed => after == if Open(before) then before.(status := FAILED, failedAt := Some(at)) else before
  }

  predicate Open(r: Row) {
    r.status in {PENDING, SENDING, SENT, DELAYED}
  }

  /** The provider's id is filled in where there is none. */
  function WithProviderId(r: Row, emailId: string): Row {
    if r.providerMessageId.None? then r.(providerMessageId := Some(emailId)) else r
  }

  /** A new event is recorded, gives the row its provider id, and moves it as its kind says. */
  lemma {:induction false} HandleOneByKind(r: Row, seen: Seen, h: Hook)
    requires (h.kind, h.emailId) !in seen
    ensures var (r', seen') := HandleOne(r, seen, h);
            MovedByKind(WithProviderId(r, h.emailId), r', h.kind, h.at) && seen' == seen + {(h.kind, h.emailId)}
  {
    assert Execute(r, Correlate(h.emailId)) == WithProviderId(r, h.emailId);
    match h.kind
    case EmailSent => case EmailDelivered => case EmailDelayed => case EmailBounced =>
    case EmailComplained => case EmailSuppressed => case EmailFailed =>
  }

  /** Folding any list of events, duplicates and all, gives the first terminal outcome if there is
      one and otherwise the highest status seen. */
  lemma {:induction false} FoldGivesExpected(r: Row, seen: Seen, hooks: seq<Hook>)
    requires Reflected(r, seen, hooks)
    ensures HandleAll(r, seen, hooks).0.status == Expected(r.status, hooks)
    decreases hooks
  {
    if hooks != [] {
      assert hooks == [hooks[0]] + hooks[1..];
      HandleOneStatus(r, seen, hooks[0], hooks[1..]);
      var (r', seen') := HandleOne(r, seen, hooks[0]);
      FoldGivesExpected(r', seen', hooks[1..]);
    }
  }

  /** The events whose outcome is terminal agree on it. */
  ghost predicate OneOutcome(hooks: seq<Hook>) {
    forall i, j | 0 <= i < |hooks| && 0 <= j < |hooks| ::
      Terminal(TargetStatus(hooks[i].kind)) && Terminal(TargetStatus(hooks[j].kind)) ==>
        TargetStatus(hooks[i].kind) == TargetStatus(hooks[j].kind)
  }

  lemma {:induction false} FirstTerminalIsOne(hooks: seq<Hook>)
    ensures FirstTerminal(hooks).Some? ==>
              exists h :: h in hooks && Terminal(TargetStatus(h.kind)) && FirstTerminal(hooks) == Some(TargetStatus(h.kind))
    ensures FirstTerminal(hooks).None? ==> forall h :: h in hooks ==> !Terminal(TargetStatus(h.kind))
  {
    if hooks != [] {
      FirstTerminalIsOne(hooks[1..]);
      assert hooks == [hooks[0]] + hooks[1..];
      assert hooks[0] in hooks;
    }
  }

  lemma {:induction false} HighestIsLeastBound(start: Status, hooks: seq<Hook>)
    requires !Terminal(start)
    ensures var top := Highest(start, hooks);
            && !Terminal(top)
            && Rank(start) <= Rank(top)
            && (forall h :: h in hooks && !Terminal(TargetStatus(h.kind)) ==> Rank(TargetStatus(h.kind)) <= Rank(top))
            && (top == start || (Rank(start) < Rank(top) && exists h :: h in hooks && top == TargetStatus(h.kind)))
    decreases hooks
  {
    if hooks != [] {
      var t := TargetStatus(hooks[0].kind);
      HighestIsLeastBound(if !Terminal(t) && Rank(start) < Rank(t) then t else start, hooks[1..]);
      assert hooks == [hooks[0]] + hooks[1..];
      assert hooks[0] in hooks;
    }
  }

  lemma {:induction false} SameMembers(xs: seq<Hook>, ys: seq<Hook>)
    requires multiset(xs) == multiset(ys)
    ensures forall h :: h in xs <==> h in ys
  {
    forall h ensures h in xs <==> h in ys {
      assert h in xs <==> h in multiset(xs);
      assert h in ys <==> h in multiset(ys);
    }
  }

  /** Confluence: with at most one distinct terminal outcome, the order of arrival does not matter. */
  lemma {:induction false} OrderDoesNotMatter(r: Row, seen: Seen, xs: seq<Hook>, ys: seq<Hook>)
    requires Reflected(r, seen, xs)
    requires OneOutcome(xs) && multiset(xs) == multiset(ys)
    ensures HandleAll(r, seen, xs).0.status == HandleAll(r, seen, ys).0.status
  {
    SameMembers(xs, ys);
    FoldGivesExpected(r, seen, xs);
    FoldGivesExpected(r, seen, ys);
    FirstTerminalIsOne(xs);
    FirstTerminalIsOne(ys);
    if !Terminal(r.status) && FirstTerminal(xs).None? {
      HighestIsLeastBound(r.status, xs);
      HighestIsLeastBound(r.status, ys);
    }
  }

  /** The list with the event at index i moved to the front. */
  function ToFront(hooks: seq<Hook>, i: nat): seq<Hook>
    requires i < |hooks|
  {
    [hooks[i]] + hooks[..i] + hooks[i + 1..]
  }

  lemma {:induction false} ToFrontPermutes(hooks: seq<Hook>, i: nat)
    requires i < |hooks|
    ensures multiset(ToFront(hooks, i)) == multiset(hooks)
  {
    assert hooks == hooks[..i] + [hooks[i]] + hooks[i + 1..];
  }

  /** Confluence holds only then: a non-terminal delivery with two different terminal outcomes among
      its events ends differently in two orders. So OneOutcome is the exact condition. */
  lemma {:induction false} OrderMattersOtherwise(r: Row, seen: Seen, hooks: seq<Hook>)
    requires Reflected(r, seen, hooks) && !Terminal(r.status)
    requires !OneOutcome(hooks)
    ensures exists xs, ys :: multiset(xs) == multiset(hooks) == multiset(ys) &&
              HandleAll(r, seen, xs).0.status != HandleAll(r, seen, ys).0.status
  {
    var i, j :| 0 <= i < |hooks| && 0 <= j < |hooks| && Terminal(TargetStatus(hooks[i].kind)) &&
      Terminal(TargetStatus(hooks[j].kind)) && TargetStatus(hooks[i].kind) != TargetStatus(hooks[j].kind);
    var xs, ys := ToFront(hooks, i), ToFront(hooks, j);
    ToFrontPermutes(hooks, i);
    ToFrontPermutes(hooks, j);
    SameMembers(hooks, xs);
    SameMembers(hooks, ys);
    FoldGivesExpected(r, seen, xs);
    FoldGivesExpected(r, seen, ys);
    assert xs[0] == hooks[i] && ys[0] == hooks[j];
  }
}
