/** What every interleaving of attachment work keeps: links are made once, together, within the budget
    and for good; and every stored object has a row naming it, wherever calls fail. */
module AttachmentSafety {
  import opened Basics
  import opened AttachmentProtocol

  // ---------------------------------------------------------------- linking

  /** A row is as it was created but for status and link, and only an uploaded row is linked. */
  ghost predicate RowSound(w: World, id: string)
    requires id in w.rows
  {
    var row := w.rows[id];
    && id in w.born
    && row.(status := PENDING, messageId := None) == w.born[id]
    && (row.messageId.Some? ==>
          row.status == UPLOADED && row.messageId.value in w.messages && id in w.messages[row.messageId.value].attachments)
  }

  /** A committed message has every attachment it asked for, of its own ticket, within the budget. */
  ghost predicate MessageSound(w: World, messageId: string)
    requires messageId in w.messages
  {
    var m := w.messages[messageId];
    && Distinct(m.attachments)
    && (forall id :: id in m.attachments ==> LinkedTo(w.rows, id, messageId, m))
    && TotalBytes(w.born, m.attachments) <= MAX_MESSAGE_BYTES
  }

  predicate LinkedTo(rows: map<string, Attachment>, id: string, messageId: string, m: Message) {
    && id in rows
    && rows[id].messageId == Some(messageId) && rows[id].status == UPLOADED
    && rows[id].org == m.org && rows[id].ticket == m.ticket
  }

  ghost predicate PcSound(w: World, pc: Pc) {
    && (pc.ReadingAttachments? || pc.Linking? ==> Distinct(pc.m.attachments))
    && (pc.Linking? ==>
          (forall id :: id in pc.m.attachments ==> id in w.born) && TotalBytes(w.born, pc.m.attachments) <= MAX_MESSAGE_BYTES)
  }

  ghost predicate Linked(w: World) {
    && (forall id :: id in w.rows ==> RowSound(w, id))
    && (forall messageId :: messageId in w.messages ==> MessageSound(w, messageId))
    && (forall p :: 0 <= p < |w.procs| ==> PcSound(w, w.procs[p]))
  }

  /** Linking is for good: a linked row is never deleted, unlinked or moved to another message. */
  ghost predicate LinksKept(before: map<string, Attachment>, after: map<string, Attachment>) {
    forall id :: id in before && before[id].messageId.Some? ==> id in after && after[id] == before[id]
  }

  lemma {:induction false} SameBytes(rows: map<string, Attachment>, born: map<string, Attachment>, ids: seq<string>)
    requires forall id :: id in ids ==> id in rows && id in born && born[id].size == rows[id].size
    ensures TotalBytes(rows, ids) == TotalBytes(born, ids)
  {
    if ids != [] {
      var last := ids[|ids| - 1];
      assert last in ids;
      SameBytes(rows, born, ids[..|ids| - 1]);
    }
  }

  /** Row updates other than linking: nothing linked is touched, nothing is linked. */
  ghost predicate Unlinking(before: map<string, Attachment>, after: map<string, Attachment>) {
    && LinksKept(before, after)
    && (forall id :: id in after ==>
          id in before && (after[id] == before[id] || after[id] == before[id].(status := UPLOADED)))
  }

  lemma {:induction false} OtherUpdatesUnlinking(w: World, pc: Pc)
    requires Linked(w) && !Links(w, pc)
    ensures Unlinking(w.rows, RowsAfter(w, pc))
  {
    assert forall id :: id in w.rows ==> RowSound(w, id);
  }

  lemma {:induction false} UnlinkingKeepsLinked(w: World, w': World)
    requires Linked(w) && Unlinking(w.rows, w'.rows)
    requires w'.messages == w.messages && w'.born == w.born
    requires forall p :: 0 <= p < |w'.procs| ==> PcSound(w', w'.procs[p])
    ensures Linked(w')
  {
    forall id | id in w'.rows ensures RowSound(w', id) {
      assert RowSound(w, id);
    }
    forall messageId | messageId in w'.messages ensures MessageSound(w', messageId) {
      assert MessageSound(w, messageId);
      var m := w.messages[messageId];
      assert forall id :: id in m.attachments ==> LinkedTo(w.rows, id, messageId, m);
    }
  }

  lemma {:induction false} LinkingKeepsRows(w: World, w': World, pc: Pc)
    requires Linked(w) && Links(w, pc)
    requires w'.rows == RowsAfter(w, pc) && w'.messages == MessagesAfter(w, pc) && w'.born == w.born
    ensures forall id :: id in w'.rows ==> RowSound(w', id)
    ensures LinksKept(w.rows, w'.rows)
  {
    forall id | id in w'.rows ensures RowSound(w', id) && (w.rows[id].messageId.Some? ==> w'.rows[id] == w.rows[id]) {
      assert RowSound(w, id);
      if id in pc.m.attachments {
        assert Linkable(w.rows, pc.m, id);
      }
    }
  }

  lemma {:induction false} LinkingKeepsMessages(w: World, w': World, pc: Pc)
    requires Linked(w) && Links(w, pc) && PcSound(w, pc)
    requires w'.rows == RowsAfter(w, pc) && w'.messages == MessagesAfter(w, pc) && w'.born == w.born
    ensures forall messageId :: messageId in w'.messages ==> MessageSound(w', messageId)
  {
    assert forall id :: id in w.rows ==> RowSound(w, id);
    assert forall id :: id in pc.m.attachments ==> Linkable(w.rows, pc.m, id);
    forall messageId | messageId in w'.messages ensures MessageSound(w', messageId) {
      if messageId != pc.messageId {
        assert MessageSound(w, messageId);
        var m := w.messages[messageId];
        assert forall id :: id in m.attachments ==> LinkedTo(w.rows, id, messageId, m);
      }
    }
  }

  /** A message goes on to link only after its read found everything available within the budget. */
  lemma {:induction false} PcAfterSound(w: World, pc: Pc, found: seq<string>)
    requires Linked(w) && PcSound(w, pc)
    ensures PcSound(w, PcAfter(w, pc, found)) && PcSound(w, AfterFailure(pc))
  {
    if pc.ReadingAttachments? && Available(w.rows, pc.m) {
      forall id | id in pc.m.attachments ensures id in w.rows && id in w.born && w.born[id].size == w.rows[id].size {
        assert Linkable(w.rows, pc.m, id);
        assert RowSound(w, id);
      }
      SameBytes(w.rows, w.born, pc.m.attachments);
    }
  }

  lemma {:induction false} AdvanceKeepsLinked(w: World, p: nat, fault: Fault, found: seq<string>)
    requires Linked(w) && p < |w.procs|
    ensures Linked(Step(w, p, fault, found)) && LinksKept(w.rows, Step(w, p, fault, found).rows)
  {
    var w', pc := Step(w, p, fault, found), w.procs[p];
    assert PcSound(w, pc);
    PcAfterSound(w, pc, found);
    assert forall q :: 0 <= q < |w.procs| ==> PcSound(w, w.procs[q]);
    assert forall q :: 0 <= q < |w'.procs| ==> PcSound(w', w'.procs[q]);
    if fault != BeforeCommit && Links(w, pc) {
      LinkingKeepsRows(w, w', pc);
      LinkingKeepsMessages(w, w', pc);
    } else {
      if fault != BeforeCommit {
        OtherUpdatesUnlinking(w, pc);
      }
      UnlinkingKeepsLinked(w, w');
    }
  }

  lemma {:induction false} BirthsKeepBytes(born: map<string, Attachment>, id: string, row: Attachment, ids: seq<string>)
    requires id !in born && forall k :: k in ids ==> k in born
    ensures TotalBytes(born[id := row], ids) == TotalBytes(born, ids)
  {
    if ids != [] {
      assert ids[|ids| - 1] in ids;
      BirthsKeepBytes(born, id, row, ids[..|ids| - 1]);
    }
  }

  lemma {:induction false} InitiateKeepsLinked(w: World, id: string, row: Attachment)
    requires Linked(w) && Enabled(w, Initiate(id, row))
    ensures Linked(Next(w, Initiate(id, row)))
  {
    var w' := Next(w, Initiate(id, row));
    assert forall k :: k in w.rows ==> RowSound(w, k);
    forall k | k in w'.rows ensures RowSound(w', k) {
      if k != id {
        assert RowSound(w, k);
      }
    }
    forall messageId | messageId in w'.messages ensures MessageSound(w', messageId) {
      assert MessageSound(w, messageId);
      var m := w.messages[messageId];
      assert forall k :: k in m.attachments ==> LinkedTo(w.rows, k, messageId, m);
      BirthsKeepBytes(w.born, id, row, m.attachments);
    }
    forall p | 0 <= p < |w'.procs| ensures PcSound(w', w'.procs[p]) {
      assert PcSound(w, w.procs[p]);
      if w.procs[p].Linking? {
        BirthsKeepBytes(w.born, id, row, w.procs[p].m.attachments);
      }
    }
  }

  lemma {:induction false} OtherStepsKeepLinked(w: World, a: Action)
    requires Linked(w) && Enabled(w, a) && !a.Advance? && !a.Initiate?
    ensures Linked(Next(w, a)) && Next(w, a).rows == w.rows
  {
    var w' := Next(w, a);
    assert forall q :: 0 <= q < |w.procs| ==> PcSound(w, w.procs[q]);
    assert forall q :: 0 <= q < |w'.procs| ==> PcSound(w', w'.procs[q]);
    UnlinkingKeepsLinked(w, w');
  }

  lemma {:induction false} NextKeepsLinked(w: World, a: Action)
    requires Linked(w) && Enabled(w, a)
    ensures Linked(Next(w, a)) && LinksKept(w.rows, Next(w, a).rows)
  {
    match a
    case Advance(p, fault, found) => AdvanceKeepsLinked(w, p, fault, found);
    case Initiate(id, row) =>
      InitiateKeepsLinked(w, id, row);
      assert forall k :: k in w.rows ==> RowSound(w, k);
    case _ => OtherStepsKeepLinked(w, a);
  }

  lemma {:induction false} AlwaysLinked(ws: seq<World>, acts: seq<Action>)
    requires IsRun(ws, acts)
    ensures forall i :: 0 <= i < |ws| ==> Linked(ws[i])
  {
    if acts != [] {
      var n := |acts| - 1;
      AlwaysLinked(ws[..n + 1], acts[..n]);
      assert forall i :: 0 <= i <= n ==> ws[i] == ws[..n + 1][i];
      NextKeepsLinked(ws[n], acts[n]);
    }
  }

  /** A link, once made, is there in every later world of the run, unchanged. */
  lemma {:induction false} LinksAreForGood(ws: seq<World>, acts: seq<Action>, i: nat, j: nat)
    requires IsRun(ws, acts) && i <= j < |ws|
    ensures LinksKept(ws[i].rows, ws[j].rows)
    decreases j - i
  {
    if i < j {
      AlwaysLinked(ws, acts);
      NextKeepsLinked(ws[i], acts[i]);
      LinksAreForGood(ws, acts, i + 1, j);
    }
  }

  /** Attachment linking, as a reader would say it: in every reachable world each message has all its
      requested attachments, uploaded and of its own ticket, at most 50 MiB together, and each linked row
      was asked for by the message it is linked to. */
  lemma {:induction false} MessagesHaveTheirAttachments(ws: seq<World>, acts: seq<Action>, i: nat, messageId: string)
    requires IsRun(ws, acts) && i < |ws| && messageId in ws[i].messages
    ensures var w, m := ws[i], ws[i].messages[messageId];
            && (forall id :: id in m.attachments ==> LinkedTo(w.rows, id, messageId, m))
            && TotalBytes(w.rows, m.attachments) <= 50 * 1024 * 1024
            && (forall id :: id in w.rows && w.rows[id].messageId == Some(messageId) ==> id in m.attachments)
  {
    AlwaysLinked(ws, acts);
    var w, m := ws[i], ws[i].messages[messageId];
    assert MessageSound(w, messageId);
    assert forall id :: id in w.rows ==> RowSound(w, id);
    assert forall id :: id in m.attachments ==> LinkedTo(w.rows, id, messageId, m);
    SameBytes(w.rows, w.born, m.attachments);
  }

  // ---------------------------------------------------------------- storage order

  /** What a process knows about the object and the upload window of the attachment it works on. */
  ghost predicate PcTidy(w: World, pc: Pc) {
    match pc
    case Reading(_, _, id) => id !in w.uploading
    case Heading(id, _) => id !in w.uploading && id in w.born
    case MarkingUploaded(id, _) => id !in w.uploading && id in w.born
    case DeletingRejectedObject(id) => id !in w.uploading && id in w.born
    case DeletingRejectedRow(id) => id !in w.uploading && id in w.born && id !in w.objects
    case FindingAbandoned(now) => now <= w.clock
    case DeletingObject(id, rest) => Expired(w, id) && AllExpired(w, rest)
    case DeletingRow(id, rest) => Expired(w, id) && AllExpired(w, rest) && id !in w.objects
    case _ => true
  }

  ghost predicate AllExpired(w: World, ids: seq<string>) {
    forall id :: id in ids ==> Expired(w, id)
  }

  /** Every stored object has a row naming it. */
  ghost predicate ObjectsNamed(w: World) {
    forall id :: id in w.objects ==> id in w.rows
  }

  ghost predicate Tidy(w: World) {
    && ObjectsNamed(w)
    && (forall id :: id in w.rows ==> id in w.born && w.rows[id].createdAt == w.born[id].createdAt)
    && (forall id :: id in w.uploading ==> id in w.born)
    && (forall id :: MayUpload(w, id) ==> id in w.rows)
    && (forall p :: 0 <= p < |w.procs| ==> PcTidy(w, w.procs[p]))
  }

  /** A process deletes only rows whose object is gone and whose upload window is closed. */
  lemma {:induction false} RowsAfterTidy(w: World, pc: Pc)
    requires Tidy(w) && PcTidy(w, pc)
    ensures forall id :: id in RowsAfter(w, pc) ==> id in w.rows && RowsAfter(w, pc)[id].createdAt == w.rows[id].createdAt
    ensures forall id :: id in w.rows && id !in RowsAfter(w, pc) ==> id !in w.objects && !MayUpload(w, id)
    ensures forall id :: id in ObjectsAfter(w, pc) ==> id in w.objects && id in RowsAfter(w, pc)
  {
  }

  /** Cleanup's candidates are old enough that nobody uploads to them any more. */
  lemma {:induction false} AbandonedExpired(w: World, now: nat, found: seq<string>)
    requires Tidy(w) && now <= w.clock && AbandonedBatch(w.rows, now, found)
    ensures AllExpired(w, found)
  {
  }

  lemma {:induction false} CleanupNextTidy(w: World, w': World, todo: seq<string>)
    requires AllExpired(w, todo) && w'.clock == w.clock && w'.born == w.born
    ensures PcTidy(w', CleanupNext(todo))
  {
    if todo != [] {
      assert todo[0] in todo;
      assert forall id :: id in todo[1..] ==> id in todo;
      assert forall id :: id in todo ==> Expired(w, id);
    }
  }

  lemma {:induction false} PcAfterTidy(w: World, w': World, pc: Pc, found: seq<string>)
    requires Tidy(w) && PcTidy(w, pc)
    requires pc.FindingAbandoned? ==> AbandonedBatch(w.rows, pc.now, found)
    requires w'.clock == w.clock && w'.born == w.born && w'.uploading == w.uploading
    requires w'.objects == ObjectsAfter(w, pc)
    ensures PcTidy(w', PcAfter(w, pc, found))
  {
    if pc.FindingAbandoned? {
      AbandonedExpired(w, pc.now, found);
      CleanupNextTidy(w, w', found);
    } else if pc.DeletingRow? {
      CleanupNextTidy(w, w', pc.rest);
    }
  }

  lemma {:induction false} AfterFailureTidy(w: World, w': World, pc: Pc)
    requires PcTidy(w, pc) && w'.clock == w.clock && w'.born == w.born
    ensures PcTidy(w', AfterFailure(pc))
  {
    if pc.DeletingObject? || pc.DeletingRow? {
      CleanupNextTidy(w, w', pc.rest);
    }
  }

  lemma {:induction false} AdvanceKeepsTidy(w: World, p: nat, fault: Fault, found: seq<string>)
    requires Tidy(w) && Enabled(w, Advance(p, fault, found))
    ensures Tidy(Step(w, p, fault, found))
  {
    var w', pc := Step(w, p, fault, found), w.procs[p];
    assert PcTidy(w, pc);
    RowsAfterTidy(w, pc);
    AfterFailureTidy(w, w', pc);
    if fault == NoFault {
      PcAfterTidy(w, w', pc, found);
    }
    forall q | 0 <= q < |w'.procs| ensures PcTidy(w', w'.procs[q]) {
      if q != p {
        assert PcTidy(w, w.procs[q]);
      }
    }
  }

  lemma {:induction false} OtherStepsKeepTidy(w: World, a: Action)
    requires Tidy(w) && Enabled(w, a) && !a.Advance?
    ensures Tidy(Next(w, a))
  {
    var w' := Next(w, a);
    forall q | 0 <= q < |w'.procs| ensures PcTidy(w', w'.procs[q]) {
      if q < |w.procs| {
        assert PcTidy(w, w.procs[q]);
      }
    }
  }

  /** Crash-safe storage order: in every run, whatever calls fail wherever, every stored object has a row. */
  lemma {:induction false} EveryObjectIsNamed(ws: seq<World>, acts: seq<Action>)
    requires IsRun(ws, acts)
    ensures Tidy(ws[|acts|]) && ObjectsNamed(ws[|acts|])
  {
    if acts != [] {
      var n := |acts| - 1;
      EveryObjectIsNamed(ws[..n + 1], acts[..n]);
      match acts[n]
      case Advance(p, fault, found) => AdvanceKeepsTidy(ws[n], p, fault, found);
      case _ => OtherStepsKeepTidy(ws[n], acts[n]);
    }
  }
}
