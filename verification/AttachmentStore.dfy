/** The attachment service, and message creation with its attachments and email delivery, in the
    program's own form: methods that update rows and stored objects in place. Undisturbed, each does exactly
    what its process in AttachmentProtocol does, whichever of its calls fail. */
module AttachmentStore {
  import opened Basics
  import opened AttachmentProtocol
  import opened AttachmentPolicy
  import AttachmentSafety
  import DeliveryRow
  import ReplyAddress
  import TicketProtocol

  datatype UploadError = NotFound | NotUploaded | Rejected | ChangedConcurrently | CallFailed

  datatype InitiateError = TypeNotAllowed | ExtensionMismatch | NoSuchTicket | InsertFailed | SigningFailed

  datatype MessageKind = PUBLIC_REPLY | INTERNAL_NOTE

  datatype MessageError = DuplicateIds | TicketNotFound | TicketClosed | Unavailable | TooLarge | TransactionFailed

  datatype TicketInfo = TicketInfo(org: string, status: TicketProtocol.TicketStatus, customerEmail: Option<string>)

  // ---------------------------------------------------------------- a process left alone

  /** The first n steps of the only process there is; faults says which call fails at which point. */
  ghost function Alone(w: World, n: nat, faults: Pc -> Fault, found: seq<string>): World
    requires |w.procs| == 1
    decreases n
  {
    if n == 0 then w else Alone(Step(w, 0, faults(w.procs[0]), found), n - 1, faults, found)
  }

  lemma {:induction false} DoneStays(w: World, n: nat, faults: Pc -> Fault, found: seq<string>)
    requires w.procs == [Done]
    ensures Alone(w, n, faults, found) == w
    decreases n
  {
    if n > 0 {
      assert w.procs[0 := Done] == w.procs && Step(w, 0, faults(Done), found) == w;
      DoneStays(w, n - 1, faults, found);
    }
  }

  ghost predicate Smooth(faults: Pc -> Fault) {
    forall pc :: faults(pc) == NoFault
  }

  // ---------------------------------------------------------------- rejection

  function RejectedObjects(objects: map<string, Stored>, id: string, faults: Pc -> Fault): map<string, Stored> {
    if faults(DeletingRejectedObject(id)) == BeforeCommit then objects else objects - {id}
  }

  /** The row goes only after the object's deletion has come back. */
  function RejectedRows(rows: map<string, Attachment>, id: string, faults: Pc -> Fault): map<string, Attachment> {
    if faults(DeletingRejectedObject(id)) != NoFault || faults(DeletingRejectedRow(id)) == BeforeCommit then rows
    else DeletePending(rows, id)
  }

  /** A storage call: its effect, and where the process goes. */
  lemma {:induction false} ObjectStep(w: World, id: string, pc: Pc, fault: Fault, found: seq<string>)
    requires w.procs == [pc]
    requires pc == DeletingRejectedObject(id) || (pc.DeletingObject? && pc.id == id)
    ensures Step(w, 0, fault, found) ==
            w.(objects := if fault == BeforeCommit then w.objects else w.objects - {id},
               procs := [if fault == NoFault then PcAfter(w, pc, found) else AfterFailure(pc)])
  {
  }

  /** A statement on one row. */
  lemma {:induction false} RowStep(w: World, id: string, pc: Pc, fault: Fault, found: seq<string>)
    requires w.procs == [pc]
    requires pc == DeletingRejectedRow(id) || (pc.DeletingRow? && pc.id == id) || (pc.MarkingUploaded? && pc.id == id)
    ensures Step(w, 0, fault, found) ==
            w.(rows := if fault == BeforeCommit then w.rows else RowsAfter(w, pc),
               procs := [if fault == NoFault then PcAfter(w, pc, found) else AfterFailure(pc)])
  {
  }

  lemma {:induction false} RejectionRuns(w: World, n: nat, id: string, faults: Pc -> Fault)
    requires w.procs == [DeletingRejectedObject(id)] && n >= 2
    ensures Alone(w, n, faults, []) ==
            w.(rows := RejectedRows(w.rows, id, faults), objects := RejectedObjects(w.objects, id, faults), procs := [Done])
  {
    var w1 := Step(w, 0, faults(DeletingRejectedObject(id)), []);
    ObjectStep(w, id, DeletingRejectedObject(id), faults(DeletingRejectedObject(id)), []);
    if faults(DeletingRejectedObject(id)) == NoFault {
      RowStep(w1, id, DeletingRejectedRow(id), faults(DeletingRejectedRow(id)), []);
      DoneStays(Step(w1, 0, faults(DeletingRejectedRow(id)), []), n - 2, faults, []);
    } else {
      DoneStays(w1, n - 1, faults, []);
    }
  }

  // ---------------------------------------------------------------- completion

  /** What the head call and the comparisons make of an upload. */
  datatype Verdict = Missing | Bad | Good

  function Judge(objects: map<string, Stored>, id: string, meta: Attachment): Verdict {
    if id !in objects then Missing else if Genuine(objects[id], id, meta) then Good else Bad
  }

  function MarkedRows(rows: map<string, Attachment>, id: string, fault: Fault): map<string, Attachment> {
    if fault == BeforeCommit then rows else MarkUploaded(rows, id)
  }

  lemma {:induction false} HeadingRuns(w: World, id: string, meta: Attachment, faults: Pc -> Fault)
    requires w.procs == [Heading(id, meta)]
    ensures Alone(w, 3, faults, []) ==
            if faults(Heading(id, meta)) != NoFault || Judge(w.objects, id, meta) == Missing then w.(procs := [Done])
            else if Judge(w.objects, id, meta) == Good
            then w.(rows := MarkedRows(w.rows, id, faults(MarkingUploaded(id, meta))), procs := [Done])
            else w.(rows := RejectedRows(w.rows, id, faults), objects := RejectedObjects(w.objects, id, faults), procs := [Done])
  {
    var pc := Heading(id, meta);
    var w1 := w.(procs := [if faults(pc) == NoFault then AfterHead(w, id, meta) else Done]);
    assert Step(w, 0, faults(pc), []) == w1;
    if w1.procs == [Done] {
      DoneStays(w1, 2, faults, []);
    } else if Judge(w.objects, id, meta) == Good {
      RowStep(w1, id, MarkingUploaded(id, meta), faults(MarkingUploaded(id, meta)), []);
      DoneStays(Step(w1, 0, faults(MarkingUploaded(id, meta)), []), 1, faults, []);
    } else {
      RejectionRuns(w1, 2, id, faults);
    }
  }

  /** The stored object is the file the row announced: of its size, of its type, and stored under its id. */
  predicate IsTheFile(stored: Stored, id: string, row: Attachment) {
    && stored.size.Some? && stored.size.value == row.size
    && stored.contentType.Some? && |stored.contentType.value| > 0
    && NormalizeContentType(stored.contentType.value) == NormalizeContentType(row.contentType)
    && stored.attachmentId.Some? && stored.attachmentId.value == id
  }

  lemma {:induction false} GenuineIs(stored: Stored, id: string, row: Attachment)
    ensures Genuine(stored, id, row) <==> IsTheFile(stored, id, row)
  {
  }

  // ---------------------------------------------------------------- cleanup

  /** Rows and objects after the cleanup loop. */
  function CleanRows(rows: map<string, Attachment>, todo: seq<string>, faults: Pc -> Fault): map<string, Attachment>
    decreases todo
  {
    if todo == [] then rows
    else CleanRows(if RowCleared(todo, faults) then DeleteUnlinked(rows, todo[0]) else rows, todo[1..], faults)
  }

  function CleanObjects(objects: map<string, Stored>, todo: seq<string>, faults: Pc -> Fault): map<string, Stored>
    decreases todo
  {
    if todo == [] then objects
    else CleanObjects(if ObjectCleared(todo, faults) then objects - {todo[0]} else objects, todo[1..], faults)
  }

  /** The first candidate's object is deleted. */
  predicate ObjectCleared(todo: seq<string>, faults: Pc -> Fault)
    requires todo != []
  {
    faults(DeletingObject(todo[0], todo[1..])) != BeforeCommit
  }

  /** And its row's deletion, tried only once the object's has come back, took effect. */
  predicate RowCleared(todo: seq<string>, faults: Pc -> Fault)
    requires todo != []
  {
    faults(DeletingObject(todo[0], todo[1..])) == NoFault && faults(DeletingRow(todo[0], todo[1..])) != BeforeCommit
  }

  function FailedIn(todo: seq<string>, faults: Pc -> Fault): nat
    decreases todo
  {
    if todo == [] then 0
    else
      FailedIn(todo[1..], faults) +
      if faults(DeletingObject(todo[0], todo[1..])) == NoFault && faults(DeletingRow(todo[0], todo[1..])) == NoFault then 0 else 1
  }

  function ClearedObjects(todo: seq<string>, faults: Pc -> Fault): set<string>
    decreases todo
  {
    if todo == [] then {} else (if ObjectCleared(todo, faults) then {todo[0]} else {}) + ClearedObjects(todo[1..], faults)
  }

  function ClearedRows(todo: seq<string>, faults: Pc -> Fault): set<string>
    decreases todo
  {
    if todo == [] then {} else (if RowCleared(todo, faults) then {todo[0]} else {}) + ClearedRows(todo[1..], faults)
  }

  /** Exactly the unlinked candidates whose two deletions took effect lose their row, each only after its
      object; without failures, all unlinked candidates. */
  lemma {:induction false} CleanupDeletesExactly(rows: map<string, Attachment>, objects: map<string, Stored>,
                                                 todo: seq<string>, faults: Pc -> Fault)
    ensures CleanRows(rows, todo, faults) ==
            map id | id in rows && !(id in ClearedRows(todo, faults) && rows[id].messageId.None?) :: rows[id]
    ensures CleanObjects(objects, todo, faults) == objects - ClearedObjects(todo, faults)
    ensures ClearedRows(todo, faults) <= ClearedObjects(todo, faults) <= set id | id in todo
    ensures Smooth(faults) ==> ClearedRows(todo, faults) == set id | id in todo
    decreases todo
  {
    if todo != [] {
      assert forall id :: id in todo <==> id == todo[0] || id in todo[1..];
      CleanupDeletesExactly(if RowCleared(todo, faults) then DeleteUnlinked(rows, todo[0]) else rows,
                            if ObjectCleared(todo, faults) then objects - {todo[0]} else objects, todo[1..], faults);
    }
  }

  /** The cleanup loop is its protocol process, step for step. */
  lemma {:induction false} CleanupRuns(w: World, n: nat, todo: seq<string>, faults: Pc -> Fault, found: seq<string>)
    requires w.procs == [CleanupNext(todo)] && n >= 2 * |todo|
    ensures Alone(w, n, faults, found) ==
            w.(rows := CleanRows(w.rows, todo, faults), objects := CleanObjects(w.objects, todo, faults), procs := [Done])
    decreases todo
  {
    if todo == [] {
      DoneStays(w, n, faults, found);
    } else {
      var id, rest := todo[0], todo[1..];
      var w1 := Step(w, 0, faults(DeletingObject(id, rest)), found);
      ObjectStep(w, id, DeletingObject(id, rest), faults(DeletingObject(id, rest)), found);
      if faults(DeletingObject(id, rest)) != NoFault {
        CleanupRuns(w1, n - 1, rest, faults, found);
      } else {
        RowStep(w1, id, DeletingRow(id, rest), faults(DeletingRow(id, rest)), found);
        CleanupRuns(Step(w1, 0, faults(DeletingRow(id, rest)), found), n - 2, rest, faults, found);
      }
    }
  }

  /** customer.email, trimmed and lower-cased, and null when nothing is left of it. */
  function RecipientOf(email: Option<string>): Option<string> {
    if email.None? then None
    else
      var normal := ReplyAddress.Lower(ReplyAddress.Trim(email.value));
      if normal == "" then None else Some(normal)
  }

  /** Every stored object has a row naming it. */
  ghost predicate Named(rows: map<string, Attachment>, objects: map<string, Stored>) {
    forall id :: id in objects ==> id in rows
  }

  /** Pending for more than an hour, or uploaded and unlinked for more than a day. */
  predicate OldUpload(row: Attachment, now: nat) {
    || (row.status == PENDING && row.createdAt + 60 * 60 * 1000 < now)
    || (row.status == UPLOADED && row.messageId.None? && row.createdAt + 24 * 60 * 60 * 1000 < now)
  }

  /** And in no message. */
  predicate LongAbandoned(row: Attachment, now: nat) {
    OldUpload(row, now) && row.messageId.None?
  }

  /** The candidates whose object's or row's deletion fails, by their positions. */
  ghost predicate FailsAt(found: seq<string>, faults: Pc -> Fault, i: int)
    requires 0 <= i < |found|
  {
    faults(DeletingObject(found[i], found[i + 1..])) != NoFault || faults(DeletingRow(found[i], found[i + 1..])) != NoFault
  }

  ghost function FailuresOf(found: seq<string>, faults: Pc -> Fault, from: nat): set<int> {
    set i | from <= i < |found| && FailsAt(found, faults, i)
  }

  lemma {:induction false} FailedInCounts(found: seq<string>, faults: Pc -> Fault, from: nat)
    requires from <= |found|
    ensures FailedIn(found[from..], faults) == |FailuresOf(found, faults, from)|
    decreases |found| - from
  {
    if from < |found| {
      FailedInCounts(found, faults, from + 1);
      FirstOf(found, from);
      NextFailure(found, faults, from);
    }
  }

  lemma {:induction false} FirstOf(found: seq<string>, from: nat)
    requires from < |found|
    ensures found[from..] != [] && found[from..][0] == found[from] && found[from..][1..] == found[from + 1..]
  {
  }

  lemma {:induction false} NextFailure(found: seq<string>, faults: Pc -> Fault, from: nat)
    requires from < |found|
    ensures |FailuresOf(found, faults, from)| == |FailuresOf(found, faults, from + 1)| + if FailsAt(found, faults, from) then 1 else 0
  {
    var later := FailuresOf(found, faults, from + 1);
    assert from !in later;
    assert FailuresOf(found, faults, from) == if FailsAt(found, faults, from) then later + {from} else later;
  }

  /** Rows go only when long abandoned, objects only of old uploads; what stays is unchanged. */
  ghost predicate OnlyAbandonedGo(rows: map<string, Attachment>, objects: map<string, Stored>,
                                  rows': map<string, Attachment>, objects': map<string, Stored>, now: nat) {
    && (forall id :: id in rows' ==> id in rows && rows'[id] == rows[id])
    && (forall id :: id in objects' ==> id in objects && objects'[id] == objects[id])
    && (forall id :: id in rows && id !in rows' ==> LongAbandoned(rows[id], now))
    && (forall id :: id in objects && id !in objects' ==> id in rows && OldUpload(rows[id], now))
  }

  ghost predicate AllAbandonedGo(rows: map<string, Attachment>, rows': map<string, Attachment>, objects': map<string, Stored>, now: nat) {
    forall id :: id in rows && LongAbandoned(rows[id], now) ==> id !in rows' && id !in objects'
  }

  lemma {:induction false} CleanupIs(rows: map<string, Attachment>, objects: map<string, Stored>, now: nat, found: seq<string>,
                                     faults: Pc -> Fault)
    requires AbandonedBatch(rows, now, found)
    ensures var rows', objects' := CleanRows(rows, found, faults), CleanObjects(objects, found, faults);
            && OnlyAbandonedGo(rows, objects, rows', objects', now)
            && (Smooth(faults) && |found| < 100 ==> AllAbandonedGo(rows, rows', objects', now))
  {
    CleanupDeletesExactly(rows, objects, found, faults);
    GoneAreAbandoned(rows, objects, now, found, ClearedRows(found, faults), ClearedObjects(found, faults));
  }

  lemma {:induction false} GoneAreAbandoned(rows: map<string, Attachment>, objects: map<string, Stored>, now: nat, found: seq<string>,
                                            clearedRows: set<string>, clearedObjects: set<string>)
    requires AbandonedBatch(rows, now, found)
    requires clearedRows <= clearedObjects <= set id | id in found
    ensures var rows' := map id | id in rows && !(id in clearedRows && rows[id].messageId.None?) :: rows[id];
            && OnlyAbandonedGo(rows, objects, rows', objects - clearedObjects, now)
            && (clearedRows == (set id | id in found) && |found| < 100 ==> AllAbandonedGo(rows, rows', objects - clearedObjects, now))
  {
    assert forall id :: id in clearedObjects ==> id in found && id in rows && OldUpload(rows[id], now);
  }

  lemma {:induction false} FailuresAre(found: seq<string>, faults: Pc -> Fault)
    ensures FailedIn(found, faults) == |FailuresOf(found, faults, 0)|
    ensures Smooth(faults) ==> FailedIn(found, faults) == 0
  {
    FailedInCounts(found, faults, 0);
    assert found[0..] == found;
    if Smooth(faults) {
      NothingFails(found, faults);
    }
  }

  lemma {:induction false} NothingFails(todo: seq<string>, faults: Pc -> Fault)
    requires Smooth(faults)
    ensures FailedIn(todo, faults) == 0
    decreases todo
  {
    if todo != [] {
      NothingFails(todo[1..], faults);
    }
  }

  class AttachmentStore {
    var rows: map<string, Attachment>
    var objects: map<string, Stored>
    var messages: map<string, Message>
    var tickets: map<string, TicketInfo>
    var deliveries: map<string, DeliveryRow.Row>  // by message
    // outside the service: the time, every row as it was created, and the uploads going on
    var clock: nat
    var born: map<string, Attachment>
    var uploading: set<string>

    /** The protocol's world, with one process at pc. */
    ghost function Snapshot(pc: Pc): World
      reads this
    {
      World(clock, rows, objects, messages, born, uploading, [pc])
    }

    constructor ()
      ensures Snapshot(Done) == Initial.(procs := [Done]) && deliveries == map[]
    {
      rows, objects, messages, tickets, deliveries := map[], map[], map[], map[], map[];
      clock, born, uploading := 0, map[], {};
    }

    /** The row comes first: the caller gets a URL only for a row that is there, and a row whose URL could
        not be signed stays, for cleanup to find. filename is the cleaned name; url is what signing gives. */
    method InitiateUpload(org: string, ticket: string, id: string, filename: string, contentType: string, size: nat,
                          insert: Fault, url: Option<string>) returns (r: Result<(Attachment, string), InitiateError>)
      requires id !in born
      modifies this`rows, this`born, this`uploading
      ensures var row := Attachment(org, ticket, contentType, size, clock, PENDING, None);
              var error := if !IsAllowedContentType(contentType) then Some(TypeNotAllowed)
                           else if !FilenameMatches(filename, contentType) then Some(ExtensionMismatch)
                           else if ticket !in tickets || tickets[ticket].org != org then Some(NoSuchTicket)
                           else None;
              && r == (if error.Some? then Err(error.value)
                       else if insert != NoFault then Err(InsertFailed)
                       else if url.None? then Err(SigningFailed)
                       else Ok((row, url.value)))
              && Snapshot(Done) == if error.None? && insert != BeforeCommit then Next(old(Snapshot(Done)), Initiate(id, row))
                                   else old(Snapshot(Done))
      ensures r.Ok? ==> id in rows && rows[id] == r.value.0
      ensures Named(old(rows), old(objects)) ==> Named(rows, objects)
    {
      if !IsAllowedContentType(contentType) {
        return Err(TypeNotAllowed);
      }
      if !FilenameMatches(filename, contentType) {
        return Err(ExtensionMismatch);
      }
      if ticket !in tickets || tickets[ticket].org != org {
        return Err(NoSuchTicket);
      }
      var attachment := Attachment(org, ticket, contentType, size, clock, PENDING, None);
      if insert == BeforeCommit {
        return Err(InsertFailed);
      }
      rows, born, uploading := rows[id := attachment], born[id := attachment], uploading + {id};
      if insert == AfterCommit {
        return Err(InsertFailed);
      }
      if url.None? {
        return Err(SigningFailed);
      }
      r := Ok((attachment, url.value));
    }

    /** Object first, then row: a failure in between leaves the row to the cleanup. */
    method RejectInvalidUpload(id: string, faults: Pc -> Fault) returns (error: UploadError)
      modifies this`rows, this`objects
      ensures objects == RejectedObjects(old(objects), id, faults) && rows == RejectedRows(old(rows), id, faults)
      ensures Snapshot(Done) == Alone(old(Snapshot(DeletingRejectedObject(id))), 2, faults, [])
      ensures error == Rejected ==> id !in objects && (id in rows ==> rows[id].status == UPLOADED)
      ensures error != Rejected ==> error == CallFailed && !Smooth(faults)
      ensures Named(old(rows), old(objects)) ==> Named(rows, objects)
    {
      RejectionRuns(Snapshot(DeletingRejectedObject(id)), 2, id, faults);
      if faults(DeletingRejectedObject(id)) != BeforeCommit {
        objects := objects - {id};
      }
      if faults(DeletingRejectedObject(id)) != NoFault {
        return CallFailed;
      }
      if faults(DeletingRejectedRow(id)) != BeforeCommit {
        rows := DeletePending(rows, id);
      }
      error := if faults(DeletingRejectedRow(id)) != NoFault then CallFailed else Rejected;
    }

    /** The end of a completion, whatever has happened to the row since it was read: the update may find
        that another completion, a rejection or the cleanup was there first. */
    method FinishUpload(id: string, meta: Attachment, fault: Fault) returns (r: Result<Attachment, UploadError>)
      modifies this`rows
      ensures rows == MarkedRows(old(rows), id, fault)
      ensures r == if fault != NoFault then Err(CallFailed)
                   else if id in old(rows) then Ok(rows[id]) else Err(ChangedConcurrently)
      ensures r.Ok? ==> r.value == old(rows)[id].(status := UPLOADED)
    {
      var count := if id in rows && rows[id].status == PENDING then 1 else 0;
      if fault != BeforeCommit {
        rows := MarkUploaded(rows, id);
      }
      if fault != NoFault {
        return Err(CallFailed);
      }
      if count != 1 {
        if id in rows && rows[id].status == UPLOADED {
          return Ok(rows[id]);
        }
        return Err(ChangedConcurrently);
      }
      r := Ok(rows[id]);
    }

    /** The head call, the comparisons, and finishing or rejecting. */
    method VerifyUpload(id: string, meta: Attachment, faults: Pc -> Fault) returns (r: Result<Attachment, UploadError>)
      requires id in rows && rows[id] == meta && meta.status == PENDING
      modifies this`rows, this`objects
      ensures faults(Heading(id, meta)) != NoFault || Judge(old(objects), id, meta) == Missing ==>
                && rows == old(rows) && objects == old(objects)
                && r == Err(if faults(Heading(id, meta)) != NoFault then CallFailed else NotUploaded)
      ensures faults(Heading(id, meta)) == NoFault && Judge(old(objects), id, meta) == Good ==>
                && rows == MarkedRows(old(rows), id, faults(MarkingUploaded(id, meta))) && objects == old(objects)
                && r == if faults(MarkingUploaded(id, meta)) != NoFault then Err(CallFailed) else Ok(meta.(status := UPLOADED))
      ensures faults(Heading(id, meta)) == NoFault && Judge(old(objects), id, meta) == Bad ==>
                && rows == RejectedRows(old(rows), id, faults) && objects == RejectedObjects(old(objects), id, faults)
                && r.Err? && (if r.error == Rejected then id !in rows && id !in objects else r.error == CallFailed && !Smooth(faults))
      ensures r.Ok? ==> rows == old(rows)[id := r.value]
      ensures forall k :: k != id ==> (k in rows <==> k in old(rows)) && (k in rows ==> rows[k] == old(rows)[k])
      ensures Named(old(rows), old(objects)) ==> Named(rows, objects)
    {
      if faults(Heading(id, meta)) != NoFault {
        return Err(CallFailed);
      }
      if id !in objects {
        return Err(NotUploaded);
      }
      var head := objects[id];
      if head.size != Some(meta.size) {
        var error := RejectInvalidUpload(id, faults);
        return Err(error);
      }
      if head.contentType.None? || !SameType(head.contentType.value, meta.contentType) {
        var error := RejectInvalidUpload(id, faults);
        return Err(error);
      }
      if head.attachmentId != Some(id) {
        var error := RejectInvalidUpload(id, faults);
        return Err(error);
      }
      r := FinishUpload(id, meta, faults(MarkingUploaded(id, meta)));
    }

    method CompleteUpload(org: string, ticket: string, id: string, faults: Pc -> Fault) returns (r: Result<Attachment, UploadError>)
      modifies this`rows, this`objects, this`uploading
      ensures Snapshot(Done) == Alone(old(Snapshot(Reading(org, ticket, id))).(uploading := old(uploading) - {id}), 4, faults, [])
      ensures Smooth(faults) ==>
                if id !in old(rows) || old(rows)[id].org != org || old(rows)[id].ticket != ticket then r == Err(NotFound)
                else if old(rows)[id].status == UPLOADED then r == Ok(old(rows)[id])
                else if id !in old(objects) then r == Err(NotUploaded)
                else if IsTheFile(old(objects)[id], id, old(rows)[id]) then r == Ok(old(rows)[id].(status := UPLOADED))
                else r == Err(Rejected)
      ensures r.Ok? ==>
                && Owned(old(rows), org, ticket, id) && objects == old(objects)
                && rows == old(rows)[id := r.value] && r.value == old(rows)[id].(status := UPLOADED)
      ensures r == Err(Rejected) ==> id !in rows && id !in objects
      ensures r.Err? && r.error in {NotFound, NotUploaded} ==> rows == old(rows) && objects == old(objects)
      ensures forall k :: k != id ==> (k in rows <==> k in old(rows)) && (k in rows ==> rows[k] == old(rows)[k])
      ensures Named(old(rows), old(objects)) ==> Named(rows, objects)
    {
      uploading := uploading - {id};
      ghost var w := Snapshot(Reading(org, ticket, id));
      ReadingRuns(w, org, ticket, id, faults);
      if id in rows && id in objects {
        GenuineIs(objects[id], id, rows[id]);
      }
      if faults(Reading(org, ticket, id)) != NoFault {
        return Err(CallFailed);
      }
      if !Owned(rows, org, ticket, id) {
        return Err(NotFound);
      }
      var meta := rows[id];
      if meta.status == UPLOADED {
        assert rows == rows[id := meta];
        return Ok(meta);
      }
      r := VerifyUpload(id, meta, faults);
    }

    /** One turn of the cleanup loop; an exception anywhere in it counts as a failure. */
    method CleanOne(todo: seq<string>, faults: Pc -> Fault) returns (cleared: bool)
      requires todo != []
      modifies this`rows, this`objects
      ensures rows == if RowCleared(todo, faults) then DeleteUnlinked(old(rows), todo[0]) else old(rows)
      ensures objects == if ObjectCleared(todo, faults) then old(objects) - {todo[0]} else old(objects)
      ensures cleared <==> faults(DeletingObject(todo[0], todo[1..])) == NoFault && faults(DeletingRow(todo[0], todo[1..])) == NoFault
    {
      var id, rest := todo[0], todo[1..];
      if faults(DeletingObject(id, rest)) != BeforeCommit {
        objects := objects - {id};
      }
      if faults(DeletingObject(id, rest)) != NoFault {
        return false;
      }
      if faults(DeletingRow(id, rest)) != BeforeCommit {
        rows := DeleteUnlinked(rows, id);
      }
      cleared := faults(DeletingRow(id, rest)) == NoFault;
    }

    /** cleanupAbandonedUploads; found is what the query returns. */
    method CleanupAbandonedUploads(now: nat, found: seq<string>, faults: Pc -> Fault) returns (scanned: nat, deleted: nat, failed: nat)
      requires AbandonedBatch(rows, now, found)
      modifies this`rows, this`objects
      ensures Snapshot(Done) == Alone(old(Snapshot(CleanupNext(found))), 2 * |found|, faults, [])
      ensures rows == map id | id in old(rows) && !(id in ClearedRows(found, faults) && old(rows)[id].messageId.None?) :: old(rows)[id]
      ensures objects == old(objects) - ClearedObjects(found, faults)
      ensures scanned == |found| && failed == |FailuresOf(found, faults, 0)| && deleted + failed == scanned
      ensures OnlyAbandonedGo(old(rows), old(objects), rows, objects, now)
      ensures Smooth(faults) ==> failed == 0
      ensures Smooth(faults) && |found| < 100 ==> AllAbandonedGo(old(rows), rows, objects, now)
      ensures AttachmentSafety.LinksKept(old(rows), rows)
      ensures Named(old(rows), old(objects)) ==> Named(rows, objects)
    {
      CleanupRuns(Snapshot(CleanupNext(found)), 2 * |found|, found, faults, []);
      CleanupDeletesExactly(rows, objects, found, faults);
      CleanupIs(rows, objects, now, found, faults);
      FailuresAre(found, faults);
      deleted, failed := CleanAll(found, faults);
      scanned := |found|;
    }

    method CleanAll(found: seq<string>, faults: Pc -> Fault) returns (deleted: nat, failed: nat)
      modifies this`rows, this`objects
      ensures rows == CleanRows(old(rows), found, faults) && objects == CleanObjects(old(objects), found, faults)
      ensures failed == FailedIn(found, faults) && deleted + failed == |found|
    {
      deleted, failed := 0, 0;
      assert found[0..] == found;
      for i := 0 to |found|
        invariant CleanRows(rows, found[i..], faults) == CleanRows(old(rows), found, faults)
        invariant CleanObjects(objects, found[i..], faults) == CleanObjects(old(objects), found, faults)
        invariant failed + FailedIn(found[i..], faults) == FailedIn(found, faults) && deleted + failed == i
      {
        assert found[i..][1..] == found[i + 1..];
        var cleared := CleanOne(found[i..], faults);
        if cleared {
          deleted := deleted + 1;
        } else {
          failed := failed + 1;
        }
      }
    }

    /** createMessage: the message, its attachments and its email delivery commit together or not at all,
        and an error may hide a commit only when it is the commit's own. */
    method CreateMessage(org: string, ticket: string, kind: MessageKind, ids: seq<string>, messageId: string, now: nat, faults: Pc -> Fault)
        returns (r: Result<Option<DeliveryRow.Row>, MessageError>)
      requires messageId !in messages && messageId !in deliveries
      modifies this`rows, this`messages, this`deliveries
      ensures var m := Message(org, ticket, ids); var refusal := Refusal(tickets, kind, ids, org, ticket);
              && Snapshot(Done) == (if refusal.Some? then old(Snapshot(Done))
                                    else Alone(old(Snapshot(ReadingAttachments(messageId, m))), 2, faults, []))
              && (messageId in messages <==>
                    refusal.None? && Available(old(rows), m) &&
                    faults(ReadingAttachments(messageId, m)) == NoFault && faults(Linking(messageId, m)) != BeforeCommit)
              && (messageId in messages ==>
                    && messages == old(messages)[messageId := m] && rows == LinkAll(old(rows), messageId, m)
                    && deliveries == if kind == PUBLIC_REPLY then old(deliveries)[messageId := DeliveryOf(tickets[ticket], now)]
                                     else old(deliveries))
              && (messageId !in messages ==> rows == old(rows) && messages == old(messages) && deliveries == old(deliveries))
      ensures r.Ok? ==>
                messageId in messages && r.value == if kind == PUBLIC_REPLY then Some(deliveries[messageId]) else None
      ensures r.Err? && messageId in messages ==> r.error == TransactionFailed
      ensures Smooth(faults) ==>
                r == var m := Message(org, ticket, ids); var refusal := Refusal(tickets, kind, ids, org, ticket);
                     if refusal.Some? then Err(refusal.value)
                     else if exists id :: id in ids && !Linkable(old(rows), m, id) then Err(Unavailable)
                     else if TotalBytes(old(rows), ids) > MAX_MESSAGE_BYTES then Err(TooLarge)
                     else Ok(if kind == PUBLIC_REPLY then Some(DeliveryOf(tickets[ticket], now)) else None)
      ensures AttachmentSafety.LinksKept(old(rows), rows)
      ensures rows.Keys == old(rows).Keys
      ensures forall id :: id in rows ==>
                rows[id] == if messageId in messages && id in ids then old(rows)[id].(messageId := Some(messageId)) else old(rows)[id]
      ensures Smooth(faults) ==> AnsweredAs(tickets, old(rows), kind, ids, org, ticket, now, r)
    {
      MessageAnswered(tickets, rows, kind, ids, org, ticket, now);
      r := CommitMessage(org, ticket, kind, ids, messageId, now, faults);
    }

    /** The checks and the transaction. */
    method CommitMessage(org: string, ticket: string, kind: MessageKind, ids: seq<string>, messageId: string, now: nat, faults: Pc -> Fault)
        returns (r: Result<Option<DeliveryRow.Row>, MessageError>)
      requires messageId !in messages && messageId !in deliveries
      modifies this`rows, this`messages, this`deliveries
      ensures var m := Message(org, ticket, ids); var refusal := Refusal(tickets, kind, ids, org, ticket);
              && Snapshot(Done) == (if refusal.Some? then old(Snapshot(Done))
                                    else Alone(old(Snapshot(ReadingAttachments(messageId, m))), 2, faults, []))
              && (messageId in messages <==>
                    refusal.None? && Available(old(rows), m) &&
                    faults(ReadingAttachments(messageId, m)) == NoFault && faults(Linking(messageId, m)) != BeforeCommit)
              && (messageId in messages ==>
                    && messages == old(messages)[messageId := m] && rows == LinkAll(old(rows), messageId, m)
                    && deliveries == if kind == PUBLIC_REPLY then old(deliveries)[messageId := DeliveryOf(tickets[ticket], now)]
                                     else old(deliveries))
              && (messageId !in messages ==> rows == old(rows) && messages == old(messages) && deliveries == old(deliveries))
      ensures r.Ok? ==>
                messageId in messages && r.value == if kind == PUBLIC_REPLY then Some(deliveries[messageId]) else None
      ensures r.Err? && messageId in messages ==> r.error == TransactionFailed
      ensures Smooth(faults) ==>
                r == var m := Message(org, ticket, ids); var refusal := Refusal(tickets, kind, ids, org, ticket);
                     if refusal.Some? then Err(refusal.value)
                     else if exists id :: id in ids && !Linkable(old(rows), m, id) then Err(Unavailable)
                     else if TotalBytes(old(rows), ids) > MAX_MESSAGE_BYTES then Err(TooLarge)
                     else Ok(if kind == PUBLIC_REPLY then Some(DeliveryOf(tickets[ticket], now)) else None)
      ensures AttachmentSafety.LinksKept(old(rows), rows)
    {
      var refusal := Refusal(tickets, kind, ids, org, ticket);
      if refusal.Some? {
        return Err(refusal.value);
      }
      var m := Message(org, ticket, ids);
      MessageRuns(Snapshot(ReadingAttachments(messageId, m)), messageId, m, faults);
      if faults(ReadingAttachments(messageId, m)) != NoFault {
        return Err(TransactionFailed);
      }
      if exists id | id in ids :: !Linkable(rows, m, id) {
        return Err(Unavailable);
      }
      if TotalBytes(rows, ids) > MAX_MESSAGE_BYTES {
        return Err(TooLarge);
      }
      if faults(Linking(messageId, m)) == BeforeCommit {
        return Err(TransactionFailed);
      }
      messages := messages[messageId := m];
      rows := LinkAll(rows, messageId, m);
      if kind == PUBLIC_REPLY {
        deliveries := deliveries[messageId := DeliveryOf(tickets[ticket], now)];
      }
      if faults(Linking(messageId, m)) == AfterCommit {
        return Err(TransactionFailed);
      }
      r := Ok(if kind == PUBLIC_REPLY then Some(deliveries[messageId]) else None);
    }
  }

  /** Ready to be linked: this ticket's, uploaded, and in no message yet. */
  predicate IsAvailable(rows: map<string, Attachment>, org: string, ticket: string, id: string) {
    id in rows && rows[id].org == org && rows[id].ticket == ticket && rows[id].status == UPLOADED && rows[id].messageId.None?
  }

  /** What createMessage answers when no call fails: the refusals in their order, or the delivery of a reply. */
  ghost predicate AnsweredAs(tickets: map<string, TicketInfo>, rows: map<string, Attachment>, kind: MessageKind, ids: seq<string>,
                             org: string, ticket: string, now: nat, r: Result<Option<DeliveryRow.Row>, MessageError>) {
    if exists i, j :: 0 <= i < j < |ids| && ids[i] == ids[j] then r == Err(DuplicateIds)
    else if ticket !in tickets || tickets[ticket].org != org then r == Err(TicketNotFound)
    else if kind == PUBLIC_REPLY && tickets[ticket].status == TicketProtocol.CLOSED then r == Err(TicketClosed)
    else if exists id :: id in ids && !IsAvailable(rows, org, ticket, id) then r == Err(Unavailable)
    else if TotalBytes(rows, ids) > 50 * 1024 * 1024 then r == Err(TooLarge)
    else if kind == INTERNAL_NOTE then r == Ok(None)
    else r.Ok? && r.value.Some? && IsDeliveryOf(r.value.value, tickets[ticket].customerEmail, now)
  }

  /** A new delivery to the customer's address, trimmed and lower-cased; FAILED when there is none. */
  predicate IsDeliveryOf(d: DeliveryRow.Row, email: Option<string>, now: nat) {
    if email.None? || |ReplyAddress.Trim(email.value)| == 0
    then d == DeliveryRow.Row(DeliveryRow.FAILED, None, true, now, None, 0, None, None, None, Some(now), Some("Customer has no email address"))
    else d == DeliveryRow.Row(DeliveryRow.PENDING, Some(ReplyAddress.Lower(ReplyAddress.Trim(email.value))), true, now,
                              None, 0, None, None, None, None, None)
  }

  lemma {:induction false} MessageAnswered(tickets: map<string, TicketInfo>, rows: map<string, Attachment>, kind: MessageKind,
                                           ids: seq<string>, org: string, ticket: string, now: nat)
    ensures var m := Message(org, ticket, ids); var refusal := Refusal(tickets, kind, ids, org, ticket);
            var r := if refusal.Some? then Err(refusal.value)
                     else if exists id :: id in ids && !Linkable(rows, m, id) then Err(Unavailable)
                     else if TotalBytes(rows, ids) > MAX_MESSAGE_BYTES then Err(TooLarge)
                     else Ok(if kind == PUBLIC_REPLY then Some(DeliveryOf(tickets[ticket], now)) else None);
            AnsweredAs(tickets, rows, kind, ids, org, ticket, now, r)
  {
    assert AllDistinct(ids) <==> !exists i, j :: 0 <= i < j < |ids| && ids[i] == ids[j];
    assert forall id :: Linkable(rows, Message(org, ticket, ids), id) <==> IsAvailable(rows, org, ticket, id);
    if ticket in tickets {
      DeliveryIs(tickets[ticket], now);
    }
  }

  lemma {:induction false} DeliveryIs(t: TicketInfo, now: nat)
    ensures IsDeliveryOf(DeliveryOf(t, now), t.customerEmail, now)
  {
  }

  /** The checks of createMessage that come before its attachments. */
  function Refusal(tickets: map<string, TicketInfo>, kind: MessageKind, ids: seq<string>, org: string, ticket: string): Option<MessageError> {
    if !AllDistinct(ids) then Some(DuplicateIds)
    else if ticket !in tickets || tickets[ticket].org != org then Some(TicketNotFound)
    else if kind == PUBLIC_REPLY && tickets[ticket].status == TicketProtocol.CLOSED then Some(TicketClosed)
    else None
  }

  predicate AllDistinct(ids: seq<string>)
    ensures AllDistinct(ids) <==> Distinct(ids)
  {
    forall i, j :: 0 <= i < j < |ids| ==> ids[i] != ids[j]
  }

  /** A public reply's email, PENDING or, without an address to go to, FAILED. */
  function DeliveryOf(t: TicketInfo, now: nat): DeliveryRow.Row {
    DeliveryRow.NewRow(RecipientOf(t.customerEmail), true, now)
  }

  lemma {:induction false} MessageRuns(w: World, messageId: string, m: Message, faults: Pc -> Fault)
    requires w.procs == [ReadingAttachments(messageId, m)] && messageId !in w.messages
    ensures Alone(w, 2, faults, []) ==
            if faults(ReadingAttachments(messageId, m)) == NoFault && Available(w.rows, m) && faults(Linking(messageId, m)) != BeforeCommit
            then w.(rows := LinkAll(w.rows, messageId, m), messages := w.messages[messageId := m], procs := [Done])
            else w.(procs := [Done])
  {
    var pc := ReadingAttachments(messageId, m);
    var w1 := w.(procs := [if faults(pc) == NoFault && Available(w.rows, m) then Linking(messageId, m) else Done]);
    assert Step(w, 0, faults(pc), []) == w1;
    if w1.procs == [Done] {
      DoneStays(w1, 1, faults, []);
    } else {
      LinkStep(w1, messageId, m, faults(Linking(messageId, m)));
      assert Alone(w1, 1, faults, []) == Step(w1, 0, faults(Linking(messageId, m)), []);
    }
  }

  lemma {:induction false} LinkStep(w: World, messageId: string, m: Message, fault: Fault)
    requires w.procs == [Linking(messageId, m)] && messageId !in w.messages && Available(w.rows, m)
    ensures Step(w, 0, fault, []) ==
            if fault == BeforeCommit then w.(procs := [Done])
            else w.(rows := LinkAll(w.rows, messageId, m), messages := w.messages[messageId := m], procs := [Done])
  {
  }

  predicate Owned(rows: map<string, Attachment>, org: string, ticket: string, id: string) {
    id in rows && rows[id].org == org && rows[id].ticket == ticket
  }

  lemma {:induction false} ReadingRuns(w: World, org: string, ticket: string, id: string, faults: Pc -> Fault)
    requires w.procs == [Reading(org, ticket, id)]
    ensures var w' := Alone(w, 4, faults, []);
            if faults(Reading(org, ticket, id)) != NoFault || !Owned(w.rows, org, ticket, id) || w.rows[id].status == UPLOADED
            then w' == w.(procs := [Done])
            else if faults(Heading(id, w.rows[id])) != NoFault || Judge(w.objects, id, w.rows[id]) == Missing
            then w' == w.(procs := [Done])
            else if Judge(w.objects, id, w.rows[id]) == Good
            then w' == w.(rows := MarkedRows(w.rows, id, faults(MarkingUploaded(id, w.rows[id]))), procs := [Done])
            else w' == w.(rows := RejectedRows(w.rows, id, faults), objects := RejectedObjects(w.objects, id, faults), procs := [Done])
  {
    var pc := Reading(org, ticket, id);
    var w1 := w.(procs := [if faults(pc) == NoFault then AfterRead(w, org, ticket, id) else Done]);
    assert Step(w, 0, faults(pc), []) == w1;
    if w1.procs == [Done] {
      DoneStays(w1, 3, faults, []);
    } else {
      HeadingRuns(w1, id, w.rows[id], faults);
    }
  }
}
