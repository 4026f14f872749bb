/** Attachments as interleaved steps of uploaders, completions, rejections, cleanups and message
    creations. Rows and stored objects live in two systems, and any call to either can fail before or
    after it takes effect. Objects are indexed by attachment id; ObjectKeyInjective says why that is fair. */
module AttachmentProtocol {
  import opened Basics
  import AttachmentPolicy

  const PENDING_MAX_AGE_MS: nat := 60 * 60 * 1000
  const UNLINKED_MAX_AGE_MS: nat := 24 * 60 * 60 * 1000
  const MAX_MESSAGE_BYTES: nat := 50 * 1024 * 1024
  const CLEANUP_BATCH: nat := 100

  datatype Status = PENDING | UPLOADED

  datatype Attachment = Attachment(org: string, ticket: string, contentType: string, size: nat, createdAt: nat,
                                   status: Status, messageId: Option<string>)

  /** What a head call answers about an object. */
  datatype Stored = Stored(size: Option<nat>, contentType: Option<string>, attachmentId: Option<string>)

  datatype Message = Message(org: string, ticket: string, attachments: seq<string>)

  // ---------------------------------------------------------------- object keys

  function ObjectKey(org: string, ticket: string, id: string): string {
    "organizations/" + org + "/tickets/" + ticket + "/attachments/" + id
  }

  /** Keys of different attachments differ: an id has no slash, so it is all that follows the last one. */
  lemma {:induction false} ObjectKeyInjective(org: string, ticket: string, id: string, org': string, ticket': string, id': string)
    requires '/' !in id && '/' !in id'
    requires ObjectKey(org, ticket, id) == ObjectKey(org', ticket', id')
    ensures id == id'
  {
    var key := ObjectKey(org, ticket, id);
    var slash, slash' := |key| - |id| - 1, |key| - |id'| - 1;
    assert key[slash] == '/' && key[slash'] == '/';
    assert key[slash + 1..] == id && key[slash' + 1..] == id';
  }

  // ---------------------------------------------------------------- processes

  datatype Fault = NoFault | BeforeCommit | AfterCommit

  datatype Pc =
    // completeUpload; meta is the row it read
    | Reading(org: string, ticket: string, id: string)
    | Heading(id: string, meta: Attachment)
    | MarkingUploaded(id: string, meta: Attachment)
    | DeletingRejectedObject(id: string)
    | DeletingRejectedRow(id: string)
    // cleanupAbandonedUploads
    | FindingAbandoned(now: nat)
    | DeletingObject(id: string, rest: seq<string>)
    | DeletingRow(id: string, rest: seq<string>)
    // createMessage
    | ReadingAttachments(messageId: string, m: Message)
    | Linking(messageId: string, m: Message)
    | Done

  datatype World = World(
    clock: nat,
    rows: map<string, Attachment>,
    objects: map<string, Stored>,
    messages: map<string, Message>,
    born: map<string, Attachment>,  // history: every row ever created, as created
    uploading: set<string>,         // uploads initiated and not yet reported complete
    procs: seq<Pc>)

  const Initial: World := World(0, map[], map[], map[], map[], {}, [])

  datatype Action =
    | Tick(now: nat)
    | Initiate(id: string, row: Attachment)
    | Upload(id: string, stored: Stored)
    | CallComplete(org: string, ticket: string, id: string)
    | StartCleanup(now: nat)
    | CallCreateMessage(messageId: string, m: Message)
    | Stop(p: nat)
    | Advance(p: nat, fault: Fault, found: seq<string>)

  /** Cleanup may select a row once it is this old, whatever its status. */
  predicate Expired(w: World, id: string) {
    id in w.born && w.born[id].createdAt + PENDING_MAX_AGE_MS <= w.clock
  }

  predicate Abandoned(row: Attachment, now: nat) {
    || (row.status == PENDING && row.createdAt + PENDING_MAX_AGE_MS < now)
    || (row.status == UPLOADED && row.messageId.None? && row.createdAt + UNLINKED_MAX_AGE_MS < now)
  }

  ghost predicate AbandonedBatch(rows: map<string, Attachment>, now: nat, found: seq<string>) {
    && |found| <= CLEANUP_BATCH
    && Distinct(found)
    && (forall id :: id in found ==> id in rows && Abandoned(rows[id], now))
    && (|found| < CLEANUP_BATCH ==> forall id :: id in rows && Abandoned(rows[id], now) ==> id in found)
    && (forall i, j :: 0 <= i < j < |found| ==> rows[found[i]].createdAt <= rows[found[j]].createdAt)
  }

  /** The uploader writes only between initiate and its complete call, and before cleanup may select. */
  predicate MayUpload(w: World, id: string) {
    id in w.uploading && !Expired(w, id)
  }

  ghost predicate Enabled(w: World, a: Action) {
    match a
    case Tick(now) => w.clock <= now
    // a new random id has not been used, and nobody can be asking about it yet
    case Initiate(id, row) =>
      && id !in w.born && (forall p :: 0 <= p < |w.procs| ==> w.procs[p].Reading? ==> w.procs[p].id != id)
      && row.status == PENDING && row.messageId.None? && row.createdAt == w.clock
    case Upload(id, _) => MayUpload(w, id)
    case CallComplete(_, _, _) => true
    case StartCleanup(now) => now <= w.clock
    case CallCreateMessage(messageId, m) => Distinct(m.attachments)
    case Stop(p) => p < |w.procs|
    case Advance(p, _, found) =>
      p < |w.procs| && (w.procs[p].FindingAbandoned? ==> AbandonedBatch(w.rows, w.procs[p].now, found))
  }

  // ---------------------------------------------------------------- statements

  /** The where-clause of linking: this ticket's, uploaded, not yet linked. */
  predicate Linkable(rows: map<string, Attachment>, m: Message, id: string) {
    && id in rows
    && rows[id].org == m.org && rows[id].ticket == m.ticket
    && rows[id].status == UPLOADED && rows[id].messageId == None
  }

  function TotalBytes(rows: map<string, Attachment>, ids: seq<string>): nat {
    if ids == [] then 0
    else TotalBytes(rows, ids[..|ids| - 1]) + (if ids[|ids| - 1] in rows then rows[ids[|ids| - 1]].size else 0)
  }

  /** The bytes of a list of attachments are the sum of their sizes. */
  lemma {:induction false} TotalBytesAdds(rows: map<string, Attachment>, xs: seq<string>, ys: seq<string>)
    ensures TotalBytes(rows, xs + ys) == TotalBytes(rows, xs) + TotalBytes(rows, ys)
    ensures forall id :: id in rows ==> TotalBytes(rows, [id]) == rows[id].size
  {
    forall id | id in rows ensures TotalBytes(rows, [id]) == rows[id].size {
      assert [id][..0] == [];
    }
    if ys == [] {
      assert xs + ys == xs;
    } else {
      TotalBytesAdds(rows, xs, ys[..|ys| - 1]);
      assert (xs + ys)[..|xs + ys| - 1] == xs + ys[..|ys| - 1];
    }
  }

  function MarkUploaded(rows: map<string, Attachment>, id: string): map<string, Attachment> {
    if id in rows && rows[id].status == PENDING then rows[id := rows[id].(status := UPLOADED)] else rows
  }

  function DeletePending(rows: map<string, Attachment>, id: string): map<string, Attachment> {
    if id in rows && rows[id].status == PENDING then rows - {id} else rows
  }

  function DeleteUnlinked(rows: map<string, Attachment>, id: string): map<string, Attachment> {
    if id in rows && rows[id].messageId.None? then rows - {id} else rows
  }

  function LinkAll(rows: map<string, Attachment>, messageId: string, m: Message): map<string, Attachment> {
    map id | id in rows :: if id in m.attachments then rows[id].(messageId := Some(messageId)) else rows[id]
  }

  /** The read of the transaction: all requested attachments are available and fit the budget. */
  ghost predicate Available(rows: map<string, Attachment>, m: Message) {
    (forall id :: id in m.attachments ==> Linkable(rows, m, id)) && TotalBytes(rows, m.attachments) <= MAX_MESSAGE_BYTES
  }

  // ---------------------------------------------------------------- steps

  function Goto(w: World, p: nat, pc: Pc): World
    requires p < |w.procs|
  {
    w.(procs := w.procs[p := pc])
  }

  function CleanupNext(todo: seq<string>): Pc {
    if todo == [] then Done else DeletingObject(todo[0], todo[1..])
  }

  predicate SameType(stored: string, announced: string) {
    stored != "" && AttachmentPolicy.NormalizeContentType(stored) == AttachmentPolicy.NormalizeContentType(announced)
  }

  /** Size, type and metadata of the stored object are those the row announced. */
  predicate Genuine(stored: Stored, id: string, meta: Attachment) {
    && stored.size == Some(meta.size)
    && stored.contentType.Some? && SameType(stored.contentType.value, meta.contentType)
    && stored.attachmentId == Some(id)
  }

  function AfterRead(w: World, org: string, ticket: string, id: string): Pc {
    if id !in w.rows || w.rows[id].org != org || w.rows[id].ticket != ticket then Done
    else if w.rows[id].status == UPLOADED then Done
    else Heading(id, w.rows[id])
  }

  function AfterHead(w: World, id: string, meta: Attachment): Pc {
    if id !in w.objects then Done
    else if Genuine(w.objects[id], id, meta) then MarkingUploaded(id, meta)
    else DeletingRejectedObject(id)
  }

  /** A failing call ends the process, or moves a cleanup on to its next candidate. */
  function AfterFailure(pc: Pc): Pc {
    match pc
    case DeletingObject(_, rest) => CleanupNext(rest)
    case DeletingRow(_, rest) => CleanupNext(rest)
    case _ => Done
  }

  ghost function PcAfter(w: World, pc: Pc, found: seq<string>): Pc {
    match pc
    case Reading(org, ticket, id) => AfterRead(w, org, ticket, id)
    case Heading(id, meta) => AfterHead(w, id, meta)
    case DeletingRejectedObject(id) => DeletingRejectedRow(id)
    case FindingAbandoned(_) => CleanupNext(found)
    case DeletingObject(id, rest) => DeletingRow(id, rest)
    case DeletingRow(_, rest) => CleanupNext(rest)
    case ReadingAttachments(messageId, m) => if Available(w.rows, m) then Linking(messageId, m) else Done
    case _ => Done
  }

  /** The linking transaction commits only when every requested row was still available. */
  ghost predicate Links(w: World, pc: Pc) {
    pc.Linking? && pc.messageId !in w.messages && forall id :: id in pc.m.attachments ==> Linkable(w.rows, pc.m, id)
  }

  ghost function RowsAfter(w: World, pc: Pc): map<string, Attachment> {
    match pc
    case MarkingUploaded(id, _) => MarkUploaded(w.rows, id)
    case DeletingRejectedRow(id) => DeletePending(w.rows, id)
    case DeletingRow(id, _) => DeleteUnlinked(w.rows, id)
    case Linking(messageId, m) => if Links(w, pc) then LinkAll(w.rows, messageId, m) else w.rows
    case _ => w.rows
  }

  function ObjectsAfter(w: World, pc: Pc): map<string, Stored> {
    match pc
    case DeletingRejectedObject(id) => w.objects - {id}
    case DeletingObject(id, _) => w.objects - {id}
    case _ => w.objects
  }

  ghost function MessagesAfter(w: World, pc: Pc): map<string, Message> {
    if Links(w, pc) then w.messages[pc.messageId := pc.m] else w.messages
  }

  ghost function Step(w: World, p: nat, fault: Fault, found: seq<string>): World
    requires p < |w.procs|
  {
    var pc := w.procs[p];
    if fault == BeforeCommit then Goto(w, p, AfterFailure(pc))
    else
      w.(rows := RowsAfter(w, pc), objects := ObjectsAfter(w, pc), messages := MessagesAfter(w, pc),
         procs := w.procs[p := if fault == AfterCommit then AfterFailure(pc) else PcAfter(w, pc, found)])
  }

  ghost function Next(w: World, a: Action): World
    requires Enabled(w, a)
  {
    match a
    case Tick(now) => w.(clock := now)
    // the row is created before anybody is given a URL to upload to
    case Initiate(id, row) => w.(rows := w.rows[id := row], born := w.born[id := row], uploading := w.uploading + {id})
    case Upload(id, stored) => w.(objects := w.objects[id := stored])
    case CallComplete(org, ticket, id) => w.(uploading := w.uploading - {id}, procs := w.procs + [Reading(org, ticket, id)])
    case StartCleanup(now) => w.(procs := w.procs + [FindingAbandoned(now)])
    case CallCreateMessage(messageId, m) => w.(procs := w.procs + [ReadingAttachments(messageId, m)])
    case Stop(p) => Goto(w, p, Done)
    case Advance(p, fault, found) => Step(w, p, fault, found)
  }

  ghost predicate IsRun(ws: seq<World>, acts: seq<Action>) {
    && |ws| == |acts| + 1
    && ws[0] == Initial
    && forall i :: 0 <= i < |acts| ==> Enabled(ws[i], acts[i]) && ws[i + 1] == Next(ws[i], acts[i])
  }
}
