/** The user profile cache as a machine: calls interleave at their one await, fetches settle at any time.
    Between awaits a call runs undisturbed, and reads one time. */
module ProfileProtocol {
  import opened Basics

  datatype Profile = Profile(sub: string, email: string)

  datatype Refusal = Unavailable | Rejected | SubjectMismatch

  /** An entry of the cache, which is an insertion-ordered map: a list of slots with distinct keys. */
  datatype Slot = Slot(key: string, profile: Profile, expiresAt: nat)

  datatype Request = Request(token: string, outcome: Option<Result<Profile, Refusal>>)

  datatype Call =
    | Waiting(token: string, subject: string, request: nat)
    | Answered(token: string, subject: string, answer: Result<Profile, Refusal>)

  datatype World = World(clock: nat, slots: seq<Slot>, inFlight: map<string, nat>, requests: seq<Request>, calls: seq<Call>)

  const TTL_MS: nat := 60_000

  const MAX_CACHED: nat := 500

  const Initial: World := World(0, [], map[], [], [])

  // ---------------------------------------------------------------- the ordered map

  function Where(slots: seq<Slot>, keep: Slot -> bool): (r: seq<Slot>)
    ensures |r| <= |slots|
    ensures forall s :: s in r <==> s in slots && keep(s)
  {
    if slots == [] then []
    else
      var before := Where(slots[..|slots| - 1], keep);
      var last := slots[|slots| - 1];
      assert slots == slots[..|slots| - 1] + [last];
      if keep(last) then before + [last] else before
  }

  predicate Has(slots: seq<Slot>, key: string) {
    exists i :: 0 <= i < |slots| && slots[i].key == key
  }

  ghost predicate DistinctKeys(slots: seq<Slot>) {
    forall i, j :: 0 <= i < j < |slots| ==> slots[i].key != slots[j].key
  }

  lemma {:induction false} WhereKeepsDistinct(slots: seq<Slot>, keep: Slot -> bool)
    requires DistinctKeys(slots)
    ensures DistinctKeys(Where(slots, keep))
  {
    if slots != [] {
      var rest := slots[..|slots| - 1];
      WhereKeepsDistinct(rest, keep);
      forall s | s in Where(rest, keep) ensures s.key != slots[|slots| - 1].key {
        assert s in rest;
      }
    }
  }

  function Get(slots: seq<Slot>, key: string): (r: Option<Slot>)
    ensures r.Some? ==> r.value in slots && r.value.key == key
    ensures r.None? <==> !Has(slots, key)
  {
    if slots == [] then None
    else if slots[0].key == key then Some(slots[0])
    else
      assert forall i :: 0 < i < |slots| ==> slots[i] == slots[1..][i - 1];
      Get(slots[1..], key)
  }

  function Delete(slots: seq<Slot>, key: string): seq<Slot> {
    Where(slots, (s: Slot) => s.key != key)
  }

  function Purge(slots: seq<Slot>, now: nat): seq<Slot> {
    Where(slots, (s: Slot) => s.expiresAt > now)
  }

  /** Setting a key that is there replaces its value in place; a new key goes to the end. */
  function Set(slots: seq<Slot>, s: Slot): seq<Slot> {
    if Has(slots, s.key) then seq(|slots|, i requires 0 <= i < |slots| => if slots[i].key == s.key then s else slots[i])
    else slots + [s]
  }

  function MakeRoom(slots: seq<Slot>, key: string): seq<Slot> {
    if !Has(slots, key) && |slots| >= MAX_CACHED then Delete(slots, slots[0].key) else slots
  }

  function Store(slots: seq<Slot>, s: Slot, now: nat): seq<Slot> {
    Set(MakeRoom(Purge(slots, now), s.key), s)
  }

  lemma {:induction false} DeleteShortens(slots: seq<Slot>, key: string)
    requires Has(slots, key)
    ensures |Delete(slots, key)| < |slots|
  {
    var last := slots[|slots| - 1];
    if last.key != key {
      var rest := slots[..|slots| - 1];
      assert Has(rest, key) by {
        var i :| 0 <= i < |slots| && slots[i].key == key;
        assert rest[i].key == key;
      }
      DeleteShortens(rest, key);
    }
  }

  /** Storing keeps the cache a bounded map, holds the new entry, and forgets what has expired and, of the
      rest, at most the oldest entry of a full cache. */
  lemma {:induction false} StoreBounded(slots: seq<Slot>, s: Slot, now: nat)
    requires DistinctKeys(slots) && |slots| <= MAX_CACHED
    ensures DistinctKeys(Store(slots, s, now)) && |Store(slots, s, now)| <= MAX_CACHED
    ensures s in Store(slots, s, now)
    ensures forall t :: t in Store(slots, s, now) ==> t == s || (t in slots && t.key != s.key && t.expiresAt > now)
    ensures forall t | t in slots && t.key != s.key && t.expiresAt > now && t !in Store(slots, s, now) ::
              !Has(Purge(slots, now), s.key) && |Purge(slots, now)| == MAX_CACHED && t == Purge(slots, now)[0]
  {
    var purged := Purge(slots, now);
    WhereKeepsDistinct(slots, (t: Slot) => t.expiresAt > now);
    var room := MakeRoom(purged, s.key);
    if room != purged {
      WhereKeepsDistinct(purged, (t: Slot) => t.key != purged[0].key);
      DeleteShortens(purged, purged[0].key);
    }
    assert forall t :: t in room ==> t in purged;
    forall t | t in purged && t !in room ensures |purged| == MAX_CACHED && t == purged[0] {
      assert t.key == purged[0].key;
    }
    SetKeeps(room, s);
  }

  lemma {:induction false} SetKeeps(slots: seq<Slot>, s: Slot)
    requires DistinctKeys(slots)
    ensures DistinctKeys(Set(slots, s)) && s in Set(slots, s)
    ensures |Set(slots, s)| == if Has(slots, s.key) then |slots| else |slots| + 1
    ensures forall t :: t in Set(slots, s) <==> t == s || (t in slots && t.key != s.key)
    ensures if Has(slots, s.key) then forall i :: 0 <= i < |slots| ==> Set(slots, s)[i].key == slots[i].key
            else Set(slots, s) == slots + [s]
  {
    forall t | t in slots && t.key != s.key ensures t in Set(slots, s) {
      var i :| 0 <= i < |slots| && slots[i] == t;
      assert Set(slots, s)[i] == t;
    }
    if Has(slots, s.key) {
      var i :| 0 <= i < |slots| && slots[i].key == s.key;
      assert Set(slots, s)[i] == s;
    }
  }

  // ---------------------------------------------------------------- getUserProfile, around its await

  function Judged(profile: Profile, subject: string): Result<Profile, Refusal> {
    if profile.sub == subject then Ok(profile) else Err(SubjectMismatch)
  }

  /** The entry a call may be answered with at once. */
  function Cached(w: World, key: string): Option<Profile> {
    var slot := Get(w.slots, key);
    if slot.Some? && slot.value.expiresAt > w.clock then Some(slot.value.profile) else None
  }

  function Begin(w: World, hash: string -> string, token: string, subject: string): World {
    var key := hash(token);
    var cached := Cached(w, key);
    if cached.Some? then w.(calls := w.calls + [Answered(token, subject, Judged(cached.value, subject))])
    else
      var w1 := w.(slots := Delete(w.slots, key));
      if key in w.inFlight then w1.(calls := w.calls + [Waiting(token, subject, w.inFlight[key])])
      else
        w1.(requests := w.requests + [Request(token, None)],
            inFlight := w.inFlight[key := |w.requests|],
            calls := w.calls + [Waiting(token, subject, |w.requests|)])
  }

  predicate CanResume(w: World, p: nat) {
    && p < |w.calls| && w.calls[p].Waiting?
    && w.calls[p].request < |w.requests| && w.requests[w.calls[p].request].outcome.Some?
  }

  function AnswerTo(w: World, p: nat): Result<Profile, Refusal>
    requires CanResume(w, p)
  {
    var outcome := w.requests[w.calls[p].request].outcome.value;
    if outcome.Err? then outcome else Judged(outcome.value, w.calls[p].subject)
  }

  /** finally: the promise is forgotten only if it is still the one in flight. */
  function Release(inFlight: map<string, nat>, key: string, request: nat): map<string, nat> {
    if key in inFlight && inFlight[key] == request then inFlight - {key} else inFlight
  }

  function Resume(w: World, hash: string -> string, p: nat): World
    requires CanResume(w, p)
  {
    var call, answer := w.calls[p], AnswerTo(w, p);
    var key := hash(call.token);
    w.(calls := w.calls[p := Answered(call.token, call.subject, answer)],
       slots := if answer.Ok? then Store(w.slots, Slot(key, answer.value, w.clock + TTL_MS), w.clock) else w.slots,
       inFlight := Release(w.inFlight, key, call.request))
  }

  datatype Action = Tick(now: nat) | Begins(token: string, subject: string) | Settles(r: nat, outcome: Result<Profile, Refusal>) | Resumes(p: nat)

  predicate Enabled(w: World, a: Action) {
    match a
    case Tick(now) => w.clock <= now
    case Begins(_, _) => true
    case Settles(r, _) => r < |w.requests| && w.requests[r].outcome.None?
    case Resumes(p) => CanResume(w, p)
  }

  function Next(w: World, hash: string -> string, a: Action): World
    requires Enabled(w, a)
  {
    match a
    case Tick(now) => w.(clock := now)
    case Begins(token, subject) => Begin(w, hash, token, subject)
    case Settles(r, outcome) => w.(requests := w.requests[r := w.requests[r].(outcome := Some(outcome))])
    case Resumes(p) => Resume(w, hash, p)
  }

  ghost predicate IsRun(ws: seq<World>, hash: string -> string, acts: seq<Action>) {
    && |ws| == |acts| + 1
    && ws[0] == Initial
    && forall i :: 0 <= i < |acts| ==> Enabled(ws[i], acts[i]) && ws[i + 1] == Next(ws[i], hash, acts[i])
  }

  // ---------------------------------------------------------------- invariants

  /** Some fetch for a token with this key brought this profile. */
  ghost predicate Fetched(requests: seq<Request>, hash: string -> string, key: string, profile: Profile) {
    exists r :: 0 <= r < |requests| && hash(requests[r].token) == key && requests[r].outcome == Some(Ok(profile))
  }

  ghost predicate CacheSound(w: World, hash: string -> string) {
    && DistinctKeys(w.slots) && |w.slots| <= MAX_CACHED
    && forall s :: s in w.slots ==> SlotSound(w, hash, s)
  }

  ghost predicate SlotSound(w: World, hash: string -> string, s: Slot) {
    Fetched(w.requests, hash, s.key, s.profile) && s.expiresAt <= w.clock + TTL_MS
  }

  /** The promises in flight are waited for, and every unsettled one is in flight. */
  ghost predicate FlightSound(w: World, hash: string -> string) {
    && (forall k :: k in w.inFlight ==>
          w.inFlight[k] < |w.requests| && hash(w.requests[w.inFlight[k]].token) == k && Awaited(w.calls, w.inFlight[k]))
    && (forall r :: 0 <= r < |w.requests| && w.requests[r].outcome.None? ==>
          hash(w.requests[r].token) in w.inFlight && w.inFlight[hash(w.requests[r].token)] == r)
  }

  ghost predicate Awaited(calls: seq<Call>, r: nat) {
    exists p :: 0 <= p < |calls| && calls[p].Waiting? && calls[p].request == r
  }

  ghost predicate CallSound(requests: seq<Request>, hash: string -> string, call: Call) {
    match call
    case Waiting(token, _, r) => r < |requests| && hash(requests[r].token) == hash(token)
    case Answered(token, subject, answer) =>
      answer.Ok? ==> answer.value.sub == subject && Fetched(requests, hash, hash(token), answer.value)
  }

  ghost predicate CallsSound(w: World, hash: string -> string) {
    forall p :: 0 <= p < |w.calls| ==> CallSound(w.requests, hash, w.calls[p])
  }

  ghost predicate Sound(w: World, hash: string -> string) {
    CacheSound(w, hash) && FlightSound(w, hash) && CallsSound(w, hash)
  }

  ghost predicate Grew(before: seq<Request>, after: seq<Request>) {
    && |before| <= |after|
    && forall r :: 0 <= r < |before| ==>
         before[r].token == after[r].token && (before[r].outcome.Some? ==> after[r].outcome == before[r].outcome)
  }

  lemma {:induction false} FetchedStays(before: seq<Request>, after: seq<Request>, hash: string -> string, key: string, profile: Profile)
    requires Grew(before, after) && Fetched(before, hash, key, profile)
    ensures Fetched(after, hash, key, profile)
  {
    var r :| 0 <= r < |before| && hash(before[r].token) == key && before[r].outcome == Some(Ok(profile));
    assert after[r].outcome == Some(Ok(profile));
  }

  lemma {:induction false} CallSoundStays(before: seq<Request>, after: seq<Request>, hash: string -> string, call: Call)
    requires Grew(before, after) && CallSound(before, hash, call)
    ensures CallSound(after, hash, call)
  {
    if call.Answered? && call.answer.Ok? {
      FetchedStays(before, after, hash, hash(call.token), call.answer.value);
    }
  }

  lemma {:induction false} BeginSound(w: World, hash: string -> string, token: string, subject: string)
    requires Sound(w, hash)
    ensures Sound(Begin(w, hash, token, subject), hash)
  {
    var w' := Begin(w, hash, token, subject);
    BeginCacheSound(w, hash, token, subject);
    BeginFlightSound(w, hash, token, subject);
    forall p | 0 <= p < |w'.calls| ensures CallSound(w'.requests, hash, w'.calls[p]) {
      if p < |w.calls| {
        CallSoundStays(w.requests, w'.requests, hash, w.calls[p]);
      }
    }
  }

  lemma {:induction false} BeginCacheSound(w: World, hash: string -> string, token: string, subject: string)
    requires CacheSound(w, hash)
    ensures CacheSound(Begin(w, hash, token, subject), hash)
  {
    var w' := Begin(w, hash, token, subject);
    var key := hash(token);
    WhereKeepsDistinct(w.slots, (s: Slot) => s.key != key);
    forall s | s in w'.slots ensures s in w.slots && Fetched(w'.requests, hash, s.key, s.profile) {
      FetchedStays(w.requests, w'.requests, hash, s.key, s.profile);
    }
  }

  lemma {:induction false} BeginFlightSound(w: World, hash: string -> string, token: string, subject: string)
    requires FlightSound(w, hash)
    ensures FlightSound(Begin(w, hash, token, subject), hash)
  {
    var w' := Begin(w, hash, token, subject);
    forall k | k in w'.inFlight ensures Awaited(w'.calls, w'.inFlight[k]) {
      if k in w.inFlight && w'.inFlight[k] == w.inFlight[k] {
        var p :| 0 <= p < |w.calls| && w.calls[p].Waiting? && w.calls[p].request == w.inFlight[k];
        assert w'.calls[p] == w.calls[p];
      } else {
        assert w'.calls[|w.calls|].Waiting?;
      }
    }
  }

  lemma {:induction false} ResumeSound(w: World, hash: string -> string, p: nat)
    requires Sound(w, hash) && CanResume(w, p)
    ensures Sound(Resume(w, hash, p), hash)
  {
    assert CallSound(w.requests, hash, w.calls[p]);
    AnswerIsSound(w, hash, p);
    ResumeCacheSound(w, hash, p);
    ResumeFlightSound(w, hash, p);
  }

  lemma {:induction false} AnswerIsSound(w: World, hash: string -> string, p: nat)
    requires CanResume(w, p) && CallSound(w.requests, hash, w.calls[p])
    ensures CallSound(w.requests, hash, Resume(w, hash, p).calls[p])
    ensures AnswerTo(w, p).Ok? ==> Fetched(w.requests, hash, hash(w.calls[p].token), AnswerTo(w, p).value)
  {
  }

  lemma {:induction false} ResumeCacheSound(w: World, hash: string -> string, p: nat)
    requires CacheSound(w, hash) && CanResume(w, p) && CallSound(w.requests, hash, w.calls[p])
    ensures CacheSound(Resume(w, hash, p), hash)
  {
    var w', answer := Resume(w, hash, p), AnswerTo(w, p);
    AnswerIsSound(w, hash, p);
    if answer.Ok? {
      StoringSound(w, hash, Slot(hash(w.calls[p].token), answer.value, w.clock + TTL_MS));
    }
    assert w'.requests == w.requests && w'.clock == w.clock;
  }

  lemma {:induction false} StoringSound(w: World, hash: string -> string, s: Slot)
    requires CacheSound(w, hash) && SlotSound(w, hash, s)
    ensures CacheSound(w.(slots := Store(w.slots, s, w.clock)), hash)
  {
    StoreBounded(w.slots, s, w.clock);
    var w' := w.(slots := Store(w.slots, s, w.clock));
    forall t | t in w'.slots ensures SlotSound(w', hash, t) {
      assert SlotSound(w, hash, t);
    }
  }

  lemma {:induction false} ResumeFlightSound(w: World, hash: string -> string, p: nat)
    requires FlightSound(w, hash) && CanResume(w, p) && CallSound(w.requests, hash, w.calls[p])
    ensures FlightSound(Resume(w, hash, p), hash)
  {
    var w' := Resume(w, hash, p);
    forall k | k in w'.inFlight ensures Awaited(w'.calls, w.inFlight[k]) {
      var q :| 0 <= q < |w.calls| && w.calls[q].Waiting? && w.calls[q].request == w.inFlight[k];
      assert w'.calls[q] == w.calls[q];
    }
  }

  lemma {:induction false} SettleSound(w: World, hash: string -> string, r: nat, outcome: Result<Profile, Refusal>)
    requires Sound(w, hash) && Enabled(w, Settles(r, outcome))
    ensures Sound(Next(w, hash, Settles(r, outcome)), hash)
  {
    var w' := Next(w, hash, Settles(r, outcome));
    forall s | s in w.slots ensures Fetched(w'.requests, hash, s.key, s.profile) {
      FetchedStays(w.requests, w'.requests, hash, s.key, s.profile);
    }
    forall p | 0 <= p < |w.calls| ensures CallSound(w'.requests, hash, w.calls[p]) {
      CallSoundStays(w.requests, w'.requests, hash, w.calls[p]);
    }
  }

  lemma {:induction false} AlwaysSound(ws: seq<World>, hash: string -> string, acts: seq<Action>)
    requires IsRun(ws, hash, acts)
    ensures Sound(ws[|acts|], hash)
  {
    if acts != [] {
      var n := |acts| - 1;
      AlwaysSound(ws[..n + 1], hash, acts[..n]);
      match acts[n]
      case Tick(_) =>
      case Begins(token, subject) => BeginSound(ws[n], hash, token, subject);
      case Settles(r, outcome) => SettleSound(ws[n], hash, r, outcome);
      case Resumes(p) => ResumeSound(ws[n], hash, p);
    }
  }

  // ---------------------------------------------------------------- what callers get

  ghost predicate Injective(hash: string -> string) {
    forall a, b :: hash(a) == hash(b) ==> a == b
  }

  /** However calls interleave: at most 500 entries, one unsettled fetch per token, and a profile is only
      ever returned to a caller whose token fetched it and whose subject it names. */
  lemma {:induction false} ProfilesAreSafe(ws: seq<World>, hash: string -> string, acts: seq<Action>)
    requires IsRun(ws, hash, acts) && Injective(hash)
    ensures var w := ws[|acts|];
            && |w.slots| <= 500
            && (forall q, r | 0 <= q < |w.requests| && 0 <= r < |w.requests| && w.requests[q].token == w.requests[r].token ::
                  w.requests[q].outcome.None? && w.requests[r].outcome.None? ==> q == r)
            && (forall p | 0 <= p < |w.calls| && w.calls[p].Answered? && w.calls[p].answer.Ok? ::
                  AnsweredRightly(w.requests, w.calls[p]))
            && ((forall p :: 0 <= p < |w.calls| ==> w.calls[p].Answered?) ==> w.inFlight == map[])
  {
    AlwaysSound(ws, hash, acts);
    var w := ws[|acts|];
    forall p | 0 <= p < |w.calls| && w.calls[p].Answered? && w.calls[p].answer.Ok?
      ensures AnsweredRightly(w.requests, w.calls[p])
    {
      assert CallSound(w.requests, hash, w.calls[p]);
      var r :| 0 <= r < |w.requests| && hash(w.requests[r].token) == hash(w.calls[p].token) &&
               w.requests[r].outcome == Some(Ok(w.calls[p].answer.value));
      assert w.requests[r].token == w.calls[p].token;
    }
  }

  ghost predicate AnsweredRightly(requests: seq<Request>, call: Call)
    requires call.Answered? && call.answer.Ok?
  {
    && call.answer.value.sub == call.subject
    && exists r :: 0 <= r < |requests| && requests[r].token == call.token && requests[r].outcome == Some(Ok(call.answer.value))
  }

  /** Step j of the run stored this entry. */
  ghost predicate StoredAt(ws: seq<World>, hash: string -> string, acts: seq<Action>, j: nat, s: Slot)
    requires IsRun(ws, hash, acts)
  {
    && j < |acts| && acts[j].Resumes? && AnswerTo(ws[j], acts[j].p) == Ok(s.profile)
    && hash(ws[j].calls[acts[j].p].token) == s.key && s.expiresAt == ws[j].clock + TTL_MS
  }

  lemma {:induction false} SlotsWereStored(ws: seq<World>, hash: string -> string, acts: seq<Action>, i: nat, s: Slot) returns (j: nat)
    requires IsRun(ws, hash, acts) && i < |ws| && s in ws[i].slots
    ensures j < i && StoredAt(ws, hash, acts, j, s) && ws[j].clock <= ws[i].clock
    decreases i
  {
    assert i > 0;
    if s in ws[i - 1].slots {
      j := SlotsWereStored(ws, hash, acts, i - 1, s);
    } else {
      AlwaysSound(ws[..i], hash, acts[..i - 1]);
      NewSlotIsStored(ws[i - 1], hash, acts[i - 1], s);
      j := i - 1;
    }
    assert ws[i] == Next(ws[i - 1], hash, acts[i - 1]) && ws[i - 1].clock <= ws[i].clock;
  }

  /** A slot appears only when a call that fetched it is answered. */
  lemma {:induction false} NewSlotIsStored(w: World, hash: string -> string, a: Action, s: Slot)
    requires Sound(w, hash) && Enabled(w, a) && s in Next(w, hash, a).slots && s !in w.slots
    ensures a.Resumes? && AnswerTo(w, a.p) == Ok(s.profile)
    ensures s.key == hash(w.calls[a.p].token) && s.expiresAt == w.clock + TTL_MS
  {
    assert a.Resumes?;
    var answer := AnswerTo(w, a.p);
    if answer.Ok? {
      StoreBounded(w.slots, Slot(hash(w.calls[a.p].token), answer.value, w.clock + TTL_MS), w.clock);
    }
  }

  /** A call answered from the cache gets what some earlier call of that key stored less than a minute ago. */
  lemma {:induction false} CachedAnswersAreRecent(ws: seq<World>, hash: string -> string, acts: seq<Action>, i: nat, key: string) returns (j: nat)
    requires IsRun(ws, hash, acts) && i < |ws| && Cached(ws[i], key).Some?
    ensures j < i && j < |acts| && acts[j].Resumes? && AnswerTo(ws[j], acts[j].p) == Ok(Cached(ws[i], key).value)
    ensures hash(ws[j].calls[acts[j].p].token) == key
    ensures ws[j].clock <= ws[i].clock < ws[j].clock + 60_000
  {
    j := SlotsWereStored(ws, hash, acts, i, Get(ws[i].slots, key).value);
  }
}
