/** The profile cache in the program's own form: a map and a table of promises updated in place, in the
    two stretches of getUserProfile before and after its await. */
module ProfileCache {
  import opened Basics
  import opened ProfileProtocol

  datatype Reply = Answer(answer: Result<Profile, Refusal>) | Await(request: nat)

  /** The first i of these slots are kept, and the rest is still to be purged. */
  ghost predicate Halfway(was: seq<Slot>, slots: seq<Slot>, i: nat, now: nat) {
    i <= |slots| && Purge(was, now) == slots[..i] + Purge(slots[i..], now)
  }

  lemma {:induction false} AtStart(slots: seq<Slot>, now: nat)
    ensures Halfway(slots, slots, 0, now)
  {
    assert slots[0..] == slots;
  }

  lemma {:induction false} KeepOne(was: seq<Slot>, slots: seq<Slot>, i: nat, now: nat)
    requires Halfway(was, slots, i, now) && i < |slots| && slots[i].expiresAt > now
    ensures Halfway(was, slots, i + 1, now)
  {
    PurgeFirst(slots[i..], now);
    assert slots[i..][1..] == slots[i + 1..] && slots[..i] + [slots[i]] == slots[..i + 1];
  }

  lemma {:induction false} DropOne(was: seq<Slot>, slots: seq<Slot>, i: nat, now: nat)
    requires Halfway(was, slots, i, now) && i < |slots| && slots[i].expiresAt <= now
    ensures Halfway(was, slots[..i] + slots[i + 1..], i, now)
  {
    PurgeFirst(slots[i..], now);
    Cut(slots[..i], slots[i + 1..]);
    assert slots[i..][1..] == slots[i + 1..];
  }

  lemma {:induction false} Cut(xs: seq<Slot>, ys: seq<Slot>)
    ensures |xs| <= |xs + ys| && (xs + ys)[..|xs|] == xs && (xs + ys)[|xs|..] == ys
  {
  }

  lemma {:induction false} AtEnd(was: seq<Slot>, slots: seq<Slot>, now: nat)
    requires Halfway(was, slots, |slots|, now)
    ensures slots == Purge(was, now)
  {
    assert slots[|slots|..] == [] && slots[..|slots|] == slots;
  }

  lemma {:induction false} PurgeFirst(slots: seq<Slot>, now: nat)
    requires slots != []
    ensures Purge(slots, now) == (if slots[0].expiresAt > now then [slots[0]] else []) + Purge(slots[1..], now)
  {
    var n := |slots| - 1;
    if n > 0 {
      PurgeFirst(slots[..n], now);
      assert slots[..n][1..] == slots[1..][..n - 1];
    }
  }

  /** The new entry is there; of the others those that have not expired, except that a full cache may lose one. */
  ghost predicate Stored(before: seq<Slot>, after: seq<Slot>, s: Slot, now: nat) {
    && s in after && |after| <= 500 && DistinctKeys(after)
    && (forall t :: t in after ==> t == s || (t in before && t.key != s.key && now < t.expiresAt))
    && (forall t, u | t in before && t.key != s.key && now < t.expiresAt && t !in after &&
                      u in before && u.key != s.key && now < u.expiresAt && u !in after :: t == u)
  }

  lemma {:induction false} StoreIs(slots: seq<Slot>, s: Slot, now: nat)
    requires DistinctKeys(slots) && |slots| <= MAX_CACHED
    ensures Stored(slots, Store(slots, s, now), s, now)
  {
    StoreBounded(slots, s, now);
  }

  lemma {:induction false} OnlySlot(slots: seq<Slot>, key: string)
    requires DistinctKeys(slots)
    ensures forall s :: s in slots && s.key == key ==> Get(slots, key) == Some(s)
  {
    forall s | s in slots && s.key == key ensures Get(slots, key) == Some(s) {
      var i :| 0 <= i < |slots| && slots[i] == s;
      assert Has(slots, key);
      var g := Get(slots, key).value;
      var j :| 0 <= j < |slots| && slots[j] == g;
      assert !(i < j) && !(j < i);
    }
  }

  class ProfileCache {
    var clock: nat
    var profiles: seq<Slot>
    var inFlight: map<string, nat>
    // outside the service: the fetches it started, and the calls it serves
    var requests: seq<Request>
    var calls: seq<Call>
    const hash: string -> string

    ghost function Snapshot(): World
      reads this
    {
      World(clock, profiles, inFlight, requests, calls)
    }

    constructor (hash: string -> string)
      ensures Snapshot() == Initial && this.hash == hash && Sound(Snapshot(), hash)
    {
      clock, profiles, inFlight, requests, calls := 0, [], map[], [], [];
      this.hash := hash;
    }

    /** The loop over the map that deletes expired entries as it goes. */
    method PurgeExpired()
      modifies this`profiles
      ensures profiles == Purge(old(profiles), clock)
    {
      var i := 0;
      AtStart(profiles, clock);
      while i < |profiles|
        invariant Halfway(old(profiles), profiles, i, clock)
        decreases |profiles| - i
      {
        if profiles[i].expiresAt <= clock {
          DropOne(old(profiles), profiles, i, clock);
          profiles := profiles[..i] + profiles[i + 1..];
        } else {
          KeepOne(old(profiles), profiles, i, clock);
          i := i + 1;
        }
      }
      AtEnd(old(profiles), profiles, clock);
    }

    /** getUserProfile up to its await. */
    method BeginCall(token: string, subject: string) returns (reply: Reply)
      modifies this`profiles, this`inFlight, this`requests, this`calls
      ensures Snapshot() == Begin(old(Snapshot()), hash, token, subject)
      ensures reply.Answer? <==> Cached(old(Snapshot()), hash(token)).Some?
      ensures reply.Answer? ==> calls == old(calls) + [Answered(token, subject, reply.answer)]
      ensures reply.Await? ==> calls == old(calls) + [Waiting(token, subject, reply.request)]
      ensures DistinctKeys(old(profiles)) ==>
                forall s :: s in old(profiles) && s.key == hash(token) && clock < s.expiresAt ==>
                  && reply == Answer(if s.profile.sub == subject then Ok(s.profile) else Err(SubjectMismatch))
                  && profiles == old(profiles) && inFlight == old(inFlight) && requests == old(requests)
      ensures reply.Answer? ==> exists s :: s in old(profiles) && s.key == hash(token) && clock < s.expiresAt
      ensures reply.Await? ==>
                && hash(token) in inFlight && inFlight[hash(token)] == reply.request
                && (forall s :: s in profiles <==> s in old(profiles) && s.key != hash(token))
                && (if hash(token) in old(inFlight) then inFlight == old(inFlight) && requests == old(requests)
                    else inFlight == old(inFlight)[hash(token) := |old(requests)|] && requests == old(requests) + [Request(token, None)])
    {
      var key := hash(token);
      var cached := Get(profiles, key);
      if DistinctKeys(profiles) {
        OnlySlot(profiles, key);
      }
      if cached.Some? && cached.value.expiresAt > clock {
        reply := Answer(Judged(cached.value.profile, subject));
        calls := calls + [Answered(token, subject, reply.answer)];
        return;
      }
      profiles := Delete(profiles, key);
      if key !in inFlight {
        inFlight := inFlight[key := |requests|];
        requests := requests + [Request(token, None)];
      }
      reply := Await(inFlight[key]);
      calls := calls + [Waiting(token, subject, reply.request)];
    }

    /** getUserProfile from its await on, finally block included. */
    method ResumeCall(p: nat) returns (answer: Result<Profile, Refusal>)
      requires CanResume(Snapshot(), p)
      modifies this`profiles, this`inFlight, this`calls
      ensures Snapshot() == Resume(old(Snapshot()), hash, p)
      ensures answer == AnswerTo(old(Snapshot()), p)
      ensures answer.Ok? ==> answer.value.sub == old(calls)[p].subject
      ensures var call := old(calls)[p]; var outcome := requests[call.request].outcome.value;
              && answer == (match outcome
                            case Ok(profile) => if profile.sub == call.subject then Ok(profile) else Err(SubjectMismatch)
                            case Err(e) => Err(e))
              && calls == old(calls)[p := Answered(call.token, call.subject, answer)]
              && inFlight == (if hash(call.token) in old(inFlight) && old(inFlight)[hash(call.token)] == call.request
                              then old(inFlight) - {hash(call.token)} else old(inFlight))
              && (answer.Err? ==> profiles == old(profiles))
              && (answer.Ok? && DistinctKeys(old(profiles)) && |old(profiles)| <= 500 ==>
                    Stored(old(profiles), profiles, Slot(hash(call.token), answer.value, clock + 60_000), clock))
    {
      var call := calls[p];
      var key := hash(call.token);
      var outcome := requests[call.request].outcome.value;
      answer := if outcome.Err? then outcome else Judged(outcome.value, call.subject);
      if answer.Ok? {
        StoreProfile(Slot(key, answer.value, clock + TTL_MS));
      }
      calls := calls[p := Answered(call.token, call.subject, answer)];
      ReleaseRequest(key, call.request);
    }

    /** The finally block. */
    method ReleaseRequest(key: string, request: nat)
      modifies this`inFlight
      ensures inFlight == Release(old(inFlight), key, request)
    {
      if key in inFlight && inFlight[key] == request {
        inFlight := inFlight - {key};
      }
    }

    /** Purge, make room, set. */
    method StoreProfile(s: Slot)
      modifies this`profiles
      ensures profiles == Store(old(profiles), s, clock)
      ensures DistinctKeys(old(profiles)) && |old(profiles)| <= 500 ==> Stored(old(profiles), profiles, s, clock)
    {
      if DistinctKeys(profiles) && |profiles| <= 500 {
        StoreIs(profiles, s, clock);
      }
      PurgeExpired();
      if !Has(profiles, s.key) && |profiles| >= MAX_CACHED {
        profiles := Delete(profiles, profiles[0].key);
      }
      profiles := Set(profiles, s);
    }
  }
}
