/**
 Idempotency keys: a client that inserts the record owns the request; everyone else replays the stored
 response or is turned away. Clients interleave freely, may crash, and cleanup may delete any records.
 */
module Idempotency {
  import opened Options

  const MAX_KEY_LENGTH := 255

  /** The scope and the key of a request. */
  type Key = (string, string)

  /** `status` and `body` are empty until the request is finalized; a JSON null body reads back as empty. */
  datatype Record = Record(id: int, hash: string, status: Option<int>, body: Option<string>)

  datatype Outcome =
    | Unprotected
    | Owns(id: int)
    | Replays(status: int, body: string)
    | DifferentRequest
    | StillProcessing
    | InvalidKey
    | LostRace

  // ----- Keys -----------------------------------------------------------------------------------------

  /** Python's white space. */
  predicate IsSpace(c: char) {
    || '\t' <= c <= '\r' || '\U{1c}' <= c <= '\U{20}' || c == '\U{85}' || c == '\U{a0}' || c == '\U{1680}'
    || '\U{2000}' <= c <= '\U{200a}' || c == '\U{2028}' || c == '\U{2029}' || c == '\U{202f}' || c == '\U{205f}'
    || c == '\U{3000}'
  }

  function Strip(s: string): string {
    if s == [] then s
    else if IsSpace(s[0]) then Strip(s[1..])
    else if IsSpace(s[|s| - 1]) then Strip(s[..|s| - 1])
    else s
  }

  predicate AllSpace(s: string) {
    forall i :: 0 <= i < |s| ==> IsSpace(s[i])
  }

  /** The key a client's header stands for, if it gives one. */
  function NormalizeKey(value: Option<string>): Option<string> {
    if value.None? || Strip(value.value) == "" then None else Some(Strip(value.value))
  }

  /** Neither end is white space. */
  predicate Trimmed(s: string) {
    s == "" || (!IsSpace(s[0]) && !IsSpace(s[|s| - 1]))
  }

  /** Stripping removes exactly the white space at both ends. */
  lemma {:induction false} StripExact(s: string) returns (left: string, right: string)
    ensures s == left + Strip(s) + right && AllSpace(left) && AllSpace(right) && Trimmed(Strip(s))
  {
    left, right := "", "";
    if s == [] {
    } else if IsSpace(s[0]) {
      left, right := StripExact(s[1..]);
      assert s == [s[0]] + s[1..];
      PadBefore(s[0], left, Strip(s[1..]), right);
      left := [s[0]] + left;
    } else if IsSpace(s[|s| - 1]) {
      left, right := StripExact(s[..|s| - 1]);
      assert s == s[..|s| - 1] + [s[|s| - 1]];
      PadAfter(s[|s| - 1], left, Strip(s[..|s| - 1]), right);
      right := right + [s[|s| - 1]];
    }
  }

  lemma PadBefore(c: char, left: string, middle: string, right: string)
    requires IsSpace(c) && AllSpace(left)
    ensures [c] + (left + middle + right) == ([c] + left) + middle + right && AllSpace([c] + left)
  {
  }

  lemma PadAfter(c: char, left: string, middle: string, right: string)
    requires IsSpace(c) && AllSpace(right)
    ensures (left + middle + right) + [c] == left + middle + (right + [c]) && AllSpace(right + [c])
  {
  }

  /** Blanks, tabs and line breaks are white space; visible ASCII is not. */
  lemma HeaderSpaces(c: char)
    ensures c == ' ' || c == '\t' || c == '\n' || c == '\r' ==> IsSpace(c)
    ensures '!' <= c <= '~' ==> !IsSpace(c)
  {
  }

  /** White space around a key makes no difference. */
  lemma {:induction false} PaddingIsIgnored(left: string, s: string, right: string)
    requires AllSpace(left) && AllSpace(right) && Trimmed(s)
    ensures Strip(left + s + right) == s
    decreases |left| + |right|
  {
    var all := left + s + right;
    if left != [] {
      assert all[1..] == left[1..] + s + right;
      PaddingIsIgnored(left[1..], s, right);
    } else if right != [] {
      var n := |right| - 1;
      assert all[..|all| - 1] == left + s + right[..n];
      PaddingIsIgnored(left, s, right[..n]);
      if s == "" {
        assert all == right && IsSpace(all[0]);
        StripSpaces(right);
      } else {
        assert all[0] == s[0] && all[|all| - 1] == right[n];
      }
    } else {
      assert all == s;
    }
  }

  lemma {:induction false} StripSpaces(s: string)
    requires AllSpace(s)
    ensures Strip(s) == ""
  {
    if s != [] {
      StripSpaces(s[1..]);
    }
  }

  /** What an existing record means for a request with the given hash. */
  function Resolve(existing: Record, hash: string): Outcome {
    if existing.hash != hash then DifferentRequest
    else if existing.status.None? || existing.body.None? then StillProcessing
    else Replays(existing.status.value, existing.body.value)
  }

  /** What a client may be told of a record: a conflict, that it is in progress, or the stored answer. */
  predicate Learns(r: Outcome, existing: Record, hash: string) {
    && (existing.hash != hash ==> r == DifferentRequest)
    && (existing.hash == hash && (existing.status.None? || existing.body.None?) ==> r == StillProcessing)
    && (existing.hash == hash && existing.status.Some? && existing.body.Some? ==>
          r == Replays(existing.status.value, existing.body.value))
  }

  class IdempotencyService {
    var records: map<Key, Record>
    var nextId: int

    ghost predicate Valid()
      reads this
    {
      && (forall k :: k in records ==> records[k].id < nextId)
      && (forall j, k :: j in records && k in records && j != k ==> records[j].id != records[k].id)
    }

    constructor ()
      ensures Valid() && records == map[]
    {
      records, nextId := map[], 0;
    }

    /**
     Starts a request. `rival` is what a concurrent client committed for the key between the lookup and
     the insert, if anything; the unique constraint then rejects the insert.
     */
    method StartRequest(scope: string, key: Option<string>, hash: string, rival: Option<Record>) returns (r: Outcome)
      requires Valid()
      requires rival.Some? ==> rival.value.id >= nextId
      modifies this
      ensures Valid()
      ensures NormalizeKey(key).None? ==> r == Unprotected && records == old(records)
      ensures NormalizeKey(key).Some? && |NormalizeKey(key).value| > 255 ==>
                r == InvalidKey && records == old(records)
      ensures NormalizeKey(key).Some? && |NormalizeKey(key).value| <= 255 ==>
                var k := (scope, NormalizeKey(key).value);
                if k in old(records) then Learns(r, old(records)[k], hash) && records == old(records)
                else if rival.Some? then Learns(r, rival.value, hash) && records == old(records)[k := rival.value]
                else r.Owns? && records == old(records)[k := Record(r.id, hash, None, None)]
    {
      if key.None? {
        return Unprotected;
      }
      var normalized := Strip(key.value);
      if normalized == "" {
        return Unprotected;
      }
      if |normalized| > MAX_KEY_LENGTH {
        return InvalidKey;
      }
      var k := (scope, normalized);
      if k in records {
        return Resolve(records[k], hash);
      }
      if rival.Some? {
        records := records[k := rival.value];
        nextId := rival.value.id + 1;
      }
      if k in records {
        return Resolve(records[k], hash);
      }
      records := records[k := Record(nextId, hash, None, None)];
      nextId := nextId + 1;
      return Owns(nextId - 1);
    }

    method FinalizeSuccess(k: Key, id: int, status: int, body: Option<string>) returns (ok: bool)
      requires Valid()
      modifies this`records
      ensures Valid()
      ensures ok <==> k in old(records) && old(records)[k].id == id
      ensures records == if ok then old(records)[k := old(records)[k].(status := Some(status), body := body)]
              else old(records)
    {
      ok := k in records && records[k].id == id;
      if ok {
        records := records[k := records[k].(status := Some(status), body := body)];
      }
    }

    method Abort(k: Key, id: int)
      requires Valid()
      modifies this`records
      ensures Valid()
      ensures records == if k in old(records) && old(records)[k].id == id then old(records) - {k} else old(records)
    {
      if k in records && records[k].id == id {
        records := records - {k};
      }
    }
  }

  // ----- Interleaved clients ------------------------------------------------------------------------

  datatype Client =
    | Missed(key: Key, hash: string)
    | Rejected(key: Key, hash: string)
    | Owner(key: Key, id: int)
    | Done(outcome: Outcome)

  datatype System = System(records: map<Key, Record>, nextId: int, clients: map<int, Client>)

  datatype Action =
    | Look(c: int, key: Key, hash: string)
    | Insert(c: int)
    | LookAgain(c: int)
    | Finalize(c: int, status: int, body: Option<string>)
    | GiveUp(c: int)
    | Crash(c: int)
    | Cleanup(expired: set<Key>)

  function Becomes(s: System, c: int, client: Client): System {
    s.(clients := s.clients[c := client])
  }

  /** One committed step of one client, or a cleanup. A client starts anew with `Look` when it is not busy. */
  function Next(s: System, a: Action): System {
    match a
    case Look(c, key, hash) =>
      if c in s.clients && !s.clients[c].Done? then s
      else if key in s.records then Becomes(s, c, Done(Resolve(s.records[key], hash)))
      else Becomes(s, c, Missed(key, hash))
    case Insert(c) =>
      if c !in s.clients || !s.clients[c].Missed? then s
      else
        var client := s.clients[c];
        if client.key in s.records then Becomes(s, c, Rejected(client.key, client.hash))
        else
          Becomes(s, c, Owner(client.key, s.nextId))
            .(records := s.records[client.key := Record(s.nextId, client.hash, None, None)], nextId := s.nextId + 1)
    case LookAgain(c) =>
      if c !in s.clients || !s.clients[c].Rejected? then s
      else
        var client := s.clients[c];
        Becomes(s, c, Done(if client.key in s.records then Resolve(s.records[client.key], client.hash) else LostRace))
    case Finalize(c, status, body) =>
      if c !in s.clients || !s.clients[c].Owner? then s
      else
        var client := s.clients[c];
        if Live(s, client)
        then Becomes(s, c, Done(Owns(client.id)))
               .(records := s.records[client.key := s.records[client.key].(status := Some(status), body := body)])
        else Becomes(s, c, Done(LostRace))
    case GiveUp(c) =>
      if c !in s.clients || !s.clients[c].Owner? then s
      else
        var client := s.clients[c];
        Becomes(s, c, Done(Unprotected)).(records := if Live(s, client) then s.records - {client.key} else s.records)
    case Crash(c) => s.(clients := s.clients - {c})
    case Cleanup(expired) => s.(records := s.records - expired)
  }

  function Run(s: System, actions: seq<Action>): System
    decreases |actions|
  {
    if actions == [] then s else Next(Run(s, actions[..|actions| - 1]), actions[|actions| - 1])
  }

  const Empty := System(map[], 0, map[])

  /** The client owns a record that still exists. */
  predicate Live(s: System, client: Client) {
    client.Owner? && client.key in s.records && s.records[client.key].id == client.id
  }

  ghost predicate Sound(s: System) {
    && (forall k :: k in s.records ==> s.records[k].id < s.nextId)
    && (forall c :: c in s.clients && s.clients[c].Owner? ==> s.clients[c].id < s.nextId)
    && (forall c, d :: c in s.clients && d in s.clients && c != d && s.clients[c].Owner? && s.clients[d].Owner?
                       ==> s.clients[c].id != s.clients[d].id)
    && (forall c :: c in s.clients && Live(s, s.clients[c]) ==> s.records[s.clients[c].key].status.None?)
  }

  lemma NextKeeps(s: System, a: Action)
    requires Sound(s)
    ensures Sound(Next(s, a))
  {
    match a
    case Insert(c) => InsertKeeps(s, c);
    case Finalize(c, status, body) => FinalizeKeeps(s, c, status, body);
    case GiveUp(c) => DroppingKeeps(s, c, {});
    case Crash(c) => DroppingKeeps(s, c, {});
    case Cleanup(expired) => DroppingKeeps(s, 0, expired);
    case Look(c, key, hash) => LooksKeep(s, c, key, hash);
    case LookAgain(c) => LooksKeep(s, c, ("", ""), "");
  }

  lemma DroppingKeeps(s: System, c: int, expired: set<Key>)
    requires Sound(s)
    ensures Sound(Next(s, GiveUp(c))) && Sound(Next(s, Crash(c))) && Sound(Next(s, Cleanup(expired)))
  {
  }

  lemma LooksKeep(s: System, c: int, key: Key, hash: string)
    requires Sound(s)
    ensures Sound(Next(s, Look(c, key, hash))) && Sound(Next(s, LookAgain(c)))
  {
  }

  lemma InsertKeeps(s: System, c: int)
    requires Sound(s)
    ensures Sound(Next(s, Insert(c)))
  {
  }

  lemma FinalizeKeeps(s: System, c: int, status: int, body: Option<string>)
    requires Sound(s)
    ensures Sound(Next(s, Finalize(c, status, body)))
  {
  }

  lemma {:induction false} RunKeeps(s: System, actions: seq<Action>)
    requires Sound(s)
    ensures Sound(Run(s, actions))
    decreases |actions|
  {
    if actions != [] {
      RunKeeps(s, actions[..|actions| - 1]);
      NextKeeps(Run(s, actions[..|actions| - 1]), actions[|actions| - 1]);
    }
  }

  /** At any moment of any run at most one client owns the live record of a key. */
  lemma OneLiveOwner(actions: seq<Action>, c: int, d: int)
    requires var s := Run(Empty, actions);
             && c in s.clients && d in s.clients && Live(s, s.clients[c]) && Live(s, s.clients[d])
             && s.clients[c].key == s.clients[d].key
    ensures c == d
  {
    RunKeeps(Empty, actions);
  }

  /** Nobody owns the record, so nobody will change it. */
  ghost predicate Settled(s: System, key: Key, record: Record) {
    && key in s.records && s.records[key] == record
    && forall c :: c in s.clients && s.clients[c].Owner? ==> s.clients[c].id != record.id
  }

  predicate SparesKey(a: Action, key: Key) {
    a.Cleanup? ==> key !in a.expired
  }

  lemma SettledStays(s: System, key: Key, record: Record, a: Action)
    requires Sound(s) && Settled(s, key, record) && SparesKey(a, key)
    ensures Settled(Next(s, a), key, record)
  {
  }

  lemma {:induction false} SettledForever(s: System, key: Key, record: Record, actions: seq<Action>)
    requires Sound(s) && Settled(s, key, record)
    requires forall i :: 0 <= i < |actions| ==> SparesKey(actions[i], key)
    ensures Sound(Run(s, actions)) && Settled(Run(s, actions), key, record)
    decreases |actions|
  {
    if actions != [] {
      SettledForever(s, key, record, actions[..|actions| - 1]);
      NextKeeps(Run(s, actions[..|actions| - 1]), actions[|actions| - 1]);
      SettledStays(Run(s, actions[..|actions| - 1]), key, record, actions[|actions| - 1]);
    }
  }

  /**
   Once the live owner finalizes, every later start on the key, until cleanup deletes it, gets the same
   answer: with the same hash exactly the stored status and body, with another hash a conflict. A null
   body is the exception: it is never replayed, and the key stays in progress.
   */
  lemma FinalizedReplays(actions: seq<Action>, c: int, status: int, body: Option<string>, later: seq<Action>, d: int,
      hash: string)
    requires c in Run(Empty, actions).clients && Live(Run(Empty, actions), Run(Empty, actions).clients[c])
    requires var key := Run(Empty, actions).clients[c].key;
             forall i :: 0 <= i < |later| ==> SparesKey(later[i], key)
    requires var t := Run(Next(Run(Empty, actions), Finalize(c, status, body)), later);
             d in t.clients ==> t.clients[d].Done?
    ensures var s := Run(Empty, actions);
            var key, first := s.clients[c].key, s.records[s.clients[c].key].hash;
            var t := Run(Next(s, Finalize(c, status, body)), later);
            Next(t, Look(d, key, hash)).clients[d] ==
            Done(if hash != first then DifferentRequest
                 else if body.None? then StillProcessing
                 else Replays(status, body.value))
  {
    var s := Run(Empty, actions);
    RunKeeps(Empty, actions);
    var key := s.clients[c].key;
    var after := Next(s, Finalize(c, status, body));
    NextKeeps(s, Finalize(c, status, body));
    SettledForever(after, key, after.records[key], later);
  }

  /** The record of a live owner is in progress: whoever looks it up is turned away. */
  lemma OwnedIsInProgress(actions: seq<Action>, c: int, d: int, hash: string)
    requires var s := Run(Empty, actions);
             && c in s.clients && Live(s, s.clients[c]) && c != d && (d in s.clients ==> s.clients[d].Done?)
    ensures var s := Run(Empty, actions);
            var key := s.clients[c].key;
            var t := Next(s, Look(d, key, hash));
            && t.clients[d] == Done(if hash == s.records[key].hash then StillProcessing else DifferentRequest)
            && t.records == s.records && t.clients[c] == s.clients[c]
  {
    RunKeeps(Empty, actions);
  }

  /** So is a client that had looked before the owner inserted: its own insert loses, and then it is told the same. */
  lemma LateInsertIsTurnedAway(actions: seq<Action>, c: int, d: int)
    requires var s := Run(Empty, actions);
             && c in s.clients && Live(s, s.clients[c]) && d in s.clients && s.clients[d].Missed?
             && s.clients[d].key == s.clients[c].key
    ensures var s := Run(Empty, actions);
            var record := s.records[s.clients[c].key];
            var t := Next(Next(s, Insert(d)), LookAgain(d));
            && t.clients[d] == Done(if s.clients[d].hash == record.hash then StillProcessing else DifferentRequest)
            && t.records == s.records && t.clients[c] == s.clients[c]
  {
    RunKeeps(Empty, actions);
  }

  /** A key without a record is owned by the first client that inserts it, whatever looked it up in between. */
  lemma FreeKeyIsOwned(s: System, d: int)
    requires d in s.clients && s.clients[d].Missed? && s.clients[d].key !in s.records
    ensures var key, t := s.clients[d].key, Next(s, Insert(d));
            && t.clients[d] == Owner(key, s.nextId) && Live(t, t.clients[d])
            && t.records == s.records[key := Record(s.nextId, s.clients[d].hash, None, None)]
  {
  }

  /** An owner that gives up frees its key: the next client that starts on it owns it. */
  lemma GivenUpIsFree(actions: seq<Action>, c: int, d: int, hash: string)
    requires var s := Run(Empty, actions);
             && c in s.clients && Live(s, s.clients[c]) && c != d && (d in s.clients ==> s.clients[d].Done?)
    ensures var s := Run(Empty, actions);
            var key := s.clients[c].key;
            var t := Next(Next(Next(s, GiveUp(c)), Look(d, key, hash)), Insert(d));
            t.clients[d].Owner? && t.clients[d].key == key && Live(t, t.clients[d])
  {
    var s := Run(Empty, actions);
    var key := s.clients[c].key;
    var u := Next(Next(s, GiveUp(c)), Look(d, key, hash));
    assert u.clients[d] == Missed(key, hash) && key !in u.records;
    FreeKeyIsOwned(u, d);
  }

  /**
   An owner that crashes leaves its key in progress: every later start on it, until cleanup deletes it, is turned away.
   */
  lemma CrashedKeyStaysInProgress(actions: seq<Action>, c: int, later: seq<Action>, d: int, hash: string)
    requires c in Run(Empty, actions).clients && Live(Run(Empty, actions), Run(Empty, actions).clients[c])
    requires var key := Run(Empty, actions).clients[c].key;
             forall i :: 0 <= i < |later| ==> SparesKey(later[i], key)
    requires var t := Run(Next(Run(Empty, actions), Crash(c)), later); d in t.clients ==> t.clients[d].Done?
    ensures var s := Run(Empty, actions);
            var key, record := s.clients[c].key, s.records[s.clients[c].key];
            var t := Run(Next(s, Crash(c)), later);
            Next(t, Look(d, key, hash)).clients[d] == Done(if hash == record.hash then StillProcessing
                                                           else DifferentRequest)
  {
    var s := Run(Empty, actions);
    RunKeeps(Empty, actions);
    CrashSettles(s, c);
    NextKeeps(s, Crash(c));
    SettledForever(Next(s, Crash(c)), s.clients[c].key, s.records[s.clients[c].key], later);
    SettledIsLearned(Run(Next(s, Crash(c)), later), s.clients[c].key, s.records[s.clients[c].key], d, hash);
  }

  lemma CrashSettles(s: System, c: int)
    requires Sound(s) && c in s.clients && Live(s, s.clients[c])
    ensures var key := s.clients[c].key;
            Settled(Next(s, Crash(c)), key, s.records[key]) && s.records[key].status.None?
  {
  }

  lemma SettledIsLearned(s: System, key: Key, record: Record, d: int, hash: string)
    requires Settled(s, key, record) && record.status.None? && (d in s.clients ==> s.clients[d].Done?)
    ensures Next(s, Look(d, key, hash)).clients[d]
            == Done(if hash == record.hash then StillProcessing else DifferentRequest)
  {
  }

  /** Cleanup frees exactly the expired keys. */
  lemma CleanupFrees(s: System, expired: set<Key>, d: int, key: Key, hash: string)
    requires d in s.clients ==> s.clients[d].Done?
    ensures var t := Next(s, Cleanup(expired));
            && t.clients == s.clients && (forall k :: k in t.records <==> k in s.records && k !in expired)
            && (forall k :: k in t.records ==> t.records[k] == s.records[k])
            && (key in expired ==> Next(Next(t, Look(d, key, hash)), Insert(d)).clients[d] == Owner(key, s.nextId))
  {
    var t := Next(s, Cleanup(expired));
    if key in expired {
      assert Next(t, Look(d, key, hash)).clients[d] == Missed(key, hash);
      FreeKeyIsOwned(Next(t, Look(d, key, hash)), d);
    }
  }

  /** An owner whose record is still its own is answered by it and no one else: finalizing stores exactly the answer. */
  lemma FinalizeStores(actions: seq<Action>, c: int, status: int, body: Option<string>)
    requires c in Run(Empty, actions).clients && Live(Run(Empty, actions), Run(Empty, actions).clients[c])
    ensures var s, t := Run(Empty, actions), Next(Run(Empty, actions), Finalize(c, status, body));
            var client := s.clients[c];
            && t.records == s.records[client.key := Record(client.id, s.records[client.key].hash, Some(status), body)]
            && t.clients[c] == Done(Owns(client.id))
  {
  }

  /** A client that lost the race for a settled key learns the same as one that looks it up. */
  lemma RejectedLearnsTheSame(s: System, key: Key, record: Record, c: int, hash: string)
    requires Settled(s, key, record) && c in s.clients && s.clients[c] == Missed(key, hash)
    ensures Next(Next(s, Insert(c)), LookAgain(c)).clients[c] == Done(Resolve(record, hash))
  {
  }
}
