/** Participants packets: which drivers have a confirmed row in the entries table. */
module Roster {
  import opened Options
  import opened Recency
  import opened BoundedCollections
  import opened FrameBufferModel
  import opened FrameTables

  const ROSTERS: nat := 200
  const EMPTY_SLOT_TEAM: nat := 65535

  /** One slot of the packet; `name` is the driver name to be recorded. */
  datatype Participant = Participant(aiControlled: bool, team: nat, raceNumber: nat, name: string,
          telemetryPublic: bool)

  datatype Packet = Packet(uid: SessionUid, playerCar: nat, participants: seq<Participant>)

  datatype Entrant = Entrant(car: nat, name: string)

  datatype EntryKey = EntryKey(uid: SessionUid, car: nat)

  /** `telemetry.entries`: its driver per session and car. */
  type Entries = map<EntryKey, UserId>

  type UserMap = map<nat, UserId>

  datatype State = State(
    restricted: Dict<SessionUid, set<nat>>,
    written: Dict<SessionUid, set<nat>>,
    users: Dict<SessionUid, UserMap>,
    entries: Entries)

  /** How the database answers: the names it resolves to users, and whether the entries write goes through. */
  datatype Reply = Reply(resolved: map<string, UserId>, writeOk: bool)

  predicate IsHuman(p: Participant) {
    !p.aiControlled && !(p.team == EMPTY_SLOT_TEAM && p.raceNumber == 0)
  }

  function HumansFrom(ps: seq<Participant>, car: nat): seq<Entrant>
    requires car <= |ps|
    decreases |ps| - car
  {
    if car == |ps| then []
    else (if IsHuman(ps[car]) then [Entrant(car, ps[car].name)] else []) + HumansFrom(ps, car + 1)
  }

  function Humans(ps: seq<Participant>): set<nat> {
    set car | 0 <= car < |ps| && IsHuman(ps[car])
  }

  function NotIn(es: seq<Entrant>, cars: set<nat>): seq<Entrant> {
    if es == [] then []
    else (if es[0].car !in cars then [es[0]] else []) + NotIn(es[1..], cars)
  }

  // ---------------------------------------------------------------------------------------------
  // The entries write
  // ---------------------------------------------------------------------------------------------

  /** Another car of the session already has the user: the primary key (session, user) would be violated. */
  predicate Taken(t: Entries, k: EntryKey, user: UserId) {
    exists k' | k' in t :: k'.uid == k.uid && k'.car != k.car && t[k'] == user
  }

  /** The upserts of one batch, in order; `None` when one of them fails and the whole batch is rolled back. */
  function UpsertEntries(t: Entries, uid: SessionUid, es: seq<Entrant>, resolved: map<string, UserId>): Option<Entries>
    decreases es
  {
    if es == [] then Some(t)
    else if es[0].name !in resolved then UpsertEntries(t, uid, es[1..], resolved)
    else
      var k, user := EntryKey(uid, es[0].car), resolved[es[0].name];
      if Taken(t, k, user) then None else UpsertEntries(t[k := user], uid, es[1..], resolved)
  }

  /** The mappings a batch asks for: the cars whose driver name was resolved. */
  function Mappings(es: seq<Entrant>, resolved: map<string, UserId>): UserMap {
    if es == [] then map[]
    else
      var rest := Mappings(es[1..], resolved);
      if es[0].name in resolved && es[0].car !in rest then rest[es[0].car := resolved[es[0].name]] else rest
  }

  datatype Inserted = Inserted(entries: Entries, mappings: UserMap)

  /** `insert_entries_batch`: the mappings returned are those of rows the database confirmed. */
  function InsertEntries(t: Entries, uid: SessionUid, es: seq<Entrant>, reply: Reply): Inserted {
    var t' := UpsertEntries(t, uid, es, reply.resolved);
    if reply.writeOk && t'.Some? then Inserted(t'.value, Mappings(es, reply.resolved)) else Inserted(t, map[])
  }

  // ---------------------------------------------------------------------------------------------
  // A packet
  // ---------------------------------------------------------------------------------------------

  function UserMapOf(s: State, uid: SessionUid): UserMap {
    Lookup(s.users.vals, uid).GetOr(map[])
  }

  function WrittenOf(s: State, uid: SessionUid): set<nat> {
    Lookup(s.written.vals, uid).GetOr({})
  }

  /** The drivers a packet offers to the entries table. */
  function Offered(s: State, uid: SessionUid, ps: seq<Participant>): seq<Entrant> {
    if Humans(ps) == WrittenOf(s, uid) then [] else NotIn(HumansFrom(ps, 0), WrittenOf(s, uid))
  }

  /** The cars whose drivers hide their telemetry, except the player's own car. */
  function Restricted(p: Packet): set<nat> {
    (set car | 0 <= car < |p.participants| && !p.participants[car].telemetryPublic) - {p.playerCar}
  }

  function Remember(s: State, uid: SessionUid, mappings: UserMap, t: Entries): State {
    s.(written := SetItem(s.written, ROSTERS, uid, WrittenOf(s, uid) + mappings.Keys),
       users := SetItem(s.users, ROSTERS, uid, UserMapOf(s, uid) + mappings),
       entries := t)
  }

  /** The roster part of a packet: offer the unrecorded drivers, and remember those the database confirmed. */
  function Record(s: State, uid: SessionUid, ps: seq<Participant>, reply: Reply): State {
    var unrecorded := Offered(s, uid, ps);
    if unrecorded == [] then s
    else
      var o := InsertEntries(s.entries, uid, unrecorded, reply);
      if o.mappings == map[] then s.(entries := o.entries)
      else Remember(s, uid, o.mappings, o.entries)
  }

  function Handle(s: State, p: Packet, reply: Reply): State {
    Record(s.(restricted := SetItem(s.restricted, ROSTERS, p.uid, Restricted(p))), p.uid, p.participants, reply)
  }

  // ---------------------------------------------------------------------------------------------
  // What every packet keeps
  // ---------------------------------------------------------------------------------------------

  ghost predicate Confirmed(t: Entries, uid: SessionUid, users: UserMap) {
    forall c :: c in users ==> Lookup(t, EntryKey(uid, c)) == Some(users[c])
  }

  /** Within a session no user drives two cars. */
  ghost predicate OneCarPerUser(t: Entries) {
    forall k, k' :: k in t && k' in t && k.uid == k'.uid && t[k] == t[k'] ==> k.car == k'.car
  }

  /** The two caches hold the same sessions in the same order, and each map's cars are the written set. */
  ghost predicate Lockstep(s: State) {
    && WellFormed(s.written) && WellFormed(s.users) && |s.users.order| <= ROSTERS
    && s.written.order == s.users.order
    && forall u :: u in s.users.vals ==> u in s.written.vals && s.written.vals[u] == s.users.vals[u].Keys
  }

  ghost predicate Inv(s: State) {
    && Lockstep(s)
    && (forall u :: u in s.users.vals ==> Confirmed(s.entries, u, s.users.vals[u]))
    && OneCarPerUser(s.entries)
  }

  lemma {:induction false} NotInFacts(es: seq<Entrant>, cars: set<nat>, resolved: map<string, UserId>, c: nat)
    requires c in Mappings(NotIn(es, cars), resolved)
    ensures c !in cars
    decreases es
  {
    if es != [] {
      var rest := NotIn(es[1..], cars);
      if es[0].car !in cars {
        assert NotIn(es, cars) == [es[0]] + rest && NotIn(es, cars)[1..] == rest;
        if c in Mappings(rest, resolved) {
          NotInFacts(es[1..], cars, resolved, c);
        }
      } else {
        assert NotIn(es, cars) == rest;
        NotInFacts(es[1..], cars, resolved, c);
      }
    }
  }

  /** A batch that goes through stores exactly its mappings, and leaves every other row alone. */
  lemma {:induction false} UpsertEntriesAt(t: Entries, uid: SessionUid, es: seq<Entrant>,
          resolved: map<string, UserId>, k: EntryKey)
    requires UpsertEntries(t, uid, es, resolved).Some?
    ensures Lookup(UpsertEntries(t, uid, es, resolved).value, k)
         == (if k.uid == uid && k.car in Mappings(es, resolved) then Some(Mappings(es, resolved)[k.car])
             else Lookup(t, k))
    decreases es
  {
    if es != [] {
      if es[0].name !in resolved {
        UpsertEntriesAt(t, uid, es[1..], resolved, k);
      } else {
        UpsertEntriesAt(t[EntryKey(uid, es[0].car) := resolved[es[0].name]], uid, es[1..], resolved, k);
      }
    }
  }

  /** A batch that maps no driver writes nothing. */
  lemma {:induction false} NothingMapped(t: Entries, uid: SessionUid, es: seq<Entrant>, reply: Reply)
    requires InsertEntries(t, uid, es, reply).mappings == map[]
    ensures InsertEntries(t, uid, es, reply).entries == t
  {
    var o := InsertEntries(t, uid, es, reply);
    if reply.writeOk && UpsertEntries(t, uid, es, reply.resolved).Some? {
      forall k
        ensures Lookup(o.entries, k) == Lookup(t, k)
      {
        UpsertEntriesAt(t, uid, es, reply.resolved, k);
      }
      SameLookups(o.entries, t);
    }
  }

  lemma {:induction false} UpsertEntriesOneCar(t: Entries, uid: SessionUid, es: seq<Entrant>,
          resolved: map<string, UserId>)
    requires OneCarPerUser(t) && UpsertEntries(t, uid, es, resolved).Some?
    ensures OneCarPerUser(UpsertEntries(t, uid, es, resolved).value)
    decreases es
  {
    if es != [] {
      if es[0].name !in resolved {
        UpsertEntriesOneCar(t, uid, es[1..], resolved);
      } else {
        UpsertEntriesOneCar(t[EntryKey(uid, es[0].car) := resolved[es[0].name]], uid, es[1..], resolved);
      }
    }
  }

  lemma {:induction false} LockstepStep(s: State, uid: SessionUid, mappings: UserMap, t: Entries)
    requires Lockstep(s)
    ensures Lockstep(Remember(s, uid, mappings, t))
  {
    SetItemValid(s.written, ROSTERS, uid, WrittenOf(s, uid) + mappings.Keys);
    SetItemValid(s.users, ROSTERS, uid, UserMapOf(s, uid) + mappings);
    assert uid in s.written.vals <==> uid in Members(s.users.order);
  }

  lemma {:induction false} ConfirmedAfter(t: Entries, t': Entries, uid: SessionUid, mappings: UserMap, u: SessionUid,
          users: UserMap)
    requires forall k :: Lookup(t', k) == if k.uid == uid && k.car in mappings then Some(mappings[k.car])
        else Lookup(t, k)
    requires Confirmed(t, u, users) && (u == uid ==> users.Keys !! mappings.Keys)
    ensures Confirmed(t', u, users) && (u == uid ==> Confirmed(t', u, users + mappings))
  {
  }

  /** The table is the old one with the session's new mappings stored. */
  ghost predicate Adds(t: Entries, t': Entries, uid: SessionUid, mappings: UserMap) {
    forall k :: Lookup(t', k) == if k.uid == uid && k.car in mappings then Some(mappings[k.car]) else Lookup(t, k)
  }

  /** Nothing a session had before is lost or changed while the session is retained. */
  ghost predicate Retains(s: State, s': State) {
    forall u, c :: u in s'.users.vals && c in UserMapOf(s, u)
        ==> Lookup(UserMapOf(s', u), c) == Some(UserMapOf(s, u)[c])
  }

  lemma {:induction false} RememberKeeps(s: State, uid: SessionUid, mappings: UserMap, t: Entries)
    requires Inv(s) && OneCarPerUser(t) && Adds(s.entries, t, uid, mappings)
    requires WrittenOf(s, uid) !! mappings.Keys
    ensures Inv(Remember(s, uid, mappings, t)) && Retains(s, Remember(s, uid, mappings, t))
  {
    var s' := Remember(s, uid, mappings, t);
    assert WrittenOf(s, uid) == UserMapOf(s, uid).Keys by {
      assert uid in s.written.vals <==> uid in Members(s.users.order);
    }
    LockstepStep(s, uid, mappings, t);
    forall u | u in s'.users.vals
      ensures Confirmed(t, u, s'.users.vals[u])
    {
      ConfirmedAfter(s.entries, t, uid, mappings, u, UserMapOf(s, u));
    }
  }

  lemma {:induction false} InsertedEntries(t: Entries, uid: SessionUid, es: seq<Entrant>, reply: Reply)
    requires OneCarPerUser(t)
    ensures var o := InsertEntries(t, uid, es, reply);
            o.mappings != map[] ==> OneCarPerUser(o.entries) && Adds(t, o.entries, uid, o.mappings)
  {
    var o := InsertEntries(t, uid, es, reply);
    if o.mappings != map[] {
      UpsertEntriesOneCar(t, uid, es, reply.resolved);
      forall k
        ensures Lookup(o.entries, k) == if k.uid == uid && k.car in o.mappings then Some(o.mappings[k.car])
            else Lookup(t, k)
      {
        UpsertEntriesAt(t, uid, es, reply.resolved, k);
      }
    }
  }

  /** Every packet keeps the caches in lockstep and every mapping confirmed by the entries table. */
  lemma {:induction false} RecordKeeps(s: State, uid: SessionUid, ps: seq<Participant>, reply: Reply)
    requires Inv(s)
    ensures Inv(Record(s, uid, ps, reply)) && Retains(s, Record(s, uid, ps, reply))
  {
    var offered := Offered(s, uid, ps);
    var o := InsertEntries(s.entries, uid, offered, reply);
    if o.mappings == map[] {
      NothingMapped(s.entries, uid, offered, reply);
    } else if offered != [] {
      forall c | c in o.mappings
        ensures c !in WrittenOf(s, uid)
      {
        NotInFacts(HumansFrom(ps, 0), WrittenOf(s, uid), reply.resolved, c);
      }
      InsertedEntries(s.entries, uid, offered, reply);
      RememberKeeps(s, uid, o.mappings, o.entries);
    }
  }

  /** A write that fails leaves everything as it was, so the same drivers are offered again. */
  lemma {:induction false} FailedWriteRetries(s: State, uid: SessionUid, ps: seq<Participant>, reply: Reply)
    requires !reply.writeOk || UpsertEntries(s.entries, uid, Offered(s, uid, ps), reply.resolved).None?
    ensures Record(s, uid, ps, reply) == s
    ensures Offered(Record(s, uid, ps, reply), uid, ps) == Offered(s, uid, ps)
  {
  }

  lemma {:induction false} HumansFromStep(ps: seq<Participant>, car: nat, es: seq<Entrant>)
    requires car < |ps|
    ensures es + HumansFrom(ps, car)
        == (if IsHuman(ps[car]) then es + [Entrant(car, ps[car].name)] else es) + HumansFrom(ps, car + 1)
  {
  }

  lemma {:induction false} MappingsCover(es: seq<Entrant>, resolved: map<string, UserId>, i: nat)
    requires i < |es| && es[i].name in resolved
    ensures es[i].car in Mappings(es, resolved)
    decreases es
  {
    if i > 0 {
      MappingsCover(es[1..], resolved, i - 1);
    }
  }

  lemma {:induction false} NotInKeeps(es: seq<Entrant>, cars: set<nat>, i: nat) returns (j: nat)
    requires i < |es| && es[i].car !in cars
    ensures j < |NotIn(es, cars)| && NotIn(es, cars)[j] == es[i]
    decreases es
  {
    if i == 0 {
      j := 0;
    } else {
      j := NotInKeeps(es[1..], cars, i - 1);
      if es[0].car !in cars {
        j := j + 1;
      }
    }
  }

  lemma {:induction false} NotInNone(es: seq<Entrant>, cars: set<nat>)
    requires forall i :: 0 <= i < |es| ==> es[i].car in cars
    ensures NotIn(es, cars) == []
    decreases es
  {
    if es != [] {
      assert es[0].car in cars;
      NotInNone(es[1..], cars);
    }
  }

  /** A write that goes through with every name resolved records every human on track: nobody is offered again. */
  lemma {:induction false} ConfirmedWriteSettles(s: State, uid: SessionUid, ps: seq<Participant>, reply: Reply)
    requires Inv(s) && reply.writeOk && UpsertEntries(s.entries, uid, Offered(s, uid, ps), reply.resolved).Some?
    requires forall i :: 0 <= i < |Offered(s, uid, ps)| ==> Offered(s, uid, ps)[i].name in reply.resolved
    ensures Offered(Record(s, uid, ps, reply), uid, ps) == []
  {
    var offered, s' := Offered(s, uid, ps), Record(s, uid, ps, reply);
    var all := HumansFrom(ps, 0);
    if offered != [] {
      MappingsCover(offered, reply.resolved, 0);
      forall i | 0 <= i < |all|
        ensures all[i].car in WrittenOf(s', uid)
      {
        if all[i].car !in WrittenOf(s, uid) {
          var j := NotInKeeps(all, WrittenOf(s, uid), i);
          MappingsCover(offered, reply.resolved, j);
        }
      }
      NotInNone(all, WrittenOf(s', uid));
    }
  }

  // ---------------------------------------------------------------------------------------------
  // Whole runs
  // ---------------------------------------------------------------------------------------------

  ghost function Run(ps: seq<(Packet, Reply)>): State {
    if ps == [] then State(Empty(), Empty(), Empty(), map[])
    else Handle(Run(ps[..|ps| - 1]), ps[|ps| - 1].0, ps[|ps| - 1].1)
  }

  /**
   After any run of packets, whatever the database answers, the caches are in lockstep, every mapping
   is one the entries table holds, and no user drives two cars of a session.
   */
  lemma {:induction false} RosterStaysConfirmed(ps: seq<(Packet, Reply)>)
    ensures Inv(Run(ps))
    ensures forall u, c, c' :: SameUser(Run(ps), u, c, c') ==> c == c'
  {
    if ps != [] {
      var before, last := Run(ps[..|ps| - 1]), ps[|ps| - 1];
      RosterStaysConfirmed(ps[..|ps| - 1]);
      var s := before.(restricted := SetItem(before.restricted, ROSTERS, last.0.uid, Restricted(last.0)));
      RecordKeeps(s, last.0.uid, last.0.participants, last.1);
    }
    forall u, c, c' | SameUser(Run(ps), u, c, c')
      ensures c == c'
    {
      assert Lookup(Run(ps).entries, EntryKey(u, c)) == Some(UserMapOf(Run(ps), u)[c]);
      assert Lookup(Run(ps).entries, EntryKey(u, c')) == Some(UserMapOf(Run(ps), u)[c']);
    }
  }

  ghost predicate SameUser(s: State, u: SessionUid, c: nat, c': nat) {
    c in UserMapOf(s, u) && c' in UserMapOf(s, u) && UserMapOf(s, u)[c] == UserMapOf(s, u)[c']
  }

  /** At every point of a run, a confirmed mapping is never changed by a packet its session outlives in the cache. */
  lemma {:induction false} MappingIsKept(ps: seq<(Packet, Reply)>, u: SessionUid, c: nat)
    requires ps != [] && u in Run(ps).users.vals
    requires c in UserMapOf(Run(ps[..|ps| - 1]), u)
    ensures Lookup(UserMapOf(Run(ps), u), c) == Some(UserMapOf(Run(ps[..|ps| - 1]), u)[c])
  {
    var n := |ps| - 1;
    RosterStaysConfirmed(ps[..n]);
    StepKeepsMapping(Run(ps[..n]), ps[n].0, ps[n].1, u, c);
  }

  lemma {:induction false} StepKeepsMapping(s: State, p: Packet, reply: Reply, u: SessionUid, c: nat)
    requires Inv(s) && c in UserMapOf(s, u) && u in Handle(s, p, reply).users.vals
    ensures Lookup(UserMapOf(Handle(s, p, reply), u), c) == Some(UserMapOf(s, u)[c])
  {
    var s1 := s.(restricted := SetItem(s.restricted, ROSTERS, p.uid, Restricted(p)));
    RecordKeeps(s1, p.uid, p.participants, reply);
    assert UserMapOf(s1, u) == UserMapOf(s, u);
  }

  lemma {:induction false} HandleRestricted(s: State, p: Packet, reply: Reply, uid: SessionUid)
    ensures Handle(s, p, reply).restricted == SetItem(s.restricted, ROSTERS, p.uid, Restricted(p))
    ensures (if p.uid == uid then Lookup(Handle(s, p, reply).restricted.vals, uid) == Some(Restricted(p))
             else Lookup(Handle(s, p, reply).restricted.vals, uid) in {None, Lookup(s.restricted.vals, uid)})
  {
  }

  /** If the session's restricted cars are remembered, they are those of `p`. */
  ghost predicate Remembers(s: State, uid: SessionUid, p: Packet) {
    uid in s.restricted.vals ==> s.restricted.vals[uid] == Restricted(p)
  }

  lemma {:induction false} RestrictedAfter(s: State, p: Packet, reply: Reply, uid: SessionUid, q: Packet)
    requires if p.uid == uid then q == p else Remembers(s, uid, q)
    ensures Remembers(Handle(s, p, reply), uid, q)
  {
    HandleRestricted(s, p, reply, uid);
  }

  lemma {:induction false} LastPacketIsRemembered(ps: seq<(Packet, Reply)>, uid: SessionUid, i: nat)
    requires i < |ps| && ps[i].0.uid == uid
    requires forall j :: i < j < |ps| ==> ps[j].0.uid != uid
    ensures Remembers(Run(ps), uid, ps[i].0)
  {
    var earlier, last := ps[..|ps| - 1], ps[|ps| - 1];
    if i < |ps| - 1 {
      assert last.0.uid != uid;
      LastPacketIsRemembered(earlier, uid, i);
    }
    RestrictedAfter(Run(earlier), last.0, last.1, uid, ps[i].0);
  }

  /** By the packet the car's driver hides the telemetry from others, and is not the player. */
  ghost predicate IsWithheld(p: Packet, car: nat) {
    car < |p.participants| && !p.participants[car].telemetryPublic && car != p.playerCar
  }

  /** The restricted cars remembered for a session are always those its last packet withholds. */
  lemma {:induction false} RestrictedIsLastPacket(ps: seq<(Packet, Reply)>, uid: SessionUid, i: nat)
    requires i < |ps| && ps[i].0.uid == uid
    requires forall j :: i < j < |ps| ==> ps[j].0.uid != uid
    ensures uid in Run(ps).restricted.vals
        ==> forall car :: car in Run(ps).restricted.vals[uid] <==> IsWithheld(ps[i].0, car)
    ensures i == |ps| - 1 ==> uid in Run(ps).restricted.vals
  {
    LastPacketIsRemembered(ps, uid, i);
    HandleRestricted(Run(ps[..|ps| - 1]), ps[|ps| - 1].0, ps[|ps| - 1].1, uid);
  }

  // ---------------------------------------------------------------------------------------------
  // Who is mapped
  // ---------------------------------------------------------------------------------------------

  /** A person in a seat: not driven by the game, and not a lobby slot without a team and a number. */
  ghost predicate IsDriver(p: Participant) {
    !p.aiControlled && (p.team != 65535 || p.raceNumber != 0)
  }

  /** A driver not mapped so far whose name was resolved. */
  ghost predicate IsNew(ps: seq<Participant>, users: UserMap, resolved: map<string, UserId>, car: nat) {
    car < |ps| && IsDriver(ps[car]) && car !in users && ps[car].name in resolved
  }

  /** No two new drivers are one user, and none is a user recorded in another car of the session. */
  ghost predicate Unclashing(t: Entries, uid: SessionUid, ps: seq<Participant>, users: UserMap,
          resolved: map<string, UserId>) {
    && (forall c: nat, c': nat :: IsNew(ps, users, resolved, c) && IsNew(ps, users, resolved, c') && c != c'
          ==> resolved[ps[c].name] != resolved[ps[c'].name])
    && (forall c: nat, k :: IsNew(ps, users, resolved, c) && k in t && k.uid == uid && k.car != c
          ==> t[k] != resolved[ps[c].name])
  }

  lemma {:induction false} HumansFromMembers(ps: seq<Participant>, car: nat, e: Entrant)
    requires car <= |ps|
    ensures e in HumansFrom(ps, car)
       <==> car <= e.car < |ps| && IsDriver(ps[e.car]) && e.name == ps[e.car].name
    decreases |ps| - car
  {
    if car < |ps| {
      HumansFromMembers(ps, car + 1, e);
    }
  }

  lemma {:induction false} NotInMembers(es: seq<Entrant>, cars: set<nat>, e: Entrant)
    ensures e in NotIn(es, cars) <==> e in es && e.car !in cars
    decreases es
  {
    if es != [] {
      NotInMembers(es[1..], cars, e);
      assert es == [es[0]] + es[1..];
    }
  }

  ghost predicate DistinctCars(es: seq<Entrant>) {
    forall i, j :: 0 <= i < j < |es| ==> es[i].car != es[j].car
  }

  lemma {:induction false} HumansFromDistinct(ps: seq<Participant>, car: nat)
    requires car <= |ps|
    ensures DistinctCars(HumansFrom(ps, car))
    decreases |ps| - car
  {
    if car < |ps| {
      var rest := HumansFrom(ps, car + 1);
      HumansFromDistinct(ps, car + 1);
      forall i | 0 <= i < |rest|
        ensures rest[i].car > car
      {
        HumansFromMembers(ps, car + 1, rest[i]);
      }
    }
  }

  lemma {:induction false} NotInDistinct(es: seq<Entrant>, cars: set<nat>)
    requires DistinctCars(es)
    ensures DistinctCars(NotIn(es, cars))
    decreases es
  {
    if es != [] {
      var rest := NotIn(es[1..], cars);
      NotInDistinct(es[1..], cars);
      forall i | 0 <= i < |rest|
        ensures rest[i].car != es[0].car
      {
        NotInMembers(es[1..], cars, rest[i]);
      }
    }
  }

  lemma {:induction false} MappingsAt(es: seq<Entrant>, resolved: map<string, UserId>, i: nat)
    requires DistinctCars(es) && i < |es|
    ensures Lookup(Mappings(es, resolved), es[i].car) == Lookup(resolved, es[i].name)
    decreases es
  {
    if i > 0 {
      MappingsAt(es[1..], resolved, i - 1);
    } else if es[0].car in Mappings(es[1..], resolved) {
      MappedIsListed(es[1..], resolved, es[0].car);
    }
  }

  lemma {:induction false} MappedIsListed(es: seq<Entrant>, resolved: map<string, UserId>, car: nat)
    requires car in Mappings(es, resolved)
    ensures exists i :: 0 <= i < |es| && es[i].car == car
    decreases es
  {
    if es[0].car != car {
      MappedIsListed(es[1..], resolved, car);
      var i :| 0 <= i < |es[1..]| && es[1..][i].car == car;
      assert es[i + 1].car == car;
    }
  }

  /** The users a batch asks for are of different people, none of them recorded in another car. */
  ghost predicate Apart(t: Entries, uid: SessionUid, es: seq<Entrant>, resolved: map<string, UserId>) {
    && DistinctCars(es)
    && (forall i, j :: 0 <= i < j < |es| && es[i].name in resolved && es[j].name in resolved
          ==> resolved[es[i].name] != resolved[es[j].name])
    && (forall i, k :: 0 <= i < |es| && es[i].name in resolved && k in t && k.uid == uid && k.car != es[i].car
          ==> t[k] != resolved[es[i].name])
  }

  lemma {:induction false} ApartGoesThrough(t: Entries, uid: SessionUid, es: seq<Entrant>,
          resolved: map<string, UserId>)
    requires Apart(t, uid, es, resolved)
    ensures UpsertEntries(t, uid, es, resolved).Some?
    decreases es
  {
    if es != [] {
      var rest := es[1..];
      assert forall i :: 0 <= i < |rest| ==> rest[i] == es[i + 1];
      if es[0].name !in resolved {
        ApartGoesThrough(t, uid, rest, resolved);
      } else {
        ApartGoesThrough(t[EntryKey(uid, es[0].car) := resolved[es[0].name]], uid, rest, resolved);
      }
    }
  }

  lemma {:induction false} OfferedMembers(s: State, uid: SessionUid, ps: seq<Participant>, e: Entrant)
    requires Inv(s)
    ensures e in Offered(s, uid, ps)
       <==> e.car < |ps| && IsDriver(ps[e.car]) && e.name == ps[e.car].name && e.car !in UserMapOf(s, uid)
  {
    HumansFromMembers(ps, 0, e);
    NotInMembers(HumansFrom(ps, 0), WrittenOf(s, uid), e);
    assert uid in s.written.vals <==> uid in Members(s.users.order);
  }

  lemma {:induction false} OfferedDistinct(s: State, uid: SessionUid, ps: seq<Participant>)
    ensures DistinctCars(Offered(s, uid, ps))
  {
    HumansFromDistinct(ps, 0);
    NotInDistinct(HumansFrom(ps, 0), WrittenOf(s, uid));
  }

  /** What the batch maps: the new drivers, each to his name's user. */
  lemma {:induction false} OfferedMappings(s: State, uid: SessionUid, ps: seq<Participant>,
          resolved: map<string, UserId>, car: nat)
    requires Inv(s)
    ensures Lookup(Mappings(Offered(s, uid, ps), resolved), car)
         == if IsNew(ps, UserMapOf(s, uid), resolved, car) then Some(resolved[ps[car].name]) else None
  {
    var es := Offered(s, uid, ps);
    OfferedDistinct(s, uid, ps);
    if car < |ps| {
      OfferedMembers(s, uid, ps, Entrant(car, ps[car].name));
    }
    if car < |ps| && Entrant(car, ps[car].name) in es {
      var i :| 0 <= i < |es| && es[i] == Entrant(car, ps[car].name);
      MappingsAt(es, resolved, i);
    } else if car in Mappings(es, resolved) {
      MappedIsListed(es, resolved, car);
      var i :| 0 <= i < |es| && es[i].car == car;
      OfferedMembers(s, uid, ps, es[i]);
    }
  }

  lemma {:induction false} OfferedApart(s: State, uid: SessionUid, ps: seq<Participant>, resolved: map<string, UserId>)
    requires Inv(s) && Unclashing(s.entries, uid, ps, UserMapOf(s, uid), resolved)
    ensures Apart(s.entries, uid, Offered(s, uid, ps), resolved)
  {
    var es := Offered(s, uid, ps);
    OfferedDistinct(s, uid, ps);
    forall i | 0 <= i < |es| && es[i].name in resolved
      ensures es[i].car < |ps| && es[i].name == ps[es[i].car].name
      ensures IsNew(ps, UserMapOf(s, uid), resolved, es[i].car)
    {
      OfferedMembers(s, uid, ps, es[i]);
    }
  }

  lemma {:induction false} RecordMaps(s: State, uid: SessionUid, ps: seq<Participant>, reply: Reply, car: nat)
    requires Inv(s) && reply.writeOk && UpsertEntries(s.entries, uid, Offered(s, uid, ps), reply.resolved).Some?
    ensures Lookup(UserMapOf(Record(s, uid, ps, reply), uid), car)
         == (var mapped := Lookup(Mappings(Offered(s, uid, ps), reply.resolved), car);
             if mapped.Some? then mapped else Lookup(UserMapOf(s, uid), car))
  {
    var offered := Offered(s, uid, ps);
    if offered != [] {
      var o := InsertEntries(s.entries, uid, offered, reply);
      assert o.mappings == Mappings(offered, reply.resolved);
    }
  }

  /**
   After a packet, if the database takes the new drivers: every driver's car is mapped to the user his name was
   resolved to, unless it was mapped already; a car without a driver, or with one whose name was not, is not.
   */
  lemma {:induction false} DriversAreMapped(s: State, p: Packet, reply: Reply, car: nat)
    requires Inv(s) && reply.writeOk
    requires Unclashing(s.entries, p.uid, p.participants, UserMapOf(s, p.uid), reply.resolved)
    ensures Lookup(UserMapOf(Handle(s, p, reply), p.uid), car)
         == if car in UserMapOf(s, p.uid) then Some(UserMapOf(s, p.uid)[car])
            else if IsNew(p.participants, UserMapOf(s, p.uid), reply.resolved, car)
            then Some(reply.resolved[p.participants[car].name])
            else None
  {
    var s1 := s.(restricted := SetItem(s.restricted, ROSTERS, p.uid, Restricted(p)));
    assert UserMapOf(s1, p.uid) == UserMapOf(s, p.uid);
    OfferedApart(s1, p.uid, p.participants, reply.resolved);
    ApartGoesThrough(s1.entries, p.uid, Offered(s1, p.uid, p.participants), reply.resolved);
    OfferedMappings(s1, p.uid, p.participants, reply.resolved, car);
    RecordMaps(s1, p.uid, p.participants, reply, car);
  }

  // ---------------------------------------------------------------------------------------------
  // The service
  // ---------------------------------------------------------------------------------------------

  class ParticipantsService {
    const writtenHumans: BoundedDict<SessionUid, set<nat>>
    const userMapCache: BoundedDict<SessionUid, UserMap>
    const restrictedIndices: BoundedDict<SessionUid, set<nat>>
    var entries: Entries

    ghost predicate Valid()
      reads writtenHumans, userMapCache, restrictedIndices
    {
      && writtenHumans.Valid() && writtenHumans.maxSize == ROSTERS
      && userMapCache.Valid() && userMapCache.maxSize == ROSTERS
      && restrictedIndices.Valid() && restrictedIndices.maxSize == ROSTERS
      && (writtenHumans as object) != (userMapCache as object)
      && (restrictedIndices as object) != (userMapCache as object)
      && restrictedIndices != writtenHumans
    }

    ghost function Contents(): State
      reads this, writtenHumans, userMapCache, restrictedIndices
    {
      State(restrictedIndices.Model(), writtenHumans.Model(), userMapCache.Model(), entries)
    }

    constructor ()
      ensures Valid() && Contents() == Run([])
    {
      writtenHumans := new BoundedDict(ROSTERS);
      userMapCache := new BoundedDict(ROSTERS);
      restrictedIndices := new BoundedDict(ROSTERS);
      entries := map[];
    }

    /** The confirmed car-to-user mapping of a session. */
    function GetUserMap(uid: SessionUid): (users: UserMap)
      reads this, writtenHumans, userMapCache, restrictedIndices
      ensures users == UserMapOf(Contents(), uid)
    {
      userMapCache.Get(uid).GetOr(map[])
    }

    function GetRestrictedIndices(uid: SessionUid): set<nat>
      reads restrictedIndices
    {
      restrictedIndices.Get(uid).GetOr({})
    }

    static method HumanEntries(ps: seq<Participant>) returns (es: seq<Entrant>, humans: set<nat>)
      ensures es == HumansFrom(ps, 0) && humans == Humans(ps)
    {
      es, humans := [], {};
      ghost var all := HumansFrom(ps, 0);
      for i := 0 to |ps|
        invariant es + HumansFrom(ps, i) == all
        invariant humans == set car | 0 <= car < i && IsHuman(ps[car])
      {
        HumansFromStep(ps, i, es);
        if IsHuman(ps[i]) {
          es, humans := es + [Entrant(i, ps[i].name)], humans + {i};
        }
      }
    }

    static method NewEntries(es: seq<Entrant>, written: set<nat>) returns (r: seq<Entrant>)
      ensures r == NotIn(es, written)
    {
      r := [];
      for i := 0 to |es|
        invariant r + NotIn(es[i..], written) == NotIn(es, written)
      {
        assert es[i..][1..] == es[i + 1..];
        if es[i].car !in written {
          r := r + [es[i]];
        }
      }
    }

    /** `insert_entries_batch`. */
    method InsertEntriesBatch(uid: SessionUid, es: seq<Entrant>, reply: Reply) returns (mappings: UserMap)
      modifies this`entries
      ensures Inserted(entries, mappings) == InsertEntries(old(entries), uid, es, reply)
    {
      var o := InsertEntries(entries, uid, es, reply);
      entries, mappings := o.entries, o.mappings;
    }

    method HandleParticipants(p: Packet, reply: Reply) returns (users: UserMap)
      requires Valid()
      modifies this, writtenHumans, userMapCache, restrictedIndices
      ensures Valid()
      ensures Contents() == Handle(old(Contents()), p, reply)
      ensures users == UserMapOf(Contents(), p.uid)
    {
      restrictedIndices.SetItem(p.uid, Restricted(p));
      var humanEntries, currentHumans := HumanEntries(p.participants);
      var written := writtenHumans.Get(p.uid).GetOr({});
      if currentHumans == written {
        return GetUserMap(p.uid);
      }
      var newEntries := NewEntries(humanEntries, written);
      if newEntries == [] {
        return GetUserMap(p.uid);
      }
      var newMappings := InsertEntriesBatch(p.uid, newEntries, reply);
      if newMappings == map[] {
        return GetUserMap(p.uid);
      }
      users := RememberMappings(p.uid, written, newMappings);
    }

    /** The confirmed mappings enter both caches. */
    method RememberMappings(uid: SessionUid, written: set<nat>, newMappings: UserMap) returns (users: UserMap)
      requires Valid() && written == WrittenOf(Contents(), uid)
      modifies writtenHumans, userMapCache
      ensures Valid()
      ensures Contents() == Remember(old(Contents()), uid, newMappings, entries)
      ensures users == UserMapOf(Contents(), uid)
    {
      users := GetUserMap(uid) + newMappings;
      userMapCache.SetItem(uid, users);
      writtenHumans.SetItem(uid, written + newMappings.Keys);
    }
  }
}
