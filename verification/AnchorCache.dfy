/**
 The session caches that decide whether a frame's timestamp can be derived: the dispatcher's known
 sessions, the session service's seen sessions, and its anchor cache.
 */
module AnchorCache {
  import opened Options
  import opened Recency
  import opened FrameBufferModel
  import opened FrameTables

  const KNOWN_SESSIONS: nat := 100
  const SEEN_SESSIONS: nat := 100
  const ANCHORS: nat := 200

  datatype Caches = Caches(known: seq<SessionUid>, seen: seq<SessionUid>, starts: Dict<SessionUid, Instant>)

  function EmptyCaches(): Caches {
    Caches([], [], Empty())
  }

  /** `INSERT ... ON CONFLICT DO UPDATE` of everything but the anchor. */
  function InsertSession(anchors: map<SessionUid, Instant>, uid: SessionUid, start: Instant): map<SessionUid, Instant> {
    if uid in anchors then anchors else anchors[uid := start]
  }

  /**
   `_insert_session`: the locally computed anchor is written, and the stored one is read back.
   `stored` is the sessions table after the write, or as it was when the write failed.
   */
  function ReadBack(stored: map<SessionUid, Instant>, uid: SessionUid, start: Instant): Instant {
    Lookup(stored, uid).GetOr(start)
  }

  /** A Session packet of a collected type, with the anchor the session service would cache for it. */
  function SessionPacket(c: Caches, uid: SessionUid, anchor: Instant): Caches {
    var known := Touch(c.known, KNOWN_SESSIONS, uid);
    if uid in c.seen then c.(known := known)
    else Caches(known, Touch(c.seen, SEEN_SESSIONS, uid), SetItem(c.starts, ANCHORS, uid, anchor))
  }

  ghost function RunSessions(ps: seq<(SessionUid, Instant)>): Caches {
    if ps == [] then EmptyCaches()
    else SessionPacket(RunSessions(ps[..|ps| - 1]), ps[|ps| - 1].0, ps[|ps| - 1].1)
  }

  /** Sizes and distinctness; the seen set always holds the newest entries of the anchor cache. */
  ghost predicate Shape(c: Caches) {
    && NoDup(c.known) && |c.known| <= KNOWN_SESSIONS
    && NoDup(c.seen) && |c.seen| <= SEEN_SESSIONS
    && WellFormed(c.starts) && |c.starts.order| <= ANCHORS
    && c.seen == Newest(c.starts.order, SEEN_SESSIONS)
  }

  lemma {:induction false} ShapeStep(c: Caches, uid: SessionUid, anchor: Instant)
    requires Shape(c)
    ensures Shape(SessionPacket(c, uid, anchor))
  {
    TouchNoDup(c.known, KNOWN_SESSIONS, uid);
    if uid !in c.seen {
      TouchNoDup(c.seen, SEEN_SESSIONS, uid);
      SetItemValid(c.starts, ANCHORS, uid, anchor);
      TouchNewest(c.starts.order, SEEN_SESSIONS, uid);
      WideTouch(c.starts.order, uid);
    }
  }

  lemma {:induction false} TouchNoDup<K>(order: seq<K>, max: nat, k: K)
    requires max >= 1 && NoDup(order) && |order| <= max
    ensures NoDup(Touch(order, max, k)) && |Touch(order, max, k)| <= max
  {
    WithoutNoDup(order, k);
    WithoutMembers(order, k);
    assert k !in Members(Without(order, k));
  }

  lemma {:induction false} TouchHolds(order: seq<SessionUid>, max: nat, k: SessionUid)
    requires max >= 1
    ensures k in Touch(order, max, k)
  {
    var t := Touch(order, max, k);
    assert t[|t| - 1] == k;
  }

  /** Whether or not the larger cache evicts, its newest entries are the same. */
  lemma {:induction false} WideTouch(order: seq<SessionUid>, uid: SessionUid)
    requires NoDup(order) && |order| <= ANCHORS
    ensures Newest(Touch(order, ANCHORS, uid), SEEN_SESSIONS) == Newest(Without(order, uid) + [uid], SEEN_SESSIONS)
  {
    WithoutMembers(order, uid);
    if uid !in order && |order| >= ANCHORS {
      assert order + [uid] == [order[0]] + (order[1..] + [uid]);
    }
  }

  // ---------------------------------------------------------------------------------------------
  // The sizes suffice
  // ---------------------------------------------------------------------------------------------

  /**
   Why a known session's anchor survives: the sessions anchored after it are either among fewer
   than 100 anchored between its own anchoring and its last Session packet (`before`), or known
   sessions that sent a packet after that.
   */
  ghost predicate Covered(c: Caches, uid: SessionUid, before: set<SessionUid>) {
    && uid in c.starts.vals
    && |before| < SEEN_SESSIONS
    && After(c.starts.order, uid) <= before + After(c.known, uid)
  }

  ghost predicate AllCovered(c: Caches, before: map<SessionUid, set<SessionUid>>) {
    forall u :: u in c.known ==> u in before && Covered(c, u, before[u])
  }

  /** A covered session is never the one the anchor cache evicts. */
  lemma {:induction false} CoveredCount(c: Caches, uid: SessionUid, before: set<SessionUid>)
    requires Shape(c) && uid in c.known && Covered(c, uid, before)
    ensures |After(c.starts.order, uid)| < ANCHORS - 1
  {
    AfterWithin(c.known, uid);
    SubsetSum(After(c.starts.order, uid), before, After(c.known, uid));
  }

  lemma {:induction false} SubsetSum<T>(a: set<T>, b: set<T>, c: set<T>)
    requires a <= b + c
    ensures |a| <= |b| + |c|
  {
    assert b + c == a + ((b + c) - a);
    assert b + c == b + (c - b);
    assert c == (c - b) + (c * b);
  }

  /** The packet's own session: everything anchored after it is still in the seen set. */
  lemma {:induction false} CoveredSelf(c: Caches, uid: SessionUid, anchor: Instant) returns (before: set<SessionUid>)
    requires Shape(c)
    ensures Covered(SessionPacket(c, uid, anchor), uid, before)
  {
    if uid in c.seen {
      before := After(c.seen, uid);
      AfterWithin(c.seen, uid);
      AfterSuffix(c.starts.order, SEEN_SESSIONS, uid);
      assert uid in Members(c.starts.order);
    } else {
      before := {};
      SetItemValid(c.starts, ANCHORS, uid, anchor);
      AfterTouchSelf(c.starts.order, ANCHORS, uid);
    }
  }

  lemma {:induction false} AfterSuffix(order: seq<SessionUid>, n: nat, uid: SessionUid)
    requires NoDup(order) && uid in Newest(order, n)
    ensures uid in order && After(order, uid) == After(Newest(order, n), uid)
  {
    if |order| > n {
      var cut := |order| - n;
      assert order == order[..cut] + order[cut..];
      AfterConcat(order[..cut], order[cut..], uid);
      assert uid !in order[..cut];
    }
  }

  /** Another session's packet: if it is newly anchored after `uid`, it is also known after `uid`. */
  lemma {:induction false} CoveredOther(c: Caches, uid: SessionUid, anchor: Instant, u: SessionUid,
          before: set<SessionUid>)
    requires Shape(c) && u != uid && u in c.known && u in SessionPacket(c, uid, anchor).known
    requires Covered(c, u, before)
    ensures Covered(SessionPacket(c, uid, anchor), u, before)
  {
    KnownAfter(c.known, uid, u);
    if uid !in c.seen {
      CoveredCount(c, u, before);
      SetItemValid(c.starts, ANCHORS, uid, anchor);
      assert u in Members(c.starts.order);
      AfterTouch(c.starts.order, ANCHORS, u, uid);
      assert u in SetItem(c.starts, ANCHORS, uid, anchor).vals by {
        assert u in Members(Touch(c.starts.order, ANCHORS, uid));
      }
    }
  }

  lemma {:induction false} KnownAfter(known: seq<SessionUid>, uid: SessionUid, u: SessionUid)
    requires NoDup(known) && u != uid && u in known && |known| <= KNOWN_SESSIONS
    requires u in Touch(known, KNOWN_SESSIONS, uid)
    ensures After(Touch(known, KNOWN_SESSIONS, uid), u) == After(known, u) + {uid}
  {
    if uid !in known && |known| >= KNOWN_SESSIONS {
      assert known[0] != u by {
        assert known[0] !in known[1..];
      }
      assert known == [known[0]] + known[1..];
      AfterConcat(known[1..], [uid], u);
    } else {
      AfterTouch(known, KNOWN_SESSIONS, u, uid);
    }
  }

  lemma {:induction false} CoveredStep(c: Caches, uid: SessionUid, anchor: Instant,
          before: map<SessionUid, set<SessionUid>>)
    returns (before': map<SessionUid, set<SessionUid>>)
    requires Shape(c) && AllCovered(c, before)
    ensures Shape(SessionPacket(c, uid, anchor)) && AllCovered(SessionPacket(c, uid, anchor), before')
  {
    ShapeStep(c, uid, anchor);
    var own := CoveredSelf(c, uid, anchor);
    before' := before[uid := own];
    var c' := SessionPacket(c, uid, anchor);
    forall u | u in c'.known
      ensures u in before' && Covered(c', u, before'[u])
    {
      if u != uid {
        assert u in c.known by {
          TouchMembers(c.known, KNOWN_SESSIONS, uid);
          assert u in Members(c'.known);
          assert u in Members(c.known);
        }
        CoveredOther(c, uid, anchor, u, before[u]);
      }
    }
  }

  /**
   The cache sizes suffice: over any run of Session packets, with any number of sessions, a session
   the dispatcher still knows has its anchor in the cache, so its timestamps are derived from it.
   */
  lemma {:induction false} KnownSessionsAreAnchored(ps: seq<(SessionUid, Instant)>)
      returns (before: map<SessionUid, set<SessionUid>>)
    ensures Shape(RunSessions(ps)) && AllCovered(RunSessions(ps), before)
    ensures forall u :: u in RunSessions(ps).known ==> u in RunSessions(ps).starts.vals
  {
    before := map[];
    if ps != [] {
      var n := |ps| - 1;
      before := KnownSessionsAreAnchored(ps[..n]);
      before := CoveredStep(RunSessions(ps[..n]), ps[n].0, ps[n].1, before);
    }
  }
}
