/**
 The Discord bot's cron tick: one channel per weekend, one card per session, edited once more when the
 session is over. Any await may fail, before or after its effect, and the next tick starts from whatever
 the tables then hold.
 */
module BotTick {
  import opened Options
  import opened Recency

  type SessionUid = nat
  type Link = string

  const STALE_THRESHOLD_MS := 60000

  /** What becomes of an await: it goes through, its effect happens but the answer is lost, or nothing happens. */
  datatype Fault = Fine | Lost | Refused

  type Faults = nat -> Fault

  datatype Session = Session(uid: SessionUid, link: Link, isRace: bool)

  datatype Weekend = Weekend(channel: nat, archived: bool)

  datatype Card = Card(channel: nat, message: nat, finalized: bool)

  datatype Post = Post(uid: SessionUid, link: Link, channel: nat)

  /** A session's post whose row was not recorded, and the await that kept it from being. */
  datatype Mishap = Mishap(uid: SessionUid, at: nat)

  /**
   The bot's two tables and Discord. Messages are numbered by their place in `posts`; `untracked` lists
   the posts whose row was not recorded.
   */
  datatype State = State(
    weekends: map<Link, Weekend>,
    cards: map<SessionUid, Card>,
    channels: nat,
    renamed: set<nat>,
    posts: seq<Post>,
    edits: seq<nat>,
    untracked: seq<Mishap>)

  /** The state after a number of awaits. */
  datatype World = World(state: State, clock: nat)

  /** The telemetry tables as a tick finds them: the silence of a session's timeline in milliseconds. */
  datatype Telemetry = Telemetry(latest: Option<Session>, sessions: map<SessionUid, Session>,
          silence: map<SessionUid, int>)

  /** A tick's circumstances: the tables at its two steps, and the order in which rows are selected. */
  datatype Circumstances = Circumstances(card: Telemetry, final: Telemetry, order: seq<SessionUid>)

  datatype Outcome<T> = Done(value: T) | Threw(world: World) {
    predicate IsFailure() {
      Threw?
    }

    function PropagateFailure<U>(): Outcome<U>
      requires Threw?
    {
      Threw(world)
    }

    function Extract(): T
      requires Done?
    {
      value
    }
  }

  /** Reads change nothing; the first one to fail ends the step. */
  function Reads(f: Faults, w: World, n: nat): (o: Outcome<World>)
    ensures o.Done? ==> o.value == World(w.state, w.clock + n)
    ensures o.Threw? ==> o.world.state == w.state && o.world.clock > w.clock
    decreases n
  {
    if n == 0 then Done(w)
    else if f(w.clock) != Fine then Threw(World(w.state, w.clock + 1))
    else Reads(f, World(w.state, w.clock + 1), n - 1)
  }

  /** An await that turns the state into `after` if it takes effect. */
  function Effect(f: Faults, w: World, after: State): Outcome<World> {
    match f(w.clock)
    case Fine => Done(World(after, w.clock + 1))
    case Lost => Threw(World(after, w.clock + 1))
    case Refused => Threw(World(w.state, w.clock + 1))
  }

  // ---------------------------------------------------------------------------------------------
  // The weekend's channel
  // ---------------------------------------------------------------------------------------------

  ghost function ActiveWeekend(s: State): Option<Link> {
    if l :| l in s.weekends && !s.weekends[l].archived then Some(l) else None
  }

  function Renamed(s: State, channel: nat): State {
    s.(renamed := s.renamed + {channel})
  }

  function Archived(s: State, link: Link): State
    requires link in s.weekends
  {
    s.(weekends := s.weekends[link := s.weekends[link].(archived := true)])
  }

  function ArchivePreviousWeekend(f: Faults, w: World, t: Telemetry, link: Link): Outcome<World>
    requires link in w.state.weekends
  {
    var known := exists u :: u in t.sessions && t.sessions[u].link == link;
    var w1 :- Reads(f, w, if known then 2 else 1);
    var w2 :- Effect(f, w1, Renamed(w.state, w.state.weekends[link].channel));
    Effect(f, w2, Archived(w2.state, link))
  }

  function CreateChannel(f: Faults, w: World): Outcome<World> {
    Effect(f, w, w.state.(channels := w.state.channels + 1))
  }

  function Opened(s: State, link: Link, channel: nat): State {
    s.(weekends := s.weekends[link := Weekend(channel, false)])
  }

  /** The primary key is the weekend: a second row for one is refused. */
  function InsertWeekend(f: Faults, w: World, link: Link, channel: nat): Outcome<World> {
    if link in w.state.weekends then Threw(World(w.state, w.clock + 1))
    else Effect(f, w, Opened(w.state, link, channel))
  }

  /** The world once the latest session's weekend has its channel. */
  datatype Ready = Ready(world: World, channel: nat)

  function OpenChannel(f: Faults, w: World, link: Link): Outcome<Ready> {
    var w1 :- CreateChannel(f, w);
    var w2 :- InsertWeekend(f, w1, link, w.state.channels);
    Done(Ready(w2, w.state.channels))
  }

  ghost function EnsureWeekendChannel(f: Faults, w: World, t: Telemetry, s: Session): Outcome<Ready> {
    var w1 :- Reads(f, w, 1);
    var active := ActiveWeekend(w.state);
    if active == Some(s.link) then Done(Ready(w1, w.state.weekends[s.link].channel))
    else
      var w2 :- if active.Some? then ArchivePreviousWeekend(f, w1, t, active.value) else Done(w1);
      OpenChannel(f, w2, s.link)
  }

  // ---------------------------------------------------------------------------------------------
  // The session's card
  // ---------------------------------------------------------------------------------------------

  /** A message is posted but no row records it. */
  function PostedOnly(s: State, p: Post, at: nat): State {
    s.(posts := s.posts + [p], untracked := s.untracked + [Mishap(p.uid, at)])
  }

  /** A message is posted and its row recorded. */
  function Tracked(s: State, p: Post): State {
    s.(posts := s.posts + [p], cards := s.cards[p.uid := Card(p.channel, |s.posts|, false)])
  }

  /** Posting the card and recording its row, two awaits. */
  function PostAndTrack(f: Faults, w: World, p: Post): Outcome<World> {
    match f(w.clock)
    case Refused => Threw(World(w.state, w.clock + 1))
    case Lost => Threw(World(PostedOnly(w.state, p, w.clock), w.clock + 1))
    case Fine =>
      if f(w.clock + 1) == Refused || p.uid in w.state.cards
      then Threw(World(PostedOnly(w.state, p, w.clock + 1), w.clock + 2))
      else Effect(f, World(w.state, w.clock + 1), Tracked(w.state, p))
  }

  function EnsurePlaceholderCard(f: Faults, w: World, s: Session, channel: nat): Outcome<World> {
    var w1 :- Reads(f, w, 1);
    if s.uid in w.state.cards then Done(w1)
    else
      var w2 :- Reads(f, w1, if s.isRace then 1 else 2);
      PostAndTrack(f, w2, Post(s.uid, s.link, channel))
  }

  ghost function SessionCard(f: Faults, w: World, t: Telemetry): Outcome<World> {
    var w1 :- Reads(f, w, 1);
    if t.latest.None? then Done(w1)
    else
      var r :- EnsureWeekendChannel(f, w1, t, t.latest.value);
      EnsurePlaceholderCard(f, r.world, t.latest.value, r.channel)
  }

  // ---------------------------------------------------------------------------------------------
  // Finalizing
  // ---------------------------------------------------------------------------------------------

  predicate SupersededBy(s: Session, latest: Option<Session>) {
    latest.Some? && latest.value.uid != s.uid && latest.value.link == s.link
  }

  /** A newer session of the weekend has started, or the session's timeline has gone quiet. */
  predicate IsSessionDone(t: Telemetry, s: Session) {
    SupersededBy(s, t.latest) || (s.uid in t.silence && t.silence[s.uid] > STALE_THRESHOLD_MS)
  }

  predicate IsPending(s: State, uid: SessionUid) {
    uid in s.cards && !s.cards[uid].finalized
  }

  function PendingRows(s: State, order: seq<SessionUid>): seq<SessionUid> {
    if order == [] then []
    else (if IsPending(s, order[0]) then [order[0]] else []) + PendingRows(s, order[1..])
  }

  function Edited(s: State, uid: SessionUid): State
    requires uid in s.cards
  {
    s.(edits := s.edits + [s.cards[uid].message])
  }

  function Finalized(s: State, uid: SessionUid): State
    requires uid in s.cards
  {
    s.(cards := s.cards[uid := s.cards[uid].(finalized := true)])
  }

  function EditAndFinalize(f: Faults, w: World, uid: SessionUid): Outcome<World>
    requires uid in w.state.cards
  {
    var w1 :- Effect(f, w, Edited(w.state, uid));
    Effect(f, w1, Finalized(w1.state, uid))
  }

  function FinalizeRow(f: Faults, w: World, t: Telemetry, uid: SessionUid): Outcome<World>
    requires uid in w.state.cards
  {
    var w1 :- Reads(f, w, 1);
    if uid !in t.sessions then Done(w1)
    else
      var s := t.sessions[uid];
      var w2 :- Reads(f, w1, if SupersededBy(s, t.latest) then 1 else 2);
      if !IsSessionDone(t, s) then Done(w2)
      else
        var w3 :- Reads(f, w2, 2);
        EditAndFinalize(f, w3, uid)
  }

  function FinalizeRows(f: Faults, w: World, t: Telemetry, rows: seq<SessionUid>): Outcome<World>
    decreases rows
  {
    if rows == [] then Done(w)
    else
      var w1 :- if rows[0] in w.state.cards then FinalizeRow(f, w, t, rows[0]) else Done(w);
      FinalizeRows(f, w1, t, rows[1..])
  }

  function FinalizePendingCards(f: Faults, w: World, t: Telemetry, order: seq<SessionUid>): Outcome<World> {
    var w1 :- Reads(f, w, 1);
    FinalizeRows(f, w1, t, PendingRows(w.state, order))
  }

  function Caught(o: Outcome<World>): World {
    match o
    case Done(w) => w
    case Threw(w) => w
  }

  ghost function Tick(f: Faults, w: World, c: Circumstances): World {
    Caught(FinalizePendingCards(f, Caught(SessionCard(f, w, c.card)), c.final, c.order))
  }

  function Blank(): World {
    World(State(map[], map[], 0, {}, [], [], []), 0)
  }

  ghost function Run(f: Faults, ticks: seq<Circumstances>): World {
    if ticks == [] then Blank()
    else Tick(f, Run(f, ticks[..|ticks| - 1]), ticks[|ticks| - 1])
  }

  // ---------------------------------------------------------------------------------------------
  // What every state keeps
  // ---------------------------------------------------------------------------------------------

  function Posted(posts: seq<Post>, u: SessionUid): nat {
    if posts == [] then 0 else Posted(posts[..|posts| - 1], u) + (if posts[|posts| - 1].uid == u then 1 else 0)
  }

  function Mishaps(untracked: seq<Mishap>, u: SessionUid): nat {
    if untracked == [] then 0
    else Mishaps(untracked[..|untracked| - 1], u) + (if untracked[|untracked| - 1].uid == u then 1 else 0)
  }

  ghost predicate OneActiveWeekend(w: State) {
    forall l, m :: l in w.weekends && m in w.weekends && !w.weekends[l].archived && !w.weekends[m].archived ==> l == m
  }

  /** Every weekend has a channel of its own, renamed before the weekend is marked archived. */
  ghost predicate OwnChannels(w: State) {
    && (forall l :: l in w.weekends ==> w.weekends[l].channel < w.channels)
    && (forall l, m :: l in w.weekends && m in w.weekends && w.weekends[l].channel == w.weekends[m].channel ==> l == m)
    && (forall l :: l in w.weekends && w.weekends[l].archived ==> w.weekends[l].channel in w.renamed)
  }

  /** The card's message was posted for the session, in the card's channel. */
  predicate PostedAs(posts: seq<Post>, u: SessionUid, card: Card) {
    card.message < |posts| && posts[card.message].uid == u && posts[card.message].channel == card.channel
  }

  /** A card's row names the message posted for its session; every message went to its own weekend's channel. */
  ghost predicate CardsArePosts(w: State) {
    && (forall u :: u in w.cards ==> PostedAs(w.posts, u, w.cards[u]))
    && (forall i ::
           0 <= i < |w.posts|
           ==> w.posts[i].link in w.weekends && w.weekends[w.posts[i].link].channel == w.posts[i].channel)
  }

  /** A session's posts are its tracked card, if any, and those whose row was not recorded. */
  ghost predicate PostsAccounted(w: State) {
    forall u :: Posted(w.posts, u) == (if u in w.cards then 1 else 0) + Mishaps(w.untracked, u)
  }

  ghost predicate Inv(w: State) {
    OneActiveWeekend(w) && OwnChannels(w) && CardsArePosts(w) && PostsAccounted(w)
  }

  /**
   From `v` to `w` weekends keep their channels and stay archived once they are, cards stay tracked, and a
   finalized card stays as it is, its message unedited.
   */
  ghost predicate Follows(v: State, w: State) {
    && (forall l :: l in v.weekends ==> l in w.weekends && w.weekends[l].channel == v.weekends[l].channel)
    && (forall l :: l in v.weekends && v.weekends[l].archived ==> w.weekends[l].archived)
    && (forall u :: u in v.cards ==> u in w.cards && w.cards[u].message == v.cards[u].message)
    && (forall u :: u in v.cards && v.cards[u].finalized
         ==> w.cards[u] == v.cards[u] && multiset(w.edits)[v.cards[u].message] == multiset(v.edits)[v.cards[u].message])
  }

  ghost predicate Leads(v: State, w: State) {
    Inv(w) && Follows(v, w)
  }

  lemma {:induction false} FollowsTransitive(u: State, v: State, w: State)
    requires Follows(u, v) && Follows(v, w)
    ensures Follows(u, w)
  {
  }

  /** The active row is found whatever order the table is read in. */
  lemma {:induction false} ActiveIs(w: State, l: Link)
    requires OneActiveWeekend(w) && l in w.weekends && !w.weekends[l].archived
    ensures ActiveWeekend(w) == Some(l)
  {
  }

  lemma {:induction false} RenamedLeads(w: State, channel: nat)
    requires Inv(w)
    ensures Leads(w, Renamed(w, channel))
  {
  }

  lemma {:induction false} ArchivedLeads(w: State, link: Link)
    requires Inv(w) && link in w.weekends && w.weekends[link].channel in w.renamed
    ensures Leads(w, Archived(w, link))
  {
  }

  /** A post whose row is not recorded is accounted for as untracked. */
  lemma {:induction false} UntrackedPostLeads(w: State, p: Post, at: nat)
    requires Inv(w) && p.link in w.weekends && w.weekends[p.link].channel == p.channel
    ensures Leads(w, PostedOnly(w, p, at))
  {
    MishapAccounted(w, p, at);
    MishapCards(w, p, at);
  }

  lemma {:induction false} MishapCards(w: State, p: Post, at: nat)
    requires CardsArePosts(w) && p.link in w.weekends && w.weekends[p.link].channel == p.channel
    ensures CardsArePosts(PostedOnly(w, p, at))
  {
  }

  lemma {:induction false} MishapAccounted(w: State, p: Post, at: nat)
    requires PostsAccounted(w)
    ensures PostsAccounted(PostedOnly(w, p, at))
  {
    assert (w.posts + [p])[..|w.posts|] == w.posts;
    assert (w.untracked + [Mishap(p.uid, at)])[..|w.untracked|] == w.untracked;
  }

  /** A post whose row is recorded is the session's one tracked card. */
  lemma {:induction false} TrackedPostLeads(w: State, p: Post)
    requires Inv(w) && p.link in w.weekends && w.weekends[p.link].channel == p.channel && p.uid !in w.cards
    ensures Leads(w, Tracked(w, p))
  {
    TrackedAccounted(w, p);
    assert CardsArePosts(Tracked(w, p));
  }

  lemma {:induction false} TrackedAccounted(w: State, p: Post)
    requires PostsAccounted(w) && p.uid !in w.cards
    ensures PostsAccounted(Tracked(w, p))
  {
  }

  lemma {:induction false} EditLeads(w: State, uid: SessionUid)
    requires Inv(w) && uid in w.cards && !w.cards[uid].finalized
    ensures Leads(w, Edited(w, uid))
  {
  }

  lemma {:induction false} FinalizedLeads(w: State, uid: SessionUid)
    requires Inv(w) && uid in w.cards && !w.cards[uid].finalized
    ensures Leads(w, Finalized(w, uid))
  {
  }

  // ---------------------------------------------------------------------------------------------
  // The steps
  // ---------------------------------------------------------------------------------------------

  lemma {:induction false} ArchiveOutcomes(f: Faults, w: World, t: Telemetry, link: Link)
    requires link in w.state.weekends
    ensures var o, renamed := ArchivePreviousWeekend(f, w, t, link), Renamed(w.state, w.state.weekends[link].channel);
            && Caught(o).state in {w.state, renamed, Archived(renamed, link)}
            && (o.Done? ==> o.value.state == Archived(renamed, link))
  {
  }

  lemma {:induction false} ArchiveLeads(w: State, link: Link)
    requires Inv(w) && ActiveWeekend(w) == Some(link)
    ensures var renamed := Renamed(w, w.weekends[link].channel);
            && Leads(w, renamed) && Leads(w, Archived(renamed, link))
            && ActiveWeekend(Archived(renamed, link)) == None
  {
    var renamed := Renamed(w, w.weekends[link].channel);
    RenamedLeads(w, w.weekends[link].channel);
    ArchivedLeads(renamed, link);
    FollowsTransitive(w, renamed, Archived(renamed, link));
    NoneActiveAfter(renamed, link);
  }

  lemma {:induction false} NoneActiveAfter(s: State, link: Link)
    requires OneActiveWeekend(s) && link in s.weekends && !s.weekends[link].archived
    ensures ActiveWeekend(Archived(s, link)) == None
  {
  }

  function WithChannel(s: State): State {
    s.(channels := s.channels + 1)
  }

  lemma {:induction false} OpenLeads(w: State, link: Link)
    requires Inv(w) && ActiveWeekend(w) == None
    ensures Leads(w, WithChannel(w))
    ensures link !in w.weekends ==> Leads(w, Opened(WithChannel(w), link, w.channels))
  {
  }

  function CaughtReady(o: Outcome<Ready>): World {
    match o
    case Done(r) => r.world
    case Threw(w) => w
  }

  /** Creating the channel and its row: neither, the channel only, or both. */
  lemma {:induction false} OpenOutcomes(f: Faults, w: World, link: Link)
    ensures var o, both := OpenChannel(f, w, link), Opened(WithChannel(w.state), link, w.state.channels);
            && (CaughtReady(o).state in {w.state, WithChannel(w.state)}
                || (CaughtReady(o).state == both && link !in w.state.weekends))
            && (o.Done?
                ==> o.value.world.state == both && o.value.channel == w.state.channels && link !in w.state.weekends)
  {
  }

  lemma {:induction false} LeadsSelf(w: State)
    requires Inv(w)
    ensures Leads(w, w)
  {
  }

  lemma {:induction false} LeadsOn(u: State, v: State, w: State)
    requires Leads(u, v) && Leads(v, w)
    ensures Leads(u, w)
  {
  }

  /** The channel handed on is that of the session's own weekend, and that weekend is the active one. */
  ghost predicate ReadyFor(s: State, link: Link, channel: nat) {
    link in s.weekends && s.weekends[link] == Weekend(channel, false)
  }

  /** From a world without an active weekend: the channel and its row. */
  lemma {:induction false} OpenKeeps(f: Faults, w: World, link: Link)
    requires Inv(w.state) && ActiveWeekend(w.state) == None
    ensures var o := OpenChannel(f, w, link);
            && Leads(w.state, CaughtReady(o).state)
            && (o.Done? ==> ReadyFor(o.value.world.state, link, o.value.channel))
  {
    OpenOutcomes(f, w, link);
    OpenLeads(w.state, link);
    LeadsSelf(w.state);
  }

  lemma {:induction false} EnsureChannelKeeps(f: Faults, w: World, t: Telemetry, s: Session)
    requires Inv(w.state)
    ensures var o := EnsureWeekendChannel(f, w, t, s);
            && Leads(w.state, CaughtReady(o).state)
            && (o.Done? ==> ReadyFor(o.value.world.state, s.link, o.value.channel))
  {
    LeadsSelf(w.state);
    var r := Reads(f, w, 1);
    var active := ActiveWeekend(w.state);
    if r.Done? && active != Some(s.link) {
      if active.None? {
        OpenKeeps(f, r.value, s.link);
      } else {
        var a := ArchivePreviousWeekend(f, r.value, t, active.value);
        ArchiveOutcomes(f, r.value, t, active.value);
        ArchiveLeads(w.state, active.value);
        if a.Done? {
          OpenKeeps(f, a.value, s.link);
          LeadsOn(w.state, a.value.state, CaughtReady(OpenChannel(f, a.value, s.link)).state);
        }
      }
    }
  }

  lemma {:induction false} PostOutcomes(f: Faults, w: World, p: Post)
    ensures var o := PostAndTrack(f, w, p);
            && Caught(o).state in {w.state, PostedOnly(w.state, p, w.clock), PostedOnly(w.state, p, w.clock + 1),
                Tracked(w.state, p)}
            && (Caught(o).state == Tracked(w.state, p) || o.Done? ==> p.uid !in w.state.cards)
            && (o.Done? ==> o.value.state == Tracked(w.state, p))
  {
  }

  lemma {:induction false} EnsureCardKeeps(f: Faults, w: World, s: Session, channel: nat)
    requires Inv(w.state) && ReadyFor(w.state, s.link, channel)
    ensures Leads(w.state, Caught(EnsurePlaceholderCard(f, w, s, channel)).state)
  {
    LeadsSelf(w.state);
    var p := Post(s.uid, s.link, channel);
    var r := Reads(f, w, 1);
    if r.Done? && s.uid !in w.state.cards {
      var r2 := Reads(f, r.value, if s.isRace then 1 else 2);
      if r2.Done? {
        PostOutcomes(f, r2.value, p);
        UntrackedPostLeads(w.state, p, r2.value.clock);
        UntrackedPostLeads(w.state, p, r2.value.clock + 1);
        TrackedPostLeads(w.state, p);
      }
    }
  }

  lemma {:induction false} SessionCardKeeps(f: Faults, w: World, t: Telemetry)
    requires Inv(w.state)
    ensures Leads(w.state, Caught(SessionCard(f, w, t)).state)
  {
    LeadsSelf(w.state);
    var r := Reads(f, w, 1);
    if r.Done? && t.latest.Some? {
      EnsureChannelKeeps(f, r.value, t, t.latest.value);
      var o := EnsureWeekendChannel(f, r.value, t, t.latest.value);
      if o.Done? {
        EnsureCardKeeps(f, o.value.world, t.latest.value, o.value.channel);
        LeadsOn(w.state, o.value.world.state, Caught(SessionCard(f, w, t)).state);
      }
    }
  }

  // ---------------------------------------------------------------------------------------------
  // Finalizing
  // ---------------------------------------------------------------------------------------------

  lemma {:induction false} FinalizeOutcomes(f: Faults, w: World, t: Telemetry, uid: SessionUid)
    requires uid in w.state.cards
    ensures var o := FinalizeRow(f, w, t, uid);
            Caught(o).state in {w.state, Edited(w.state, uid), Finalized(Edited(w.state, uid), uid)}
  {
  }

  lemma {:induction false} FinalizeRowKeeps(f: Faults, w: World, t: Telemetry, uid: SessionUid)
    requires Inv(w.state) && IsPending(w.state, uid)
    ensures Leads(w.state, Caught(FinalizeRow(f, w, t, uid)).state)
  {
    var edited := Edited(w.state, uid);
    FinalizeOutcomes(f, w, t, uid);
    LeadsSelf(w.state);
    EditLeads(w.state, uid);
    FinalizedLeads(edited, uid);
    LeadsOn(w.state, edited, Finalized(edited, uid));
  }

  /** A row's turn touches no other card. */
  lemma {:induction false} OthersStayPending(f: Faults, w: World, t: Telemetry, uid: SessionUid)
    requires uid in w.state.cards
    ensures forall u :: u != uid && IsPending(w.state, u) ==> IsPending(Caught(FinalizeRow(f, w, t, uid)).state, u)
  {
  }

  ghost predicate AllPending(s: State, rows: seq<SessionUid>) {
    NoDup(rows) && forall u :: u in rows ==> IsPending(s, u)
  }

  lemma {:induction false} FinalizeRowsKeep(f: Faults, w: World, t: Telemetry, rows: seq<SessionUid>)
    requires Inv(w.state) && AllPending(w.state, rows)
    ensures Leads(w.state, Caught(FinalizeRows(f, w, t, rows)).state)
    decreases rows
  {
    LeadsSelf(w.state);
    if rows != [] {
      FinalizeRowKeeps(f, w, t, rows[0]);
      OthersStayPending(f, w, t, rows[0]);
      var o := FinalizeRow(f, w, t, rows[0]);
      if o.Done? {
        forall u | u in rows[1..]
          ensures IsPending(o.value.state, u)
        {
          assert u != rows[0];
        }
        FinalizeRowsKeep(f, o.value, t, rows[1..]);
        LeadsOn(w.state, o.value.state, Caught(FinalizeRows(f, w, t, rows)).state);
      }
    }
  }

  lemma {:induction false} PendingRowsFacts(s: State, order: seq<SessionUid>)
    requires NoDup(order)
    ensures AllPending(s, PendingRows(s, order))
    ensures forall u :: u in PendingRows(s, order) <==> u in order && IsPending(s, u)
  {
    if order != [] {
      PendingRowsFacts(s, order[1..]);
      assert order == [order[0]] + order[1..];
      assert order[0] !in order[1..];
    }
  }

  /** Every tick keeps the invariant, and whatever was finalized before it stays finalized and unedited. */
  lemma {:induction false} TickKeeps(f: Faults, w: World, c: Circumstances)
    requires Inv(w.state) && NoDup(c.order)
    ensures Leads(w.state, Tick(f, w, c).state)
  {
    var v := Caught(SessionCard(f, w, c.card));
    SessionCardKeeps(f, w, c.card);
    LeadsSelf(v.state);
    var r := Reads(f, v, 1);
    if r.Done? {
      PendingRowsFacts(v.state, c.order);
      FinalizeRowsKeep(f, r.value, c.final, PendingRows(v.state, c.order));
    }
    LeadsOn(w.state, v.state, Tick(f, w, c).state);
  }

  // ---------------------------------------------------------------------------------------------
  // Failures
  // ---------------------------------------------------------------------------------------------

  /** Every untracked post is the doing of an await of its own that did not go through. */
  ghost predicate Excused(f: Faults, w: World) {
    && (forall i ::
           0 <= i < |w.state.untracked| ==> w.state.untracked[i].at < w.clock && f(w.state.untracked[i].at) != Fine)
    && (forall i, j :: 0 <= i < j < |w.state.untracked| ==> w.state.untracked[i].at < w.state.untracked[j].at)
  }

  /** Time passes and nothing more is posted untracked. */
  ghost predicate Harmless(v: World, w: World) {
    w.state.untracked == v.state.untracked && w.clock >= v.clock
  }

  lemma {:induction false} ArchiveIsHarmless(f: Faults, w: World, t: Telemetry, link: Link)
    requires link in w.state.weekends
    ensures Harmless(w, Caught(ArchivePreviousWeekend(f, w, t, link)))
  {
  }

  lemma {:induction false} EnsureChannelIsHarmless(f: Faults, w: World, t: Telemetry, s: Session)
    ensures Harmless(w, CaughtReady(EnsureWeekendChannel(f, w, t, s)))
  {
    var r, active := Reads(f, w, 1), ActiveWeekend(w.state);
    if r.Done? && active.Some? && active.value != s.link {
      ArchiveIsHarmless(f, r.value, t, active.value);
    }
  }

  lemma {:induction false} PostIsExcused(f: Faults, w: World, p: Post)
    requires Excused(f, w) && p.uid !in w.state.cards
    ensures Excused(f, Caught(PostAndTrack(f, w, p)))
  {
  }

  lemma {:induction false} EnsureCardIsExcused(f: Faults, w: World, s: Session, channel: nat)
    requires Excused(f, w)
    ensures Excused(f, Caught(EnsurePlaceholderCard(f, w, s, channel)))
  {
    var r := Reads(f, w, 1);
    if r.Done? && s.uid !in w.state.cards {
      var r2 := Reads(f, r.value, if s.isRace then 1 else 2);
      if r2.Done? {
        PostIsExcused(f, r2.value, Post(s.uid, s.link, channel));
      }
    }
  }

  lemma {:induction false} SessionCardIsExcused(f: Faults, w: World, t: Telemetry)
    requires Excused(f, w)
    ensures Excused(f, Caught(SessionCard(f, w, t)))
  {
    var r := Reads(f, w, 1);
    if r.Done? && t.latest.Some? {
      EnsureChannelIsHarmless(f, r.value, t, t.latest.value);
      var o := EnsureWeekendChannel(f, r.value, t, t.latest.value);
      if o.Done? {
        EnsureCardIsExcused(f, o.value.world, t.latest.value, o.value.channel);
      }
    }
  }

  lemma {:induction false} FinalizeRowsAreHarmless(f: Faults, w: World, t: Telemetry, rows: seq<SessionUid>)
    ensures Harmless(w, Caught(FinalizeRows(f, w, t, rows)))
    decreases rows
  {
    if rows != [] {
      if rows[0] in w.state.cards {
        FinalizeOutcomes(f, w, t, rows[0]);
        var o := FinalizeRow(f, w, t, rows[0]);
        if o.Done? {
          FinalizeRowsAreHarmless(f, o.value, t, rows[1..]);
        }
      } else {
        FinalizeRowsAreHarmless(f, w, t, rows[1..]);
      }
    }
  }

  lemma {:induction false} TickIsExcused(f: Faults, w: World, c: Circumstances)
    requires Excused(f, w)
    ensures Excused(f, Tick(f, w, c))
  {
    var v := Caught(SessionCard(f, w, c.card));
    SessionCardIsExcused(f, w, c.card);
    var r := Reads(f, v, 1);
    if r.Done? {
      FinalizeRowsAreHarmless(f, r.value, c.final, PendingRows(v.state, c.order));
    }
  }

  // ---------------------------------------------------------------------------------------------
  // Lost cards
  // ---------------------------------------------------------------------------------------------

  /** The await that posts the session's card, if it has none and the reads before go through. */
  function CardAwait(f: Faults, w: World, s: Session): Option<nat> {
    var r1 := Reads(f, w, 1);
    if r1.Threw? || s.uid in w.state.cards then None
    else
      var r2 := Reads(f, r1.value, if s.isRace then 1 else 2);
      if r2.Threw? then None else Some(r2.value.clock)
  }

  /** ... in a tick that finds the weekend's channel. */
  ghost function PostAwait(f: Faults, w: World, t: Telemetry): Option<nat> {
    var r := Reads(f, w, 1);
    if r.Threw? || t.latest.None? then None
    else
      var o := EnsureWeekendChannel(f, r.value, t, t.latest.value);
      if o.Threw? then None else CardAwait(f, o.value.world, t.latest.value)
  }

  /** The card's post went out unanswered, or was answered and the insert of its row, the next await, was refused. */
  function LostAt(f: Faults, uid: SessionUid, post: Option<nat>): seq<Mishap> {
    if post.None? then []
    else if f(post.value) == Lost then [Mishap(uid, post.value)]
    else if f(post.value) == Fine && f(post.value + 1) == Refused then [Mishap(uid, post.value + 1)]
    else []
  }

  /** What a tick loses: at most the latest session's card. */
  ghost function LostCard(f: Faults, w: World, t: Telemetry): seq<Mishap> {
    if t.latest.None? then [] else LostAt(f, t.latest.value.uid, PostAwait(f, w, t))
  }

  ghost function LostCards(f: Faults, ticks: seq<Circumstances>): seq<Mishap> {
    if ticks == [] then []
    else
      var earlier, last := ticks[..|ticks| - 1], ticks[|ticks| - 1];
      LostCards(f, earlier) + LostCard(f, Run(f, earlier), last.card)
  }

  lemma {:induction false} PostLoses(f: Faults, w: World, p: Post)
    requires p.uid !in w.state.cards
    ensures Caught(PostAndTrack(f, w, p)).state.untracked == w.state.untracked + LostAt(f, p.uid, Some(w.clock))
  {
  }

  lemma {:induction false} CardLoses(f: Faults, w: World, s: Session, channel: nat)
    ensures Caught(EnsurePlaceholderCard(f, w, s, channel)).state.untracked
         == w.state.untracked + LostAt(f, s.uid, CardAwait(f, w, s))
  {
    assert w.state.untracked + [] == w.state.untracked;
    var r := Reads(f, w, 1);
    if r.Done? && s.uid !in w.state.cards {
      var r2 := Reads(f, r.value, if s.isRace then 1 else 2);
      if r2.Done? {
        PostLoses(f, r2.value, Post(s.uid, s.link, channel));
      }
    }
  }

  lemma {:induction false} SessionCardLoses(f: Faults, w: World, t: Telemetry)
    ensures Caught(SessionCard(f, w, t)).state.untracked == w.state.untracked + LostCard(f, w, t)
  {
    assert w.state.untracked + [] == w.state.untracked;
    var r := Reads(f, w, 1);
    if r.Done? && t.latest.Some? {
      EnsureChannelIsHarmless(f, r.value, t, t.latest.value);
      var o := EnsureWeekendChannel(f, r.value, t, t.latest.value);
      if o.Done? {
        CardLoses(f, o.value.world, t.latest.value, o.value.channel);
      }
    }
  }

  lemma {:induction false} TickLoses(f: Faults, w: World, c: Circumstances)
    ensures Tick(f, w, c).state.untracked == w.state.untracked + LostCard(f, w, c.card)
  {
    var v := Caught(SessionCard(f, w, c.card));
    SessionCardLoses(f, w, c.card);
    var r := Reads(f, v, 1);
    if r.Done? {
      FinalizeRowsAreHarmless(f, r.value, c.final, PendingRows(v.state, c.order));
    }
  }

  // ---------------------------------------------------------------------------------------------
  // Whole runs
  // ---------------------------------------------------------------------------------------------

  ghost predicate OrdersAreListings(ticks: seq<Circumstances>) {
    forall i :: 0 <= i < |ticks| ==> NoDup(ticks[i].order)
  }

  /**
   After any ticks, whatever fails in them: at most one weekend is unarchived, every tracked card is a
   message posted for its own session in its own weekend's channel, and a session's posts are its tracked
   card plus its mishaps. These are the cards the ticks lost, each at an await of its own that did not go through:
   the post of that session's card or the insert of its row.
   */
  lemma {:induction false} EveryRunKeeps(f: Faults, ticks: seq<Circumstances>)
    requires OrdersAreListings(ticks)
    ensures Inv(Run(f, ticks).state) && Excused(f, Run(f, ticks))
    ensures Run(f, ticks).state.untracked == LostCards(f, ticks)
  {
    if ticks != [] {
      EveryRunKeeps(f, ticks[..|ticks| - 1]);
      TickKeeps(f, Run(f, ticks[..|ticks| - 1]), ticks[|ticks| - 1]);
      TickIsExcused(f, Run(f, ticks[..|ticks| - 1]), ticks[|ticks| - 1]);
      TickLoses(f, Run(f, ticks[..|ticks| - 1]), ticks[|ticks| - 1]);
    }
  }

  /** A session's posts are its tracked card and, one each, the cards of it that the ticks lost. */
  lemma {:induction false} PostsExceedOneOnlyByFailures(f: Faults, ticks: seq<Circumstances>, u: SessionUid)
    requires OrdersAreListings(ticks)
    ensures Posted(Run(f, ticks).state.posts, u)
         == (if u in Run(f, ticks).state.cards then 1 else 0) + Mishaps(LostCards(f, ticks), u)
  {
    EveryRunKeeps(f, ticks);
  }

  /** From one point of a run to any later one, finalized cards do not change and their messages are not edited. */
  lemma {:induction false} FinalizedStays(f: Faults, ticks: seq<Circumstances>, n: nat)
    requires OrdersAreListings(ticks) && n <= |ticks|
    ensures Follows(Run(f, ticks[..n]).state, Run(f, ticks).state)
  {
    if n == |ticks| {
      assert ticks[..n] == ticks;
    } else {
      var init := ticks[..|ticks| - 1];
      assert init[..n] == ticks[..n];
      FinalizedStays(f, init, n);
      EveryRunKeeps(f, init);
      TickKeeps(f, Run(f, init), ticks[|ticks| - 1]);
      FollowsTransitive(Run(f, ticks[..n]).state, Run(f, init).state, Run(f, ticks).state);
    }
  }

  // ---------------------------------------------------------------------------------------------
  // Ticks without failures
  // ---------------------------------------------------------------------------------------------

  ghost predicate FineFrom(f: Faults, n: nat) {
    forall i: nat :: i >= n ==> f(i) == Fine
  }

  lemma {:induction false} ReadsFine(f: Faults, w: World, n: nat)
    requires FineFrom(f, w.clock)
    ensures Reads(f, w, n) == Done(World(w.state, w.clock + n))
    decreases n
  {
    if n > 0 {
      ReadsFine(f, World(w.state, w.clock + 1), n - 1);
    }
  }

  /** The weekend had its channel before and was archived. */
  predicate Blocked(s: State, link: Link) {
    link in s.weekends && s.weekends[link].archived
  }

  lemma {:induction false} ArchiveFine(f: Faults, w: World, t: Telemetry, link: Link)
    requires FineFrom(f, w.clock) && link in w.state.weekends
    ensures var o := ArchivePreviousWeekend(f, w, t, link);
            o.Done? && o.value.clock >= w.clock
  {
    var known := exists u :: u in t.sessions && t.sessions[u].link == link;
    ReadsFine(f, w, if known then 2 else 1);
  }

  lemma {:induction false} NoneActive(v: State, w: State)
    requires ActiveWeekend(v) == None && w.weekends == v.weekends
    ensures ActiveWeekend(w) == None
  {
  }

  /** What a failed attempt at a blocked weekend's channel leaves behind. */
  ghost predicate Leaked(v: State, w: State, link: Link) {
    && w.cards == v.cards && w.posts == v.posts && w.channels == v.channels + 1
    && Blocked(w, link) && ActiveWeekend(w) == None
  }

  lemma {:induction false} OpenLeaks(f: Faults, w: World, link: Link)
    requires FineFrom(f, w.clock) && ActiveWeekend(w.state) == None
    ensures var o := OpenChannel(f, w, link);
            && CaughtReady(o).clock >= w.clock
            && (o.Done? <==> !Blocked(w.state, link))
            && (o.Threw? ==> Leaked(w.state, o.world.state, link))
  {
  }

  lemma {:induction false} ReplaceLeaks(f: Faults, w: World, t: Telemetry, active: Link, link: Link)
    requires Inv(w.state) && FineFrom(f, w.clock) && ActiveWeekend(w.state) == Some(active) && active != link
    ensures var a := ArchivePreviousWeekend(f, w, t, active);
            && a.Done?
            && var o := OpenChannel(f, a.value, link);
            && CaughtReady(o).clock >= w.clock
            && (o.Done? <==> !Blocked(w.state, link))
            && (o.Threw? ==> Leaked(w.state, o.world.state, link))
  {
    ArchiveFine(f, w, t, active);
    ArchiveOutcomes(f, w, t, active);
    ArchiveLeads(w.state, active);
    var a := ArchivePreviousWeekend(f, w, t, active).value;
    OpenLeaks(f, a, link);
    assert Blocked(a.state, link) <==> Blocked(w.state, link);
  }

  lemma {:induction false} EnsureChannelFine(f: Faults, w: World, t: Telemetry, s: Session)
    requires Inv(w.state) && FineFrom(f, w.clock)
    ensures var o := EnsureWeekendChannel(f, w, t, s);
            && CaughtReady(o).clock >= w.clock
            && (o.Done? <==> !Blocked(w.state, s.link))
            && (o.Threw? ==> Leaked(w.state, o.world.state, s.link))
  {
    ReadsFine(f, w, 1);
    var w1 := World(w.state, w.clock + 1);
    var active := ActiveWeekend(w.state);
    if active.None? {
      OpenLeaks(f, w1, s.link);
      assert EnsureWeekendChannel(f, w, t, s) == OpenChannel(f, w1, s.link);
    } else if active.value != s.link {
      ReplaceLeaks(f, w1, t, active.value, s.link);
      assert EnsureWeekendChannel(f, w, t, s)
          == OpenChannel(f, ArchivePreviousWeekend(f, w1, t, active.value).value, s.link);
    }
  }

  lemma {:induction false} EnsureCardFine(f: Faults, w: World, s: Session, channel: nat)
    requires FineFrom(f, w.clock)
    ensures var o := EnsurePlaceholderCard(f, w, s, channel);
            && o.Done? && s.uid in o.value.state.cards
            && o.value.state.weekends == w.state.weekends && o.value.clock >= w.clock
  {
    ReadsFine(f, w, 1);
    ReadsFine(f, World(w.state, w.clock + 1), if s.isRace then 1 else 2);
  }

  lemma {:induction false} SessionCardFine(f: Faults, w: World, t: Telemetry)
    requires Inv(w.state) && FineFrom(f, w.clock) && t.latest.Some?
    ensures var s, v := t.latest.value, Caught(SessionCard(f, w, t));
            && v.clock >= w.clock
            && (if Blocked(w.state, s.link) then Leaked(w.state, v.state, s.link)
                else s.uid in v.state.cards && s.link in v.state.weekends && !v.state.weekends[s.link].archived)
  {
    var s := t.latest.value;
    ReadsFine(f, w, 1);
    var w1 := World(w.state, w.clock + 1);
    EnsureChannelFine(f, w1, t, s);
    var o := EnsureWeekendChannel(f, w1, t, s);
    if o.Done? {
      assert ReadyFor(o.value.world.state, s.link, o.value.channel) by {
        EnsureChannelKeeps(f, w1, t, s);
      }
      EnsureCardFine(f, o.value.world, s, o.value.channel);
    }
  }

  lemma {:induction false} FinalizeRowFine(f: Faults, w: World, t: Telemetry, uid: SessionUid)
    requires FineFrom(f, w.clock) && uid in w.state.cards
    ensures var o := FinalizeRow(f, w, t, uid);
            && o.Done? && o.value.clock >= w.clock
            && o.value.state == if uid in t.sessions && IsSessionDone(t, t.sessions[uid])
                                then Finalized(Edited(w.state, uid), uid) else w.state
  {
  }

  lemma {:induction false} FinalizeRowsFine(f: Faults, w: World, t: Telemetry, rows: seq<SessionUid>)
    requires FineFrom(f, w.clock) && forall u :: u in rows ==> u in w.state.cards
    ensures var v := Caught(FinalizeRows(f, w, t, rows)).state;
            && v.weekends == w.state.weekends && v.channels == w.state.channels && v.posts == w.state.posts
            && v.cards.Keys == w.state.cards.Keys
            && (forall u :: u in rows && u in t.sessions && IsSessionDone(t, t.sessions[u]) ==> v.cards[u].finalized)
            && (forall u :: u in w.state.cards && w.state.cards[u].finalized ==> v.cards[u].finalized)
    decreases rows
  {
    if rows != [] {
      FinalizeRowFine(f, w, t, rows[0]);
      var w1 := FinalizeRow(f, w, t, rows[0]).value;
      FinalizeRowsFine(f, w1, t, rows[1..]);
      assert rows == [rows[0]] + rows[1..];
    }
  }

  lemma {:induction false} FinalizePendingFine(f: Faults, w: World, t: Telemetry, order: seq<SessionUid>)
    requires FineFrom(f, w.clock) && NoDup(order)
    ensures var v := Caught(FinalizePendingCards(f, w, t, order)).state;
            && v.weekends == w.state.weekends && v.channels == w.state.channels && v.posts == w.state.posts
            && v.cards.Keys == w.state.cards.Keys
            && (forall u ::
                   u in order && u in v.cards && u in t.sessions && IsSessionDone(t, t.sessions[u])
                   ==> v.cards[u].finalized)
  {
    ReadsFine(f, w, 1);
    var rows := PendingRows(w.state, order);
    PendingRowsFacts(w.state, order);
    FinalizeRowsFine(f, World(w.state, w.clock + 1), t, rows);
    var v := Caught(FinalizePendingCards(f, w, t, order)).state;
    forall u | u in order && u in v.cards && u in t.sessions && IsSessionDone(t, t.sessions[u])
      ensures v.cards[u].finalized
    {
      assert u in rows || w.state.cards[u].finalized;
    }
  }

  /**
   A tick in which nothing fails leaves the latest session tracked in the one active weekend, unless that
   weekend was archived before: then it leaves no weekend active, posts nothing, and leaks a channel, and
   the next tick is no better off.
   */
  lemma {:induction false} FineTickTracksExactlyWhen(f: Faults, w: World, c: Circumstances)
    requires Inv(w.state) && FineFrom(f, w.clock) && c.card.latest.Some? && NoDup(c.order)
    ensures var s, v := c.card.latest.value, Tick(f, w, c).state;
            && (ActiveWeekend(v) == Some(s.link) <==> !Blocked(w.state, s.link))
            && (!Blocked(w.state, s.link) ==> s.uid in v.cards)
            && (Blocked(w.state, s.link)
                ==> v.posts == w.state.posts && v.channels == w.state.channels + 1
                    && Blocked(v, s.link) && ActiveWeekend(v) == None)
  {
    var s, v := c.card.latest.value, Caught(SessionCard(f, w, c.card));
    SessionCardFine(f, w, c.card);
    TickKeeps(f, w, c);
    FinalizePendingFine(f, v, c.final, c.order);
    if !Blocked(w.state, s.link) {
      ActiveIs(Tick(f, w, c).state, s.link);
    } else {
      NoneActive(v.state, Tick(f, w, c).state);
    }
  }

  // ---------------------------------------------------------------------------------------------
  // Which cards are finalized
  // ---------------------------------------------------------------------------------------------

  /** Another session of the weekend is the latest, or nothing was heard of the session for over a minute. */
  ghost predicate IsOver(t: Telemetry, s: Session) {
    || (t.latest.Some? && t.latest.value.link == s.link && t.latest.value.uid != s.uid)
    || (s.uid in t.silence && t.silence[s.uid] > 60000)
  }

  ghost predicate KnownOver(t: Telemetry, u: SessionUid) {
    u in t.sessions && IsOver(t, t.sessions[u])
  }

  /** The edits of a tracked card's message. */
  ghost function EditsOf(s: State, u: SessionUid): nat
    requires u in s.cards
  {
    multiset(s.edits)[s.cards[u].message]
  }

  /** A card neither finalized nor edited. */
  ghost predicate Spared(v: State, w: State, u: SessionUid)
    requires u in v.cards
  {
    u in w.cards && w.cards[u] == v.cards[u] && EditsOf(w, u) == EditsOf(v, u)
  }

  /** A card edited once more and finalized. */
  ghost predicate Closed(v: State, w: State, u: SessionUid)
    requires u in v.cards
  {
    u in w.cards && w.cards[u] == v.cards[u].(finalized := true) && EditsOf(w, u) == EditsOf(v, u) + 1
  }

  /** Looking for the latest session's card touches no other. */
  lemma {:induction false} CardStepSpares(f: Faults, w: World, s: Session, channel: nat, u: SessionUid)
    ensures var v := Caught(EnsurePlaceholderCard(f, w, s, channel)).state;
            && (u in w.state.cards ==> Spared(w.state, v, u))
            && (u in v.cards && u !in w.state.cards ==> !v.cards[u].finalized)
            && v.edits == w.state.edits
  {
    var p := Post(s.uid, s.link, channel);
    var r := Reads(f, w, 1);
    if r.Done? && s.uid !in w.state.cards {
      var r2 := Reads(f, r.value, if s.isRace then 1 else 2);
      if r2.Done? {
        PostOutcomes(f, r2.value, p);
      }
    }
  }

  lemma {:induction false} ArchiveSpares(f: Faults, w: World, t: Telemetry, link: Link)
    requires link in w.state.weekends
    ensures var v := Caught(ArchivePreviousWeekend(f, w, t, link)).state;
            v.cards == w.state.cards && v.edits == w.state.edits
  {
  }

  lemma {:induction false} ChannelStepSpares(f: Faults, w: World, t: Telemetry, s: Session)
    ensures var v := CaughtReady(EnsureWeekendChannel(f, w, t, s)).state;
            v.cards == w.state.cards && v.edits == w.state.edits
  {
    var r, active := Reads(f, w, 1), ActiveWeekend(w.state);
    if r.Done? && active.Some? && active.value != s.link {
      ArchiveSpares(f, r.value, t, active.value);
    }
  }

  lemma {:induction false} SessionCardSpares(f: Faults, w: World, t: Telemetry, u: SessionUid)
    ensures var v := Caught(SessionCard(f, w, t)).state;
            && (u in w.state.cards ==> Spared(w.state, v, u))
            && (u in v.cards && u !in w.state.cards ==> !v.cards[u].finalized)
            && v.edits == w.state.edits
  {
    var r := Reads(f, w, 1);
    if r.Done? && t.latest.Some? {
      ChannelStepSpares(f, r.value, t, t.latest.value);
      var o := EnsureWeekendChannel(f, r.value, t, t.latest.value);
      if o.Done? {
        CardStepSpares(f, o.value.world, t.latest.value, o.value.channel, u);
      }
    }
  }

  /** No two cards are one message. */
  lemma {:induction false} OwnMessages(s: State, u: SessionUid, x: SessionUid)
    requires CardsArePosts(s) && u in s.cards && x in s.cards && u != x
    ensures s.cards[u].message != s.cards[x].message
  {
    assert PostedAs(s.posts, u, s.cards[u]) && PostedAs(s.posts, x, s.cards[x]);
  }

  /** A row's turn touches that row's card alone, and only if its session is over. */
  lemma {:induction false} RowSpares(f: Faults, w: World, t: Telemetry, x: SessionUid, u: SessionUid)
    requires CardsArePosts(w.state) && x in w.state.cards && u in w.state.cards
    ensures var v := Caught(FinalizeRow(f, w, t, x)).state;
            Spared(w.state, v, u) || (u == x && KnownOver(t, u))
  {
    FinalizeOutcomes(f, w, t, x);
    var v := Caught(FinalizeRow(f, w, t, x)).state;
    if u != x {
      OwnMessages(w.state, u, x);
    } else if !KnownOver(t, u) {
      NotOverIsLeft(f, w, t, u);
    }
  }

  lemma {:induction false} NotOverIsLeft(f: Faults, w: World, t: Telemetry, u: SessionUid)
    requires u in w.state.cards && !KnownOver(t, u)
    ensures Caught(FinalizeRow(f, w, t, u)).state == w.state
  {
  }

  /** Whatever fails: only cards whose session is over are edited or finalized. */
  lemma {:induction false} RowsSpare(f: Faults, w: World, t: Telemetry, rows: seq<SessionUid>, u: SessionUid)
    requires Inv(w.state) && AllPending(w.state, rows) && u in w.state.cards
    ensures var v := Caught(FinalizeRows(f, w, t, rows)).state;
            Spared(w.state, v, u) || (u in rows && KnownOver(t, u))
    decreases rows
  {
    if rows != [] {
      FinalizeRowKeeps(f, w, t, rows[0]);
      OthersStayPending(f, w, t, rows[0]);
      RowSpares(f, w, t, rows[0], u);
      var o := FinalizeRow(f, w, t, rows[0]);
      if o.Done? {
        forall x | x in rows[1..]
          ensures IsPending(o.value.state, x)
        {
          assert x != rows[0];
        }
        RowsSpare(f, o.value, t, rows[1..], u);
      }
    }
  }

  /** Whatever fails in a tick: a card it edits or finalizes is of a session that is over. */
  lemma {:induction false} TickFinalizesOnlyWhatIsOver(f: Faults, w: World, c: Circumstances, u: SessionUid)
    requires Inv(w.state) && NoDup(c.order)
    ensures var v := Tick(f, w, c).state;
            && (u in w.state.cards ==> Spared(w.state, v, u) || (u in c.order && KnownOver(c.final, u)))
            && (u in v.cards && u !in w.state.cards && v.cards[u].finalized ==> KnownOver(c.final, u))
  {
    var s := Caught(SessionCard(f, w, c.card));
    SessionCardKeeps(f, w, c.card);
    SessionCardSpares(f, w, c.card, u);
    var r := Reads(f, s, 1);
    if r.Done? {
      PendingRowsFacts(s.state, c.order);
      if u in s.state.cards {
        RowsSpare(f, r.value, c.final, PendingRows(s.state, c.order), u);
      } else {
        RowsAddNone(f, r.value, c.final, PendingRows(s.state, c.order));
      }
    }
  }

  lemma {:induction false} RowsAddNone(f: Faults, w: World, t: Telemetry, rows: seq<SessionUid>)
    ensures Caught(FinalizeRows(f, w, t, rows)).state.cards.Keys == w.state.cards.Keys
    decreases rows
  {
    if rows != [] {
      if rows[0] in w.state.cards {
        FinalizeOutcomes(f, w, t, rows[0]);
        var o := FinalizeRow(f, w, t, rows[0]);
        if o.Done? {
          RowsAddNone(f, o.value, t, rows[1..]);
        }
      } else {
        RowsAddNone(f, w, t, rows[1..]);
      }
    }
  }

  lemma {:induction false} RowFineCloses(f: Faults, w: World, t: Telemetry, u: SessionUid)
    requires FineFrom(f, w.clock) && u in w.state.cards
    ensures var o := FinalizeRow(f, w, t, u);
            && o.Done? && o.value.clock >= w.clock
            && if KnownOver(t, u) then Closed(w.state, o.value.state, u) else o.value.state == w.state
  {
    FinalizeRowFine(f, w, t, u);
  }

  /** From `v` to `w` the card is closed, or left alone. */
  ghost predicate Ends(v: State, w: State, u: SessionUid, closed: bool) {
    u in v.cards && if closed then Closed(v, w, u) else Spared(v, w, u)
  }

  lemma {:induction false} EndsThen(a: State, b: State, c: State, u: SessionUid, now: bool, later: bool)
    requires Ends(a, b, u, now) && Ends(b, c, u, later) && !(now && later)
    ensures Ends(a, c, u, now || later)
  {
  }

  lemma {:induction false} RowFineEnds(f: Faults, w: World, t: Telemetry, x: SessionUid, u: SessionUid)
    requires FineFrom(f, w.clock) && Inv(w.state) && x in w.state.cards && u in w.state.cards
    ensures var o := FinalizeRow(f, w, t, x);
            && o.Done? && o.value.clock >= w.clock
            && Ends(w.state, o.value.state, u, u == x && KnownOver(t, u))
  {
    RowFineCloses(f, w, t, x);
    if u != x {
      RowSpares(f, w, t, x, u);
    }
  }

  lemma {:induction false} RowsFineClose(f: Faults, w: World, t: Telemetry, rows: seq<SessionUid>, u: SessionUid)
    requires FineFrom(f, w.clock) && Inv(w.state) && AllPending(w.state, rows) && u in w.state.cards
    ensures Ends(w.state, Caught(FinalizeRows(f, w, t, rows)).state, u, u in rows && KnownOver(t, u))
    decreases rows
  {
    if rows != [] {
      var x := rows[0];
      assert IsPending(w.state, x);
      RowFineEnds(f, w, t, x, u);
      FinalizeRowKeeps(f, w, t, x);
      var w1 := FinalizeRow(f, w, t, x).value;
      RestPending(f, w, t, rows);
      RowsFineClose(f, w1, t, rows[1..], u);
      assert rows == [x] + rows[1..];
      assert u in rows <==> u == x || u in rows[1..];
      EndsThen(w.state, w1.state, Caught(FinalizeRows(f, w1, t, rows[1..])).state, u,
               u == x && KnownOver(t, u), u in rows[1..] && KnownOver(t, u));
    }
  }

  lemma {:induction false} RestPending(f: Faults, w: World, t: Telemetry, rows: seq<SessionUid>)
    requires rows != [] && AllPending(w.state, rows) && rows[0] in w.state.cards
    ensures AllPending(Caught(FinalizeRow(f, w, t, rows[0])).state, rows[1..]) && rows[0] !in rows[1..]
  {
    OthersStayPending(f, w, t, rows[0]);
    forall y | y in rows[1..]
      ensures y != rows[0] && IsPending(Caught(FinalizeRow(f, w, t, rows[0])).state, y)
    {
    }
  }

  /**
   A tick in which nothing fails edits and finalizes a card that was tracked and not final exactly when another
   session of its weekend is the latest or nothing was heard of its own for over a minute; else it leaves the card
   and its message alone.
   */
  lemma {:induction false} FineTickFinalizesExactlyWhen(f: Faults, w: World, c: Circumstances, u: SessionUid)
    requires Inv(w.state) && FineFrom(f, w.clock) && NoDup(c.order)
    requires u in w.state.cards && !w.state.cards[u].finalized && u in c.order && u in c.final.sessions
    ensures var v := Tick(f, w, c).state;
            if IsOver(c.final, c.final.sessions[u]) then Closed(w.state, v, u) else Spared(w.state, v, u)
  {
    var s := Caught(SessionCard(f, w, c.card));
    SessionCardMovesOn(f, w, c.card);
    SessionCardKeeps(f, w, c.card);
    SessionCardSpares(f, w, c.card, u);
    PendingFineClose(f, s, c.final, c.order, u);
    assert Tick(f, w, c) == Caught(FinalizePendingCards(f, s, c.final, c.order));
  }

  /** A tick in which nothing fails finalizes every tracked card whose session is over. */
  lemma {:induction false} FineTickFinalizes(f: Faults, w: World, c: Circumstances, u: SessionUid)
    requires Inv(w.state) && FineFrom(f, w.clock) && NoDup(c.order)
    requires u in w.state.cards && u in c.order && KnownOver(c.final, u)
    ensures var v := Tick(f, w, c).state;
            u in v.cards && v.cards[u].finalized
  {
    if w.state.cards[u].finalized {
      TickKeeps(f, w, c);
    } else {
      FineTickFinalizesExactlyWhen(f, w, c, u);
    }
  }

  lemma {:induction false} PendingFineClose(f: Faults, w: World, t: Telemetry, order: seq<SessionUid>, u: SessionUid)
    requires FineFrom(f, w.clock) && Inv(w.state) && NoDup(order)
    requires u in order && u in w.state.cards && !w.state.cards[u].finalized
    ensures var v := Caught(FinalizePendingCards(f, w, t, order)).state;
            if KnownOver(t, u) then Closed(w.state, v, u) else Spared(w.state, v, u)
  {
    ReadsFine(f, w, 1);
    PendingRowsFacts(w.state, order);
    RowsFineClose(f, World(w.state, w.clock + 1), t, PendingRows(w.state, order), u);
  }

  lemma {:induction false} SessionCardMovesOn(f: Faults, w: World, t: Telemetry)
    requires Inv(w.state) && FineFrom(f, w.clock)
    ensures Caught(SessionCard(f, w, t)).clock >= w.clock
  {
    if t.latest.Some? {
      SessionCardFine(f, w, t);
    } else {
      ReadsFine(f, w, 1);
    }
  }

  // ---------------------------------------------------------------------------------------------
  // Returning to a weekend
  // ---------------------------------------------------------------------------------------------

  /** A tick that finds `s` the latest session, and nothing to finalize. */
  function Finding(s: Session): Circumstances {
    Circumstances(Telemetry(Some(s), map[], map[]), Telemetry(Some(s), map[], map[]), [])
  }

  lemma {:induction false} PendingMovesOn(f: Faults, w: World, t: Telemetry, order: seq<SessionUid>)
    requires FineFrom(f, w.clock)
    ensures Caught(FinalizePendingCards(f, w, t, order)).clock >= w.clock
  {
    ReadsFine(f, w, 1);
    FinalizeRowsAreHarmless(f, World(w.state, w.clock + 1), t, PendingRows(w.state, order));
  }

  lemma {:induction false} TickMovesOn(f: Faults, w: World, c: Circumstances)
    requires FineFrom(f, w.clock) && Inv(w.state)
    ensures Tick(f, w, c).clock >= w.clock
  {
    SessionCardMovesOn(f, w, c.card);
    PendingMovesOn(f, Caught(SessionCard(f, w, c.card)), c.final, c.order);
  }

  /** Leaving the active weekend for another that is not blocked blocks it. */
  lemma {:induction false} LeavingBlocks(f: Faults, w: World, c: Circumstances, left: Link)
    requires Inv(w.state) && FineFrom(f, w.clock) && ActiveWeekend(w.state) == Some(left) && NoDup(c.order)
    requires c.card.latest.Some? && c.card.latest.value.link != left && !Blocked(w.state, c.card.latest.value.link)
    ensures Blocked(Tick(f, w, c).state, left)
  {
    FineTickTracksExactlyWhen(f, w, c);
    TickKeeps(f, w, c);
  }

  lemma {:induction false} RunSnoc(f: Faults, ticks: seq<Circumstances>, c: Circumstances)
    ensures Run(f, ticks + [c]) == Tick(f, Run(f, ticks), c)
  {
    assert (ticks + [c])[..|ticks|] == ticks;
  }

  lemma {:induction false} FirstWeekend(f: Faults, s: Session) returns (w: World)
    requires FineFrom(f, 0)
    ensures w == Run(f, [] + [Finding(s)])
    ensures Inv(w.state) && FineFrom(f, w.clock)
    ensures ActiveWeekend(w.state) == Some(s.link) && w.state.weekends.Keys <= {s.link}
  {
    w := Tick(f, Blank(), Finding(s));
    RunSnoc(f, [], Finding(s));
    FineTickTracksExactlyWhen(f, Blank(), Finding(s));
    TickKeeps(f, Blank(), Finding(s));
    TickMovesOn(f, Blank(), Finding(s));
    OnlyOwnWeekend(f, Blank(), Finding(s));
  }

  /** A tick opens no weekend but the latest session's. */
  lemma {:induction false} OnlyOwnWeekend(f: Faults, w: World, c: Circumstances)
    requires Inv(w.state) && FineFrom(f, w.clock) && c.card.latest.Some? && NoDup(c.order)
    ensures Tick(f, w, c).state.weekends.Keys <= w.state.weekends.Keys + {c.card.latest.value.link}
  {
    SessionCardFine(f, w, c.card);
    SessionCardWeekends(f, w, c.card);
    FinalizePendingFine(f, Caught(SessionCard(f, w, c.card)), c.final, c.order);
  }

  lemma {:induction false} SessionCardWeekends(f: Faults, w: World, t: Telemetry)
    requires t.latest.Some?
    ensures Caught(SessionCard(f, w, t)).state.weekends.Keys <= w.state.weekends.Keys + {t.latest.value.link}
  {
    var r := Reads(f, w, 1);
    if r.Done? {
      EnsureChannelWeekends(f, r.value, t, t.latest.value);
      var o := EnsureWeekendChannel(f, r.value, t, t.latest.value);
      if o.Done? {
        EnsureCardWeekends(f, o.value.world, t.latest.value, o.value.channel);
      }
    }
  }

  lemma {:induction false} EnsureCardWeekends(f: Faults, w: World, s: Session, channel: nat)
    ensures Caught(EnsurePlaceholderCard(f, w, s, channel)).state.weekends == w.state.weekends
  {
  }

  lemma {:induction false} EnsureChannelWeekends(f: Faults, w: World, t: Telemetry, s: Session)
    ensures CaughtReady(EnsureWeekendChannel(f, w, t, s)).state.weekends.Keys <= w.state.weekends.Keys + {s.link}
  {
    var r, active := Reads(f, w, 1), ActiveWeekend(w.state);
    if r.Done? && active != Some(s.link) {
      if active.Some? {
        var a := ArchivePreviousWeekend(f, r.value, t, active.value);
        ArchiveOutcomes(f, r.value, t, active.value);
        if a.Done? {
          OpenOutcomes(f, a.value, s.link);
        }
      } else {
        OpenOutcomes(f, r.value, s.link);
      }
    }
  }

  lemma {:induction false} SecondWeekend(f: Faults, ticks: seq<Circumstances>, w: World, s: Session, a: Link)
    returns (v: World)
    requires w == Run(f, ticks) && Inv(w.state) && FineFrom(f, w.clock) && ActiveWeekend(w.state) == Some(a)
    requires s.link != a && !Blocked(w.state, s.link)
    ensures v == Run(f, ticks + [Finding(s)]) && Inv(v.state) && FineFrom(f, v.clock) && Blocked(v.state, a)
  {
    v := Tick(f, w, Finding(s));
    RunSnoc(f, ticks, Finding(s));
    LeavingBlocks(f, w, Finding(s), a);
    TickKeeps(f, w, Finding(s));
    TickMovesOn(f, w, Finding(s));
  }

  lemma {:induction false} Return(f: Faults, ticks: seq<Circumstances>, w: World, s: Session) returns (v: World)
    requires w == Run(f, ticks) && Inv(w.state) && FineFrom(f, w.clock) && Blocked(w.state, s.link)
    ensures v == Run(f, ticks + [Finding(s)])
    ensures v.state.posts == w.state.posts && v.state.channels == w.state.channels + 1
    ensures Blocked(v.state, s.link) && ActiveWeekend(v.state) == None
  {
    v := Tick(f, w, Finding(s));
    RunSnoc(f, ticks, Finding(s));
    FineTickTracksExactlyWhen(f, w, Finding(s));
  }

  /**
   A blocked weekend does arise: when nothing fails, a session of weekend `a`, then one of weekend `b`, leave
   `a` blocked, and a further session of `a` gets no card while its tick costs a channel.
   */
  lemma {:induction false} ReturningIsBlocked(f: Faults, s1: Session, s2: Session, s3: Session)
      returns (two: World, three: World)
    requires FineFrom(f, 0) && s2.link != s1.link == s3.link
    ensures two == Run(f, [Finding(s1), Finding(s2)]) && three == Run(f, [Finding(s1), Finding(s2), Finding(s3)])
    ensures Blocked(two.state, s1.link)
    ensures three.state.posts == two.state.posts && three.state.channels == two.state.channels + 1
    ensures Blocked(three.state, s1.link) && ActiveWeekend(three.state) == None
  {
    var one := FirstWeekend(f, s1);
    two := SecondWeekend(f, [] + [Finding(s1)], one, s2, s1.link);
    three := Return(f, [] + [Finding(s1)] + [Finding(s2)], two, s3);
    assert [] + [Finding(s1)] + [Finding(s2)] == [Finding(s1), Finding(s2)];
    assert [] + [Finding(s1)] + [Finding(s2)] + [Finding(s3)] == [Finding(s1), Finding(s2), Finding(s3)];
  }
}
