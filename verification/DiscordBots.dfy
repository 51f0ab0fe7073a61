/** The bot itself: tables and Discord changed await by await, every method as the model of the tick says. */
module DiscordBots {
  import opened Options
  import opened Recency
  import opened BotTick

  class DiscordBot {
    const faults: Faults
    var weekends: map<Link, Weekend>
    var cards: map<SessionUid, Card>
    var channels: nat
    var renamed: set<nat>
    var posts: seq<Post>
    var edits: seq<nat>
    ghost var untracked: seq<Mishap>
    var clock: nat

    ghost function Contents(): World
      reads this
    {
      World(State(weekends, cards, channels, renamed, posts, edits, untracked), clock)
    }

    /** The method ended as the outcome says: normally, or by an exception. */
    ghost predicate Ended(o: Outcome<World>, ok: bool)
      reads this
    {
      o == if ok then Done(Contents()) else Threw(Contents())
    }

    constructor (faults: Faults)
      ensures this.faults == faults && Contents() == Blank()
    {
      this.faults := faults;
      weekends, cards, channels, renamed := map[], map[], 0, {};
      posts, edits, untracked, clock := [], [], [], 0;
    }

    /** The next await: whether its effect happens, and whether it returns. */
    method Await() returns (happens: bool, ok: bool)
      modifies this`clock
      ensures clock == old(clock) + 1
      ensures happens == (faults(old(clock)) != Refused) && ok == (faults(old(clock)) == Fine)
    {
      happens, ok := faults(clock) != Refused, faults(clock) == Fine;
      clock := clock + 1;
    }

    method Read() returns (ok: bool)
      modifies this`clock
      ensures Ended(Reads(faults, old(Contents()), 1), ok)
    {
      var happens;
      happens, ok := Await();
    }

    method ReadTwice() returns (ok: bool)
      modifies this`clock
      ensures Ended(Reads(faults, old(Contents()), 2), ok)
    {
      ok := Read();
      if ok {
        ok := Read();
      }
    }

    method RenameChannel(channel: nat) returns (ok: bool)
      modifies this`renamed, this`clock
      ensures Ended(Effect(faults, old(Contents()), Renamed(old(Contents()).state, channel)), ok)
    {
      var happens;
      happens, ok := Await();
      if happens {
        renamed := renamed + {channel};
      }
    }

    method MarkArchived(link: Link) returns (ok: bool)
      requires link in weekends
      modifies this`weekends, this`clock
      ensures Ended(Effect(faults, old(Contents()), Archived(old(Contents()).state, link)), ok)
    {
      var happens;
      happens, ok := Await();
      if happens {
        weekends := weekends[link := weekends[link].(archived := true)];
      }
    }

    method ArchivePreviousWeekend(t: Telemetry, link: Link) returns (ok: bool)
      requires link in weekends
      modifies this`weekends, this`renamed, this`clock
      ensures Ended(BotTick.ArchivePreviousWeekend(faults, old(Contents()), t, link), ok)
    {
      if exists u :: u in t.sessions && t.sessions[u].link == link {
        ok := ReadTwice();
      } else {
        ok := Read();
      }
      if !ok {
        return;
      }
      ok := RenameChannel(weekends[link].channel);
      if ok {
        ok := MarkArchived(link);
      }
    }

    method OpenChannel(link: Link) returns (ok: bool, channel: nat)
      modifies this`weekends, this`channels, this`clock
      ensures ok ==> BotTick.OpenChannel(faults, old(Contents()), link) == Done(Ready(Contents(), channel))
      ensures !ok ==> BotTick.OpenChannel(faults, old(Contents()), link) == Threw(Contents())
    {
      var happens;
      channel := channels;
      happens, ok := Await();
      if happens {
        channels := channels + 1;
      }
      if !ok {
        return;
      }
      happens, ok := Await();
      if link in weekends {
        ok := false;
      } else if happens {
        weekends := weekends[link := Weekend(channel, false)];
      }
    }

    method EnsureWeekendChannel(t: Telemetry, s: Session) returns (ok: bool, channel: nat)
      requires OneActiveWeekend(Contents().state)
      modifies this`weekends, this`channels, this`renamed, this`clock
      ensures ok ==> BotTick.EnsureWeekendChannel(faults, old(Contents()), t, s) == Done(Ready(Contents(), channel))
      ensures !ok ==> BotTick.EnsureWeekendChannel(faults, old(Contents()), t, s) == Threw(Contents())
    {
      channel := 0;
      ok := Read();
      if !ok {
        return;
      }
      if active :| active in weekends && !weekends[active].archived {
        ActiveIs(Contents().state, active);
        if active == s.link {
          channel := weekends[active].channel;
          return;
        }
        ok := ArchivePreviousWeekend(t, active);
        if !ok {
          return;
        }
      }
      ok, channel := OpenChannel(s.link);
    }

    /** Post the card and record its row. */
    method PostAndTrack(p: Post) returns (ok: bool)
      modifies this`cards, this`posts, this`untracked, this`clock
      ensures Ended(BotTick.PostAndTrack(faults, old(Contents()), p), ok)
    {
      var happens;
      var message := |posts|;
      happens, ok := Await();
      if happens {
        posts := posts + [p];
        untracked := if ok then untracked else untracked + [Mishap(p.uid, clock - 1)];
      }
      if !ok {
        return;
      }
      happens, ok := Await();
      if !happens || p.uid in cards {
        untracked := untracked + [Mishap(p.uid, clock - 1)];
        ok := false;
      } else {
        cards := cards[p.uid := Card(p.channel, message, false)];
      }
    }

    method EnsurePlaceholderCard(s: Session, channel: nat) returns (ok: bool)
      modifies this`cards, this`posts, this`untracked, this`clock
      ensures Ended(BotTick.EnsurePlaceholderCard(faults, old(Contents()), s, channel), ok)
    {
      ok := Read();
      if !ok || s.uid in cards {
        return;
      }
      if s.isRace {
        ok := Read();
      } else {
        ok := ReadTwice();
      }
      if !ok {
        return;
      }
      ok := PostAndTrack(Post(s.uid, s.link, channel));
    }

    method SessionCard(t: Telemetry)
      requires Inv(Contents().state)
      modifies this
      ensures Contents() == Caught(BotTick.SessionCard(faults, old(Contents()), t))
    {
      var ok := Read();
      if !ok || t.latest.None? {
        return;
      }
      var channel;
      ok, channel := EnsureWeekendChannel(t, t.latest.value);
      if ok {
        ok := EnsurePlaceholderCard(t.latest.value, channel);
      }
    }

    method EditAndFinalize(uid: SessionUid) returns (ok: bool)
      requires uid in cards
      modifies this`cards, this`edits, this`clock
      ensures Ended(BotTick.EditAndFinalize(faults, old(Contents()), uid), ok)
    {
      var happens;
      happens, ok := Await();
      if happens {
        edits := edits + [cards[uid].message];
      }
      if !ok {
        return;
      }
      happens, ok := Await();
      if happens {
        cards := cards[uid := cards[uid].(finalized := true)];
      }
    }

    method FinalizeRow(t: Telemetry, uid: SessionUid) returns (ok: bool)
      requires uid in cards
      modifies this`cards, this`edits, this`clock
      ensures Ended(BotTick.FinalizeRow(faults, old(Contents()), t, uid), ok)
    {
      ok := Read();
      if !ok || uid !in t.sessions {
        return;
      }
      var s := t.sessions[uid];
      if SupersededBy(s, t.latest) {
        ok := Read();
      } else {
        ok := ReadTwice();
      }
      if !ok || !IsSessionDone(t, s) {
        return;
      }
      ok := ReadTwice();
      if ok {
        ok := EditAndFinalize(uid);
      }
    }

    method FinalizePendingCards(t: Telemetry, order: seq<SessionUid>)
      modifies this`cards, this`edits, this`clock
      ensures Contents() == Caught(BotTick.FinalizePendingCards(faults, old(Contents()), t, order))
    {
      var ok := Read();
      if !ok {
        return;
      }
      ghost var all := FinalizeRows(faults, Contents(), t, PendingRows(Contents().state, order));
      var rows := PendingRows(State(weekends, cards, channels, renamed, posts, edits, []), order);
      PendingRowsCards(State(weekends, cards, channels, renamed, posts, edits, []), Contents().state, order);
      for i := 0 to |rows|
        invariant FinalizeRows(faults, Contents(), t, rows[i..]) == all
      {
        assert rows[i..][1..] == rows[i + 1..];
        if rows[i] in cards {
          ok := FinalizeRow(t, rows[i]);
          if !ok {
            return;
          }
        }
      }
    }

    /** One cron tick: a step that throws does not keep the other from running. */
    method Tick(c: Circumstances)
      requires Inv(Contents().state) && NoDup(c.order)
      modifies this
      ensures Contents() == BotTick.Tick(faults, old(Contents()), c)
      ensures Leads(old(Contents()).state, Contents().state)
    {
      TickKeeps(faults, Contents(), c);
      SessionCard(c.card);
      FinalizePendingCards(c.final, c.order);
    }
  }

  lemma {:induction false} PendingRowsCards(s: State, t: State, order: seq<SessionUid>)
    requires s.cards == t.cards
    ensures PendingRows(s, order) == PendingRows(t, order)
  {
    if order != [] {
      PendingRowsCards(s, t, order[1..]);
    }
  }
}
