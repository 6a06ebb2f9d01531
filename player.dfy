/** The bot's handlers as methods on one object that owns the process-wide
    state: the `queue` dictionary (bot.py:13), the calls issued to the
    voice-call driver, and the lines of the groups file. Each method updates
    the fields in place the way its handler does, and is proved to take the
    transition the Machine module defines for it. */
module Bot {
  import opened Types
  import IdStore
  import Listing
  import Machine

  class Player {
    var queue: map<ChatId, seq<Track>>
    var log: seq<Event>
    var groups: seq<string>

    function State(): Machine.State
      reads this
    {
      Machine.State(queue, log, groups)
    }

    ghost predicate Valid()
      reads this
    {
      Machine.Valid(State())
    }

    /** A fresh process: no queues, no driver calls yet, and the group ids
        already in the groups file. */
    constructor (savedGroups: seq<string>)
      ensures State() == Machine.Initial(savedGroups) && Valid()
    {
      queue := map[];
      log := [];
      groups := savedGroups;
    }

    /** play_command: save the group id, check the query, resolve it, then
        either open a one-entry queue and join the call or append. */
    method Play(chat: ChatId, query: Option<string>, requester: string, audio: Option<Audio>)
      returns (reply: Reply)
      requires Valid()
      modifies this
      ensures Valid()
      ensures Machine.Step(State(), reply) == Machine.Play(old(State()), chat, query, requester, audio)
    {
      ghost var s0 := State();
      groups := IdStore.SaveId(groups, chat);
      if query.None? || query.value == "" {
        reply := AskForQuery;
      } else if audio.None? {
        reply := ResolveFailed;
      } else {
        var t := MakeTrack(audio.value, requester);
        if chat !in queue {
          queue := queue[chat := [t]];
          log := log + [Join(chat, t.url)];
          reply := NowPlaying(Machine.Card(t));
        } else {
          queue := queue[chat := queue[chat] + [t]];
          reply := AddedToQueue(t.title);
        }
      }
      Machine.ApplyKeepsValid(s0, Machine.PlayCmd(chat, query, requester, audio));
    }

    /** Drop the head of a chat's queue and switch the stream to the new
        head; the step both skip paths share. */
    method PopAndChangeStream(chat: ChatId) returns (next: Track)
      requires Machine.CanSkip(queue, chat)
      modifies this
      ensures State() == Machine.Advance(old(State()), chat)
      ensures next == old(queue)[chat][1]
    {
      queue := queue[chat := queue[chat][1..]];
      next := queue[chat][0];
      log := log + [ChangeStream(chat, next.url)];
    }

    /** The /skip command; `isAdmin` is the chat-member status lookup. */
    method Skip(chat: ChatId, isAdmin: bool) returns (reply: Reply)
      requires Valid()
      modifies this
      ensures Valid()
      ensures Machine.Step(State(), reply) == Machine.Skip(old(State()), chat, isAdmin)
    {
      ghost var s0 := State();
      if !isAdmin {
        reply := OnlyAdmins;
      } else if chat in queue && |queue[chat]| > 1 {
        var next := PopAndChangeStream(chat);
        reply := SkippedTo(next.title);
      } else {
        reply := NoSongToSkip;
      }
      Machine.ApplyKeepsValid(s0, Machine.SkipCmd(chat, isAdmin));
    }

    /** cb_handler: the inline buttons of the now-playing card. */
    method Button(chat: ChatId, data: string) returns (reply: Reply)
      requires Valid()
      modifies this
      ensures Valid()
      ensures Machine.Step(State(), reply) == Machine.Button(old(State()), chat, data)
    {
      ghost var s0 := State();
      if data == "skip" {
        if chat in queue && |queue[chat]| > 1 {
          var next := PopAndChangeStream(chat);
          reply := NowPlaying(Machine.Card(next));
        } else {
          reply := NoMoreSongs;
        }
      } else if data == "pause" {
        log := log + [Pause(chat)];
        reply := Paused;
      } else if data == "resume" {
        log := log + [Resume(chat)];
        reply := Resumed;
      } else if data == "close" {
        reply := Closed;
      } else {
        reply := NoReply;
      }
      Machine.ApplyKeepsValid(s0, Machine.ButtonCmd(chat, data));
    }

    /** /stop: leave the call, then remove the chat's key if present. */
    method Stop(chat: ChatId) returns (reply: Reply)
      requires Valid()
      modifies this
      ensures Valid()
      ensures Machine.Step(State(), reply) == Machine.Stop(old(State()), chat)
    {
      ghost var s0 := State();
      log := log + [Leave(chat)];
      queue := queue - {chat};
      reply := Stopped;
      Machine.ApplyKeepsValid(s0, Machine.StopCmd(chat));
    }

    /** show_queue: builds the listing line by line, reading the queue only. */
    method ShowQueue(chat: ChatId) returns (reply: Reply)
      ensures reply == Machine.QueueReply(queue, chat)
      ensures reply.QueueListing? ==>
        chat in queue && reply.text == Listing.Header + Listing.Concat(Listing.Lines(queue[chat]))
    {
      if chat !in queue || queue[chat] == [] {
        return QueueIsEmpty;
      }
      var entries := queue[chat];
      var text := Listing.Header;
      var i := 0;
      while i < |entries|
        invariant 0 <= i <= |entries|
        invariant text == Listing.QueueText(entries[..i])
      {
        Listing.QueueTextAppend(entries[..i], entries[i]);
        assert entries[..i + 1] == entries[..i] + [entries[i]];
        text := text + Listing.EntryLine(i + 1, entries[i]);
        i := i + 1;
      }
      assert entries[..i] == entries;
      reply := QueueListing(text);
    }
  }
}
