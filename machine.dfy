/** The handlers of the bot as pure transitions over the whole process
    state: the global `queue` dictionary, the driver calls made so far, and
    the lines of the groups file. Each transition returns the new state and
    the reply the handler sends. */
module Machine {
  import opened Types
  import Text
  import IdStore
  import Listing

  datatype State = State(queue: map<ChatId, seq<Track>>, log: seq<Event>, groups: seq<string>)

  datatype Step = Step(state: State, reply: Reply)

  /** No entry of a chat other than `chat` differs between q and q'. */
  ghost predicate SameElsewhere(q: map<ChatId, seq<Track>>, q': map<ChatId, seq<Track>>, chat: ChatId)
  {
    forall c :: c != chat ==> (c in q <==> c in q') && (c in q ==> q[c] == q'[c])
  }

  /** /play without an argument: `not query` holds for None and for "". */
  predicate MissingQuery(query: Option<string>)
  {
    query.None? || query.value == ""
  }

  /** format_now_playing applied to a queue entry, as /play and the skip
      button send it. */
  function Card(t: Track): string
  {
    Text.NowPlayingText(t.title, t.duration, t.requester)
  }

  /** The guard both skip paths share: more than one entry is queued. */
  predicate CanSkip(q: map<ChatId, seq<Track>>, chat: ChatId)
  {
    chat in q && |q[chat]| > 1
  }

  /** Drop the head and switch the stream to the new head. */
  function Advance(s: State, chat: ChatId): (r: State)
    requires CanSkip(s.queue, chat)
    ensures chat in r.queue && |r.queue[chat]| == |s.queue[chat]| - 1
    ensures r.queue[chat][0] == s.queue[chat][1]
    ensures forall k :: 0 <= k < |r.queue[chat]| ==> r.queue[chat][k] == s.queue[chat][k + 1]
    ensures SameElsewhere(s.queue, r.queue, chat)
    ensures r.log == s.log + [ChangeStream(chat, s.queue[chat][1].url)]
    ensures r.groups == s.groups
  {
    var rest := s.queue[chat][1..];
    s.(queue := s.queue[chat := rest], log := s.log + [ChangeStream(chat, rest[0].url)])
  }

  /** play_command (bot.py:60-82). The group id is saved first; a missing
      query or a failed resolution then leaves queue and driver untouched. */
  function Play(s: State, chat: ChatId, query: Option<string>, requester: string,
                audio: Option<Audio>): (r: Step)
    ensures r.state.groups == IdStore.SaveId(s.groups, chat)
    ensures SameElsewhere(s.queue, r.state.queue, chat)
    ensures MissingQuery(query) ==>
      r.reply == AskForQuery && r.state.queue == s.queue && r.state.log == s.log
    ensures !MissingQuery(query) && audio.None? ==>
      r.reply == ResolveFailed && r.state.queue == s.queue && r.state.log == s.log
    ensures !MissingQuery(query) && audio.Some? && chat !in s.queue ==>
      var t := MakeTrack(audio.value, requester);
      && r.state.queue == s.queue[chat := [t]]
      && r.state.log == s.log + [Join(chat, audio.value.url)]
      && r.reply == NowPlaying(Card(t))
    ensures !MissingQuery(query) && audio.Some? && chat in s.queue ==>
      && chat in r.state.queue
      && |r.state.queue[chat]| == |s.queue[chat]| + 1
      && r.state.queue[chat][..|s.queue[chat]|] == s.queue[chat]
      && r.state.queue[chat][|s.queue[chat]|] == MakeTrack(audio.value, requester)
      && r.state.log == s.log
      && r.reply == AddedToQueue(audio.value.title)
  {
    var s := s.(groups := IdStore.SaveId(s.groups, chat));
    if MissingQuery(query) then Step(s, AskForQuery)
    else if audio.None? then Step(s, ResolveFailed)
    else
      var t := MakeTrack(audio.value, requester);
      if chat !in s.queue then
        Step(s.(queue := s.queue[chat := [t]], log := s.log + [Join(chat, t.url)]), NowPlaying(Card(t)))
      else
        Step(s.(queue := s.queue[chat := s.queue[chat] + [t]]), AddedToQueue(t.title))
  }

  /** The /skip command (bot.py:85-99): admins only, and only when another
      entry is waiting. */
  function Skip(s: State, chat: ChatId, isAdmin: bool): (r: Step)
    ensures !isAdmin ==> r == Step(s, OnlyAdmins)
    ensures isAdmin && !CanSkip(s.queue, chat) ==> r == Step(s, NoSongToSkip)
    ensures isAdmin && CanSkip(s.queue, chat) ==>
      r.state == Advance(s, chat) && r.reply == SkippedTo(s.queue[chat][1].title)
  {
    if !isAdmin then Step(s, OnlyAdmins)
    else if CanSkip(s.queue, chat) then Step(Advance(s, chat), SkippedTo(s.queue[chat][1].title))
    else Step(s, NoSongToSkip)
  }

  /** cb_handler (bot.py:113-135): the inline buttons. "skip" has no admin
      check; "pause" and "resume" go straight to the driver whatever the
      queue holds; "close" only deletes the message; other data ("prev")
      falls through every branch. */
  function Button(s: State, chat: ChatId, data: string): (r: Step)
    ensures r.state.queue == s.queue || (data == "skip" && CanSkip(s.queue, chat))
    ensures data == "skip" && CanSkip(s.queue, chat) ==>
      r.state == Advance(s, chat) && r.reply == NowPlaying(Card(s.queue[chat][1]))
    ensures data == "skip" && !CanSkip(s.queue, chat) ==> r == Step(s, NoMoreSongs)
    ensures data == "pause" ==> r == Step(s.(log := s.log + [Pause(chat)]), Paused)
    ensures data == "resume" ==> r == Step(s.(log := s.log + [Resume(chat)]), Resumed)
    ensures data !in {"skip", "pause", "resume"} ==> r.state == s
  {
    if data == "skip" then
      if CanSkip(s.queue, chat) then Step(Advance(s, chat), NowPlaying(Card(s.queue[chat][1])))
      else Step(s, NoMoreSongs)
    else if data == "pause" then Step(s.(log := s.log + [Pause(chat)]), Paused)
    else if data == "resume" then Step(s.(log := s.log + [Resume(chat)]), Resumed)
    else if data == "close" then Step(s, Closed)
    else Step(s, NoReply)
  }

  /** /stop (bot.py:138-143): leave the call, then pop the key with a default. */
  function Stop(s: State, chat: ChatId): (r: Step)
    ensures chat !in r.state.queue
    ensures SameElsewhere(s.queue, r.state.queue, chat)
    ensures r.state.log == s.log + [Leave(chat)]
    ensures r.state.groups == s.groups && r.reply == Stopped
  {
    Step(s.(queue := s.queue - {chat}, log := s.log + [Leave(chat)]), Stopped)
  }

  /** show_queue (bot.py:102-110): read-only. */
  function QueueReply(q: map<ChatId, seq<Track>>, chat: ChatId): (r: Reply)
    ensures r == QueueIsEmpty <==> chat !in q || q[chat] == []
    ensures r != QueueIsEmpty ==> r == QueueListing(Listing.QueueText(q[chat]))
  {
    if chat !in q || q[chat] == [] then QueueIsEmpty
    else QueueListing(Listing.QueueText(q[chat]))
  }

  // ---------------------------------------------------------------------
  // What the driver was last told about a chat

  /** The url most recently sent to the driver for `chat` (by join or
      change_stream), if any. */
  function LastStream(log: seq<Event>, chat: ChatId): Option<string>
  {
    if log == [] then None
    else
      var e := log[|log| - 1];
      if e.chat == chat && (e.Join? || e.ChangeStream?) then Some(e.url)
      else LastStream(log[..|log| - 1], chat)
  }

  /** The chat's call is joined: its most recent join/leave is a join. */
  predicate InCall(log: seq<Event>, chat: ChatId)
  {
    if log == [] then false
    else
      var e := log[|log| - 1];
      if e.chat == chat && e.Join? then true
      else if e.chat == chat && e.Leave? then false
      else InCall(log[..|log| - 1], chat)
  }

  /** The invariant the handlers keep together: every stored queue is
      non-empty, its head is what the driver last streamed in that chat,
      and a chat has a queue exactly when the bot is in its call. */
  ghost predicate Valid(s: State)
  {
    && (forall c :: c in s.queue ==> s.queue[c] != [])
    && (forall c :: c in s.queue ==> LastStream(s.log, c) == Some(s.queue[c][0].url))
    && (forall c :: c in s.queue <==> InCall(s.log, c))
  }

  function Initial(groups: seq<string>): State
  {
    State(map[], [], groups)
  }

  lemma InitialValid(groups: seq<string>)
    ensures Valid(Initial(groups))
  {
  }

  lemma LastEvent(log: seq<Event>, e: Event, c: ChatId)
    ensures LastStream(log + [e], c) ==
      if e.chat == c && (e.Join? || e.ChangeStream?) then Some(e.url) else LastStream(log, c)
    ensures InCall(log + [e], c) ==
      if e.chat == c && e.Join? then true
      else if e.chat == c && e.Leave? then false
      else InCall(log, c)
  {
  }

  // ---------------------------------------------------------------------
  // Commands and runs

  datatype Command =
    | PlayCmd(chat: ChatId, query: Option<string>, requester: string, audio: Option<Audio>)
    | SkipCmd(chat: ChatId, isAdmin: bool)
    | ButtonCmd(chat: ChatId, data: string)
    | StopCmd(chat: ChatId)
    | QueueCmd(chat: ChatId)

  function Apply(s: State, cmd: Command): Step
  {
    match cmd
    case PlayCmd(chat, query, requester, audio) => Play(s, chat, query, requester, audio)
    case SkipCmd(chat, isAdmin) => Skip(s, chat, isAdmin)
    case ButtonCmd(chat, data) => Button(s, chat, data)
    case StopCmd(chat) => Stop(s, chat)
    case QueueCmd(chat) => Step(s, QueueReply(s.queue, chat))
  }

  /** A driver call keeps the invariant when the queue change that goes
      with it keeps the heads and the keys in step with it. */
  lemma EventKeepsValid(s: State, s': State, e: Event)
    requires Valid(s)
    requires s'.log == s.log + [e]
    requires SameElsewhere(s.queue, s'.queue, e.chat)
    requires e.chat in s'.queue ==> s'.queue[e.chat] != []
    requires e.Join? || e.ChangeStream? ==> e.chat in s'.queue && s'.queue[e.chat][0].url == e.url
    requires e.ChangeStream? ==> e.chat in s.queue
    requires e.Leave? ==> e.chat !in s'.queue
    requires e.Pause? || e.Resume? ==> s'.queue == s.queue
    ensures Valid(s')
  {
    forall c {
      LastEvent(s.log, e, c);
    }
  }

  /** Every handler keeps the invariant. */
  lemma ApplyKeepsValid(s: State, cmd: Command)
    requires Valid(s)
    ensures Valid(Apply(s, cmd).state)
  {
    var s' := Apply(s, cmd).state;
    match cmd
    case PlayCmd(chat, query, _, audio) =>
      if !MissingQuery(query) && audio.Some? && chat !in s.queue {
        EventKeepsValid(s, s', Join(chat, audio.value.url));
      }
    case SkipCmd(chat, isAdmin) =>
      if isAdmin && CanSkip(s.queue, chat) {
        EventKeepsValid(s, s', ChangeStream(chat, s.queue[chat][1].url));
      }
    case ButtonCmd(chat, data) =>
      if data == "skip" && CanSkip(s.queue, chat) {
        EventKeepsValid(s, s', ChangeStream(chat, s.queue[chat][1].url));
      } else if data == "pause" {
        EventKeepsValid(s, s', Pause(chat));
      } else if data == "resume" {
        EventKeepsValid(s, s', Resume(chat));
      }
    case StopCmd(chat) =>
      EventKeepsValid(s, s', Leave(chat));
    case QueueCmd(_) =>
  }

  /** The state after handling the commands in order. */
  function Run(s: State, cmds: seq<Command>): State
    decreases |cmds|
  {
    if cmds == [] then s else Run(Apply(s, cmds[0]).state, cmds[1..])
  }

  /** The invariant holds after any sequence of commands from the start. */
  lemma {:induction false} RunKeepsValid(s: State, cmds: seq<Command>)
    requires Valid(s)
    ensures Valid(Run(s, cmds))
    decreases |cmds|
  {
    if cmds != [] {
      ApplyKeepsValid(s, cmds[0]);
      RunKeepsValid(Apply(s, cmds[0]).state, cmds[1..]);
    }
  }

  /** With the invariant, "Queue is empty." is reported exactly for chats
      without a key: the `not queue[chat_id]` test never decides. */
  lemma QueueEmptyIffAbsent(s: State, chat: ChatId)
    requires Valid(s)
    ensures QueueReply(s.queue, chat) == QueueIsEmpty <==> chat !in s.queue
  {
  }

  // ---------------------------------------------------------------------
  // Chats are independent

  /** The driver calls concerning one chat, in order. */
  function EventsFor(log: seq<Event>, chat: ChatId): (r: seq<Event>)
    ensures forall e :: e in r ==> e in log && e.chat == chat
  {
    if log == [] then []
    else
      var e := log[|log| - 1];
      EventsFor(log[..|log| - 1], chat) + (if e.chat == chat then [e] else [])
  }

  lemma EventsForAppend(log: seq<Event>, e: Event, chat: ChatId)
    ensures EventsFor(log + [e], chat) == EventsFor(log, chat) + (if e.chat == chat then [e] else [])
  {
  }

  datatype ChatView = ChatView(entries: Option<seq<Track>>, events: seq<Event>)

  /** All of the state that belongs to one chat. */
  function View(s: State, chat: ChatId): ChatView
  {
    ChatView(if chat in s.queue then Some(s.queue[chat]) else None, EventsFor(s.log, chat))
  }

  /** The shape of every handler's effect: only its own chat's entry may
      change, and at most one driver call, about its own chat, is added. */
  lemma ApplyShape(s: State, cmd: Command)
    ensures SameElsewhere(s.queue, Apply(s, cmd).state.queue, cmd.chat)
    ensures var log' := Apply(s, cmd).state.log;
      log' == s.log || (|log'| == |s.log| + 1 && log'[..|s.log|] == s.log && log'[|s.log|].chat == cmd.chat)
  {
  }

  /** A command leaves the view of every other chat as it was. */
  lemma ApplyOtherChat(s: State, cmd: Command, d: ChatId)
    requires cmd.chat != d
    ensures View(Apply(s, cmd).state, d) == View(s, d)
  {
    var s' := Apply(s, cmd).state;
    ApplyShape(s, cmd);
    if s'.log != s.log {
      var e := s'.log[|s.log|];
      assert s'.log == s.log + [e];
      EventsForAppend(s.log, e, d);
    }
  }

  /** A command's effect on its own chat, and its reply, depend only on
      that chat's view. */
  lemma ApplySameChat(s: State, t: State, cmd: Command)
    requires View(s, cmd.chat) == View(t, cmd.chat)
    ensures View(Apply(s, cmd).state, cmd.chat) == View(Apply(t, cmd).state, cmd.chat)
    ensures Apply(s, cmd).reply == Apply(t, cmd).reply
  {
    var c := cmd.chat;
    assert c in s.queue <==> c in t.queue;
    assert c in s.queue ==> s.queue[c] == t.queue[c];
    match cmd
    case PlayCmd(_, query, _, audio) =>
      if !MissingQuery(query) && audio.Some? && c !in s.queue {
        SameChatEvent(s.log, t.log, Join(c, audio.value.url));
      }
    case SkipCmd(_, isAdmin) =>
      if isAdmin && CanSkip(s.queue, c) {
        SameChatEvent(s.log, t.log, ChangeStream(c, s.queue[c][1].url));
      }
    case ButtonCmd(_, data) =>
      if data == "skip" && CanSkip(s.queue, c) {
        SameChatEvent(s.log, t.log, ChangeStream(c, s.queue[c][1].url));
      } else if data == "pause" {
        SameChatEvent(s.log, t.log, Pause(c));
      } else if data == "resume" {
        SameChatEvent(s.log, t.log, Resume(c));
      }
    case StopCmd(_) =>
      SameChatEvent(s.log, t.log, Leave(c));
    case QueueCmd(_) =>
  }

  lemma SameChatEvent(log: seq<Event>, log': seq<Event>, e: Event)
    requires EventsFor(log, e.chat) == EventsFor(log', e.chat)
    ensures EventsFor(log + [e], e.chat) == EventsFor(log' + [e], e.chat)
  {
    EventsForAppend(log, e, e.chat);
    EventsForAppend(log', e, e.chat);
  }

  /** The commands of a run addressed to one chat. */
  function CommandsFor(cmds: seq<Command>, chat: ChatId): (r: seq<Command>)
    ensures forall k :: 0 <= k < |r| ==> r[k].chat == chat
    decreases |cmds|
  {
    if cmds == [] then []
    else (if cmds[0].chat == chat then [cmds[0]] else []) + CommandsFor(cmds[1..], chat)
  }

  /** Isolation: what a run does to one chat is what the run of that
      chat's own commands alone does, whatever the other chats do. */
  lemma {:induction false} RunIsolation(s: State, t: State, cmds: seq<Command>, d: ChatId)
    requires View(s, d) == View(t, d)
    ensures View(Run(s, cmds), d) == View(Run(t, CommandsFor(cmds, d)), d)
    decreases |cmds|
  {
    if cmds != [] {
      var cmd := cmds[0];
      if cmd.chat == d {
        ApplySameChat(s, t, cmd);
        assert CommandsFor(cmds, d) == [cmd] + CommandsFor(cmds[1..], d);
        assert ([cmd] + CommandsFor(cmds[1..], d))[1..] == CommandsFor(cmds[1..], d);
        RunIsolation(Apply(s, cmd).state, Apply(t, cmd).state, cmds[1..], d);
      } else {
        ApplyOtherChat(s, cmd, d);
        assert CommandsFor(cmds, d) == CommandsFor(cmds[1..], d);
        RunIsolation(Apply(s, cmd).state, t, cmds[1..], d);
      }
    }
  }

  // ---------------------------------------------------------------------
  // A session in one chat

  /** Two plays, two skips and a stop in chat r: the second skip finds a
      single entry and does nothing; stop removes the chat's key. */
  lemma SessionScenario(groups: seq<string>, r: ChatId, a: Audio, b: Audio)
    ensures
      var s0 := Initial(groups);
      var p1 := Play(s0, r, Some("song-a"), "alice", Some(a));
      var p2 := Play(p1.state, r, Some("song-b"), "bob", Some(b));
      var k1 := Skip(p2.state, r, true);
      var k2 := Skip(k1.state, r, true);
      var st := Stop(k2.state, r);
      && p1.reply == NowPlaying(Card(Track(a.url, a.title, "alice", a.duration)))
      && p2.reply == AddedToQueue(b.title)
      && p2.state.queue[r] == [Track(a.url, a.title, "alice", a.duration), Track(b.url, b.title, "bob", b.duration)]
      && k1.reply == SkippedTo(b.title)
      && k1.state.queue[r] == [Track(b.url, b.title, "bob", b.duration)]
      && k2 == Step(k1.state, NoSongToSkip)
      && r !in st.state.queue
      && st.state.log == [Join(r, a.url), ChangeStream(r, b.url), Leave(r)]
  {
  }
}
