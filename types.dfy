/** Values shared by the whole model of the music bot: tracks, what the
    resolver hands back, the calls made to the voice-call driver, and the
    outcome each handler reports to the chat. */
module Types {

  datatype Option<+T> = None | Some(value: T)

  /** Telegram chat ids are (possibly negative) integers. */
  type ChatId = int

  /** What the resolver (yt_dlp's extract_info) yields for a query:
      stream url, title, and duration in seconds (0 when unknown). */
  datatype Audio = Audio(url: string, title: string, duration: int)

  /** One queue entry: the tuple (url, title, requester, duration). */
  datatype Track = Track(url: string, title: string, requester: string, duration: int)

  /** The tuple play_command stores for a resolved query. */
  function MakeTrack(a: Audio, requester: string): Track
  {
    Track(a.url, a.title, requester, a.duration)
  }

  /** A call issued to the voice-call driver, recorded in order. */
  datatype Event =
    | Join(chat: ChatId, url: string)
    | ChangeStream(chat: ChatId, url: string)
    | Pause(chat: ChatId)
    | Resume(chat: ChatId)
    | Leave(chat: ChatId)

  /** Which message a handler sends, edits or deletes. */
  datatype Reply =
    | AskForQuery               // "Give me a song name or link."
    | ResolveFailed             // the resolver raised: only "Processing..." was sent
    | NowPlaying(card: string)  // the now-playing card, sent with the player controls
    | AddedToQueue(title: string)
    | OnlyAdmins                // "Only admins can skip."
    | SkippedTo(title: string)  // "Skipped! Now playing: <title>"
    | NoSongToSkip              // "No song to skip or queue is empty."
    | NoMoreSongs               // "No more songs in queue."
    | Paused
    | Resumed
    | Closed                    // the controls message is deleted
    | Stopped                   // "Stopped playback."
    | NoReply                   // a button the handler has no branch for
    | QueueIsEmpty              // "Queue is empty."
    | QueueListing(text: string)
}
