/**
  The playback engine as the view model sees it: a LibVLC media player reduced to
  what the view model reads (length, position, playing flag) and the record of
  every call the view model has made on it. The volume and the mute state the
  engine was last given are read off that record, so nothing is assumed about
  how the engine takes them. Decoding, rendering and the moment at which the
  engine raises its notifications are outside the model.
 */
module Engine {

  datatype Option<T> = None | Some(value: T)

  /** A call the view model makes on the media player. */
  datatype Call =
    | PlayMedia(path: string)   // Play(media) for a freshly created media from a local path
    | Play                      // Play() on the current media
    | Pause
    | Stop
    | Seek(position: real)      // the Position property setter
    | SetVolume(volume: int)    // the Volume property setter
    | SetMute(mute: bool)       // the Mute property setter

  /**
    The media player. `length` is in milliseconds (-1 while there is no media),
    `position` the normalised playback position, `calls` every call received so far.
   */
  datatype Player = Player(
    length: int,
    position: real,
    isPlaying: bool,
    calls: seq<Call>)

  /** The volume last written to the player, if any. */
  function LastVolume(calls: seq<Call>): (v: Option<int>)
    ensures v.Some? ==> SetVolume(v.value) in calls
    ensures v.None? ==> forall i :: 0 <= i < |calls| ==> !calls[i].SetVolume?
    decreases |calls|
  {
    if calls == [] then None
    else if calls[|calls| - 1].SetVolume? then Some(calls[|calls| - 1].volume)
    else LastVolume(calls[..|calls| - 1])
  }

  /** The mute state last written to the player; a player never told otherwise is not muted. */
  function LastMute(calls: seq<Call>): (m: bool)
    ensures m ==> SetMute(true) in calls
    ensures !m ==> SetMute(false) in calls || forall i :: 0 <= i < |calls| ==> !calls[i].SetMute?
    decreases |calls|
  {
    if calls == [] then false
    else if calls[|calls| - 1].SetMute? then calls[|calls| - 1].mute
    else LastMute(calls[..|calls| - 1])
  }

  /** One more call changes the last volume exactly when it is a volume write, and likewise for mute. */
  lemma {:induction false} LastAfterCall(calls: seq<Call>, c: Call)
    ensures LastVolume(calls + [c]) == if c.SetVolume? then Some(c.volume) else LastVolume(calls)
    ensures LastMute(calls + [c]) == if c.SetMute? then c.mute else LastMute(calls)
  {
    assert (calls + [c])[..|calls|] == calls;
  }

  /** A media player just created: no media, nothing received, so no volume set and not muted. */
  function Created(): (p: Player)
    ensures p.calls == [] && p.length <= 0 && !p.isPlaying
    ensures LastVolume(p.calls) == None && !LastMute(p.calls)
  {
    Player(-1, 0.0, false, [])
  }

  /**
    The engine receiving one call. A seek moves the reported position at once;
    play, pause and stop only change what the engine does later, which reaches
    the view model through notifications, so the length and the playing flag
    never change here.
   */
  function Receive(p: Player, c: Call): (q: Player)
    ensures q.calls == p.calls + [c]
    ensures q.length == p.length && q.isPlaying == p.isPlaying
    ensures LastVolume(q.calls) == if c.SetVolume? then Some(c.volume) else LastVolume(p.calls)
    ensures LastMute(q.calls) == if c.SetMute? then c.mute else LastMute(p.calls)
  {
    LastAfterCall(p.calls, c);
    var p' := p.(calls := p.calls + [c]);
    if c.Seek? then p'.(position := c.position) else p'
  }

  /** The engine's own progress (media parsed, playback advancing, state changes). */
  function Progress(p: Player, length: int, position: real, playing: bool): Player
  {
    p.(length := length, position := position, isPlaying := playing)
  }
}
