/**
 * The player-bar props derived in components/GlobalPlayer.tsx from the
 * provider's state. A handler prop is either the provider's handler or
 * `undefined`; here it is whether the prop is provided.
 */
module GlobalPlayer {
  import opened Wrappers
  import opened PlayerContext

  datatype PlayerBarProps = PlayerBarProps(
    currentSong: Option<Song>,
    onNext: bool,
    onPrevious: bool,
    isPlaylist: bool,
    isShuffled: bool,
    onToggleShuffle: bool,
    nextSong: Slot)

  /** The song the bar prefetches: `playlist[currentIndex + 1]` when there is a next index. */
  function NextSong(st: State): Slot {
    if st.currentIndex < |st.playlist| - 1 then At(st.playlist, st.currentIndex + 1) else None
  }

  function Props(st: State): PlayerBarProps {
    PlayerBarProps(
      st.currentSong,
      st.currentIndex < |st.playlist| - 1,
      st.currentIndex > 0,
      st.isPlaylist,
      st.isShuffled,
      st.isPlaylist,
      NextSong(st))
  }

  /** The prefetched song is exactly where `playNext` goes, and `onNext` is
      offered exactly when `playNext` would move. */
  lemma NextSongIsPlayNextTarget(st: State)
    ensures Props(st).onNext ==> AfterPlayNext(st).currentSong == Props(st).nextSong
    ensures Props(st).onNext <==> AfterPlayNext(st) != st
    ensures !Props(st).onNext ==> Props(st).nextSong == None
  {
  }

  /** In a queue of defined songs and from an index of at least -1, `onNext` is
      offered exactly when a next song is shown; from -1 that song is the first. */
  lemma OnNextIffNextSong(st: State)
    requires forall k :: 0 <= k < |st.playlist| ==> st.playlist[k].Some?
    requires st.currentIndex >= -1
    ensures Props(st).onNext <==> Props(st).nextSong.Some?
    ensures st.currentIndex == -1 && |st.playlist| > 0 ==> Props(st).nextSong == st.playlist[0]
  {
  }

  /** `onPrevious` is offered exactly when `playPrevious` would move. */
  lemma OnPreviousIffPlayPreviousMoves(st: State)
    ensures Props(st).onPrevious <==> st.currentIndex > 0
    ensures Props(st).onPrevious <==> AfterPlayPrevious(st) != st
  {
  }

  /** `onToggleShuffle` is offered exactly for a playlist; without it the toggle would do nothing anyway. */
  lemma OnToggleShuffleIffPlaylist(st: State, rolls: seq<nat>)
    requires ValidRolls(rolls, |st.playlist|)
    ensures Props(st).onToggleShuffle <==> st.isPlaylist
    ensures !Props(st).onToggleShuffle ==> AfterToggleShuffle(st, rolls) == st
  {
  }
}
