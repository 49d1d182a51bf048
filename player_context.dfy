/**
 * The playback queue of components/PlayerContext.tsx: the provider's six
 * state fields and the handlers that overwrite them. Each handler is one
 * sequential transition that reads the state before the call. `Math.random`
 * is the `rolls` oracle: `rolls[i]` is the index `j` in `[0, i]` that the
 * shuffle loop draws when it is at position `i`.
 */
module PlayerContext {
  import opened Wrappers

  datatype Song = Song(id: string, youtubeId: string, title: string, channelName: string, thumbnail: string, duration: int)

  /** A queue element; None is an `undefined` element of the JavaScript array. */
  type Slot = Option<Song>

  /** `s[i]`, which is `undefined` outside the array. */
  function At(s: seq<Slot>, i: int): Slot {
    if 0 <= i < |s| then s[i] else None
  }

  /** A list of songs as queue elements. */
  function Lift(songs: seq<Song>): (r: seq<Slot>)
    ensures |r| == |songs| && forall k :: 0 <= k < |r| ==> r[k] == Some(songs[k])
  {
    seq(|songs|, k requires 0 <= k < |songs| => Some(songs[k]))
  }

  /** The provider's state. */
  datatype State = State(
    currentSong: Option<Song>,
    currentIndex: int,
    playlist: seq<Slot>,
    isPlaylist: bool,
    isShuffled: bool,
    originalOrder: seq<Song>)

  /** The `useState` initial values. */
  const Initial := State(None, -1, [], false, false, [])

  // ------------------------------------------------------------- transitions

  function AfterPlaySong(st: State, song: Song, index: int, songList: seq<Song>, fromPlaylist: bool): State {
    st.(currentSong := Some(song), currentIndex := index, playlist := Lift(songList), isPlaylist := fromPlaylist,
        originalOrder := if fromPlaylist then songList else st.originalOrder)
  }

  function AfterPlayNext(st: State): State {
    if st.currentIndex < |st.playlist| - 1 then
      st.(currentSong := At(st.playlist, st.currentIndex + 1), currentIndex := st.currentIndex + 1)
    else st
  }

  function AfterPlayPrevious(st: State): State {
    if st.currentIndex > 0 then
      st.(currentSong := At(st.playlist, st.currentIndex - 1), currentIndex := st.currentIndex - 1)
    else st
  }

  /** `playlist.filter((_, i) => i !== currentIndex)`. */
  function RemoveAt(s: seq<Slot>, i: int): seq<Slot> {
    if 0 <= i < |s| then s[..i] + s[i + 1..] else s
  }

  function Swap(s: seq<Slot>, i: nat, j: nat): seq<Slot>
    requires i < |s| && j < |s|
  {
    s[i := s[j]][j := s[i]]
  }

  /** The oracle draws an index in `[0, i]` at every position `i` the loop visits. */
  predicate ValidRolls(rolls: seq<nat>, n: nat) {
    |rolls| >= n && forall i :: 0 <= i < |rolls| ==> rolls[i] <= i
  }

  /** The swap loop run from position `i` down to 1. */
  function ShuffleFrom(s: seq<Slot>, rolls: seq<nat>, i: int): seq<Slot>
    requires i < |s| && ValidRolls(rolls, |s|)
    decreases i
  {
    if i <= 0 then s else ShuffleFrom(Swap(s, i, rolls[i]), rolls, i - 1)
  }

  /** `for (let i = s.length - 1; i > 0; i--) swap(s[i], s[rolls[i]])`. */
  function FisherYates(s: seq<Slot>, rolls: seq<nat>): seq<Slot>
    requires ValidRolls(rolls, |s|)
  {
    ShuffleFrom(s, rolls, |s| - 1)
  }

  /** `originalOrder.findIndex(s => s.id === id)`. */
  function FindIndex(s: seq<Song>, id: string): (r: int)
    ensures -1 <= r < |s|
    ensures r == -1 <==> forall k :: 0 <= k < |s| ==> s[k].id != id
    ensures r >= 0 ==> s[r].id == id && forall k :: 0 <= k < r ==> s[k].id != id
  {
    if s == [] then -1
    else if s[0].id == id then 0
    else
      var k := FindIndex(s[1..], id);
      if k < 0 then -1 else k + 1
  }

  function AfterToggleShuffle(st: State, rolls: seq<nat>): State
    requires ValidRolls(rolls, |st.playlist|)
  {
    if st.currentSong.None? || !st.isPlaylist then st
    else if !st.isShuffled then
      var others := RemoveAt(st.playlist, st.currentIndex);
      st.(playlist := [At(st.playlist, st.currentIndex)] + FisherYates(others, rolls),
          currentIndex := 0, isShuffled := true)
    else
      st.(playlist := Lift(st.originalOrder),
          currentIndex := FindIndex(st.originalOrder, st.currentSong.value.id), isShuffled := false)
  }

  function AfterSetPlaylist(st: State, songs: seq<Song>): State {
    st.(playlist := Lift(songs))
  }

  function AfterClearPlayer(st: State): State {
    st.(currentSong := None, currentIndex := -1, playlist := [], isPlaylist := false, isShuffled := false)
  }

  // ----------------------------------------------------------------- provider

  class PlayerProvider {
    var currentSong: Option<Song>
    var currentIndex: int
    var playlist: seq<Slot>
    var isPlaylist: bool
    var isShuffled: bool
    var originalOrder: seq<Song>

    function Snapshot(): State
      reads this
    {
      State(currentSong, currentIndex, playlist, isPlaylist, isShuffled, originalOrder)
    }

    constructor ()
      ensures Snapshot() == Initial
    {
      currentSong, currentIndex, playlist := None, -1, [];
      isPlaylist, isShuffled, originalOrder := false, false, [];
    }

    method PlaySong(song: Song, index: int := 0, songList: seq<Song> := [], fromPlaylist: bool := false)
      modifies this
      ensures Snapshot() == AfterPlaySong(old(Snapshot()), song, index, songList, fromPlaylist)
    {
      currentSong := Some(song);
      currentIndex := index;
      playlist := Lift(songList);
      isPlaylist := fromPlaylist;
      if fromPlaylist {
        originalOrder := songList;
      }
    }

    method PlayNext()
      modifies this
      ensures Snapshot() == AfterPlayNext(old(Snapshot()))
    {
      if currentIndex < |playlist| - 1 {
        var nextIndex := currentIndex + 1;
        currentSong := At(playlist, nextIndex);
        currentIndex := nextIndex;
      }
    }

    method PlayPrevious()
      modifies this
      ensures Snapshot() == AfterPlayPrevious(old(Snapshot()))
    {
      if currentIndex > 0 {
        var prevIndex := currentIndex - 1;
        currentSong := At(playlist, prevIndex);
        currentIndex := prevIndex;
      }
    }

    method ToggleShuffle(rolls: seq<nat>)
      requires ValidRolls(rolls, |playlist|)
      modifies this
      ensures Snapshot() == AfterToggleShuffle(old(Snapshot()), rolls)
    {
      if currentSong.None? || !isPlaylist {
        return;
      }
      if !isShuffled {
        var currentSongData := At(playlist, currentIndex);
        var others := RemoveAt(playlist, currentIndex);
        var otherSongs := new Slot[|others|](k requires 0 <= k < |others| => others[k]);
        assert otherSongs[..] == others;
        ShuffleInPlace(otherSongs, rolls);
        playlist := [currentSongData] + otherSongs[..];
        currentIndex := 0;
        isShuffled := true;
      } else {
        var currentSongId := currentSong.value.id;
        var originalIndex := FindIndex(originalOrder, currentSongId);
        playlist := Lift(originalOrder);
        currentIndex := originalIndex;
        isShuffled := false;
      }
    }

    method SetPlaylist(songs: seq<Song>)
      modifies this
      ensures Snapshot() == AfterSetPlaylist(old(Snapshot()), songs)
    {
      playlist := Lift(songs);
    }

    method ClearPlayer()
      modifies this
      ensures Snapshot() == AfterClearPlayer(old(Snapshot()))
    {
      currentSong := None;
      currentIndex := -1;
      playlist := [];
      isPlaylist := false;
      isShuffled := false;
    }
  }

  /** The Fisher-Yates loop of `toggleShuffle`, in place on `otherSongs`. */
  method ShuffleInPlace(a: array<Slot>, rolls: seq<nat>)
    requires ValidRolls(rolls, a.Length)
    modifies a
    ensures a[..] == FisherYates(old(a[..]), rolls)
  {
    var i := a.Length - 1;
    while i > 0
      invariant -1 <= i < a.Length
      invariant a.Length > 0 ==> i >= 0
      invariant ShuffleFrom(a[..], rolls, i) == FisherYates(old(a[..]), rolls)
      decreases i
    {
      var j := rolls[i];
      ghost var before := a[..];
      a[i], a[j] := a[j], a[i];
      assert a[..] == Swap(before, i, j);
      i := i - 1;
    }
  }

  // ------------------------------------------------------------------ lemmas

  /** The swap loop only reorders: same length, same elements with the same multiplicities. */
  lemma {:induction false} ShuffleFromPermutes(s: seq<Slot>, rolls: seq<nat>, i: int)
    requires i < |s| && ValidRolls(rolls, |s|)
    ensures |ShuffleFrom(s, rolls, i)| == |s|
    ensures multiset(ShuffleFrom(s, rolls, i)) == multiset(s)
    decreases i
  {
    if i > 0 {
      var j := rolls[i];
      SwapPermutes(s, i, j);
      ShuffleFromPermutes(Swap(s, i, j), rolls, i - 1);
    }
  }

  /** One swap keeps the length and the multiset of elements. */
  lemma SwapPermutes(s: seq<Slot>, i: nat, j: nat)
    requires i < |s| && j < |s|
    ensures |Swap(s, i, j)| == |s| && multiset(Swap(s, i, j)) == multiset(s)
  {
    var t := s[i := s[j]];
    assert multiset(t) == multiset(s) - multiset{s[i]} + multiset{s[j]};
    assert multiset(t[j := s[i]]) == multiset(t) - multiset{t[j]} + multiset{s[i]};
  }

  lemma FisherYatesPermutes(s: seq<Slot>, rolls: seq<nat>)
    requires ValidRolls(rolls, |s|)
    ensures |FisherYates(s, rolls)| == |s| && multiset(FisherYates(s, rolls)) == multiset(s)
  {
    ShuffleFromPermutes(s, rolls, |s| - 1);
  }

  /** Removing an in-range element takes exactly that element out of the multiset. */
  lemma RemoveAtMultiset(s: seq<Slot>, i: int)
    requires 0 <= i < |s|
    ensures |RemoveAt(s, i)| == |s| - 1
    ensures multiset(RemoveAt(s, i)) + multiset{s[i]} == multiset(s)
  {
    assert s == s[..i] + [s[i]] + s[i + 1..];
  }

  /** Enabling shuffle from an in-range index puts the current element first,
      followed by a permutation of all the others, and points at position 0. */
  lemma EnableShuffle(st: State, rolls: seq<nat>)
    requires ValidRolls(rolls, |st.playlist|)
    requires st.currentSong.Some? && st.isPlaylist && !st.isShuffled
    requires 0 <= st.currentIndex < |st.playlist|
    ensures var st' := AfterToggleShuffle(st, rolls);
      && |st'.playlist| == |st.playlist|
      && st'.playlist[0] == st.playlist[st.currentIndex]
      && multiset(st'.playlist[1..]) + multiset{st.playlist[st.currentIndex]} == multiset(st.playlist)
      && multiset(st'.playlist) == multiset(st.playlist)
      && st'.currentIndex == 0 && st'.isShuffled
      && st'.currentSong == st.currentSong && st'.isPlaylist && st'.originalOrder == st.originalOrder
  {
    var others := RemoveAt(st.playlist, st.currentIndex);
    RemoveAtMultiset(st.playlist, st.currentIndex);
    FisherYatesPermutes(others, rolls);
    var p := AfterToggleShuffle(st, rolls).playlist;
    assert p[1..] == FisherYates(others, rolls);
    assert p == [p[0]] + p[1..];
  }

  /** Enabling shuffle while the index is outside the queue (as `-1` after a
      restore that did not find the song) puts an `undefined` element first and
      keeps every queued element after it. */
  lemma EnableShuffleOutOfRange(st: State, rolls: seq<nat>)
    requires ValidRolls(rolls, |st.playlist|)
    requires st.currentSong.Some? && st.isPlaylist && !st.isShuffled
    requires !(0 <= st.currentIndex < |st.playlist|)
    ensures var st' := AfterToggleShuffle(st, rolls);
      && |st'.playlist| == |st.playlist| + 1
      && st'.playlist[0] == None
      && multiset(st'.playlist) == multiset(st.playlist) + multiset{None}
  {
    FisherYatesPermutes(st.playlist, rolls);
  }

  /** Disabling shuffle restores the original order and re-finds the song by id. */
  lemma DisableShuffle(st: State, rolls: seq<nat>)
    requires ValidRolls(rolls, |st.playlist|)
    requires st.currentSong.Some? && st.isPlaylist && st.isShuffled
    ensures var st' := AfterToggleShuffle(st, rolls);
      && st'.playlist == Lift(st.originalOrder) && !st'.isShuffled
      && (st'.currentIndex == -1 <==> forall k :: 0 <= k < |st.originalOrder| ==> st.originalOrder[k].id != st.currentSong.value.id)
      && (st'.currentIndex >= 0 ==> st.originalOrder[st'.currentIndex].id == st.currentSong.value.id)
      && st'.currentSong == st.currentSong && st'.originalOrder == st.originalOrder
  {
  }

  /** Without a current song, or outside a playlist, the toggle does nothing. */
  lemma ToggleShuffleGuard(st: State, rolls: seq<nat>)
    requires ValidRolls(rolls, |st.playlist|)
    requires st.currentSong.None? || !st.isPlaylist
    ensures AfterToggleShuffle(st, rolls) == st
  {
  }

  predicate DistinctIds(s: seq<Song>) {
    forall i, j :: 0 <= i < j < |s| ==> s[i].id != s[j].id
  }

  /** Shuffling on and then off right after starting a playlist restores the
      queue and the index that playSong set, when the ids in the list are distinct. */
  lemma ShuffleRoundTrip(st: State, song: Song, index: int, songList: seq<Song>, rolls: seq<nat>, rolls': seq<nat>)
    requires !st.isShuffled && 0 <= index < |songList| && songList[index] == song && DistinctIds(songList)
    requires ValidRolls(rolls, |songList|) && ValidRolls(rolls', |songList|)
    ensures var start := AfterPlaySong(st, song, index, songList, true);
      var shuffled := AfterToggleShuffle(start, rolls);
      |shuffled.playlist| == |songList| && AfterToggleShuffle(shuffled, rolls') == start
  {
    var start := AfterPlaySong(st, song, index, songList, true);
    EnableShuffle(start, rolls);
    var shuffled := AfterToggleShuffle(start, rolls);
    var k := FindIndex(songList, song.id);
    assert songList[index].id == song.id;
    assert k >= 0 && songList[k].id == songList[index].id;
  }

  /** playNext: from an in-range index the index stays in range; at the end of
      the queue nothing changes. */
  lemma PlayNextBounds(st: State)
    ensures st.currentIndex < |st.playlist| - 1 ==>
      AfterPlayNext(st).currentIndex == st.currentIndex + 1 && AfterPlayNext(st).currentSong == At(st.playlist, st.currentIndex + 1)
    ensures st.currentIndex >= |st.playlist| - 1 ==> AfterPlayNext(st) == st
    ensures 0 <= st.currentIndex < |st.playlist| ==> 0 <= AfterPlayNext(st).currentIndex < |st.playlist|
    ensures AfterPlayNext(st).playlist == st.playlist
  {
  }

  /** playPrevious: moves one back when there is a previous element, otherwise nothing changes. */
  lemma PlayPreviousBounds(st: State)
    ensures st.currentIndex > 0 ==>
      AfterPlayPrevious(st).currentIndex == st.currentIndex - 1 && AfterPlayPrevious(st).currentSong == At(st.playlist, st.currentIndex - 1)
    ensures st.currentIndex <= 0 ==> AfterPlayPrevious(st) == st
    ensures 0 <= st.currentIndex < |st.playlist| ==> 0 <= AfterPlayPrevious(st).currentIndex < |st.playlist|
  {
  }

  /** Inside a queue of defined elements, stepping lands on a song. */
  lemma StepsLandOnSongs(st: State)
    requires forall k :: 0 <= k < |st.playlist| ==> st.playlist[k].Some?
    requires -1 <= st.currentIndex < |st.playlist|
    ensures st.currentIndex < |st.playlist| - 1 ==> AfterPlayNext(st).currentSong == Some(st.playlist[st.currentIndex + 1].value)
    ensures st.currentIndex > 0 ==> AfterPlayPrevious(st).currentSong == Some(st.playlist[st.currentIndex - 1].value)
  {
  }

  /** playSong sets its four fields, records the list as the original order only
      for a playlist, and leaves the shuffle flag alone. */
  lemma PlaySongFields(st: State, song: Song, index: int, songList: seq<Song>, fromPlaylist: bool)
    ensures var st' := AfterPlaySong(st, song, index, songList, fromPlaylist);
      && st'.currentSong == Some(song) && st'.currentIndex == index
      && |st'.playlist| == |songList| && (forall k :: 0 <= k < |songList| ==> st'.playlist[k] == Some(songList[k]))
      && st'.isPlaylist == fromPlaylist && st'.isShuffled == st.isShuffled
      && (fromPlaylist ==> st'.originalOrder == songList)
      && (!fromPlaylist ==> st'.originalOrder == st.originalOrder)
  {
  }

  /** clearPlayer resets five fields and keeps the original order; setPlaylist replaces only the queue. */
  lemma ClearAndSetPlaylistFields(st: State, songs: seq<Song>)
    ensures AfterClearPlayer(st) == Initial.(originalOrder := st.originalOrder)
    ensures AfterSetPlaylist(st, songs).playlist == Lift(songs)
    ensures AfterSetPlaylist(st, songs).(playlist := st.playlist) == st
  {
  }
}
