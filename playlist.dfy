/**
 * The playlist sequencer: the playListRunning flag, the current song of MusicInfo, and
 * the completion callback registered with the running show.
 *
 * Songs are named by their index in the playlist. Show and MusicInfo are not modelled
 * beyond what the sequencer does to them: starting a show records the song and whether
 * playListNext was registered as its continuation, and getNext is "the following index,
 * if there is one".
 */
module Playlist {
  import opened Wrappers

  /** Errors the sequencer's calls raise. */
  datatype PlayError =
    | EmptyPlayList   // IndexError on playList[0]
    | NoCurrentSong   // AttributeError on getNext of an unset current song

  datatype Outcome = Done | Raised(error: PlayError)

  /** MusicInfo's getNext: the following song, if the current one is not the last. */
  function NextIndex(playList: seq<string>, i: nat): (r: Option<nat>)
    ensures r.Some? ==> r.value < |playList|
  {
    if i + 1 < |playList| then Some(i + 1) else None
  }

  class Sequencer {
    const playList: seq<string>
    var playListRunning: bool
    var current: Option<nat>
    var continuation: bool
    var started: seq<nat>

    /** The current song and every started song are songs of the playlist. */
    ghost predicate Valid()
      reads this
    {
      && (current.Some? ==> current.value < |playList|)
      && (forall k :: 0 <= k < |started| ==> started[k] < |playList|)
    }

    constructor (playList: seq<string>)
      ensures Valid() && this.playList == playList
      ensures !playListRunning && current == None && !continuation && started == []
    {
      this.playList := playList;
      playListRunning := false;
      current := None;
      continuation := false;
      started := [];
    }

    /** show.startShow(song, callback): the song plays, with or without playListNext after it. */
    method ShowStart(i: nat, withContinuation: bool)
      requires Valid() && i < |playList|
      modifies this
      ensures Valid()
      ensures current == Some(i) && continuation == withContinuation
      ensures started == old(started) + [i] && playListRunning == old(playListRunning)
    {
      current := Some(i);
      started := started + [i];
      continuation := withContinuation;
    }

    /** The module-level startShow: it sets the current song and ignores its callback. */
    method StartShow(i: nat)
      requires Valid() && i < |playList|
      modifies this
      ensures Valid()
      ensures current == Some(i) && !continuation
      ensures started == old(started) + [i] && playListRunning == old(playListRunning)
    {
      ShowStart(i, false);
    }

    /**
     * startPlayList: a no-op while running; else sets the flag and starts the first song
     * with playListNext as continuation. On an empty playlist the flag is already set
     * when playList[0] raises.
     */
    method StartPlayList() returns (r: Outcome)
      requires Valid()
      modifies this
      ensures Valid() && playListRunning
      ensures old(playListRunning) ==>
                r == Done && current == old(current) && continuation == old(continuation) && started == old(started)
      ensures !old(playListRunning) && |playList| == 0 ==>
                r == Raised(EmptyPlayList) && current == old(current) && continuation == old(continuation) && started == old(started)
      ensures !old(playListRunning) && |playList| > 0 ==>
                r == Done && current == Some(0) && continuation && started == old(started) + [0]
    {
      r := Done;
      if !playListRunning {
        playListRunning := true;
        if |playList| == 0 {
          r := Raised(EmptyPlayList);
        } else {
          ShowStart(0, true);
        }
      }
    }

    /** stopPlayList: clears the flag and nothing else; the playing song plays on. */
    method StopPlayList()
      requires Valid()
      modifies this
      ensures Valid() && !playListRunning
      ensures current == old(current) && continuation == old(continuation) && started == old(started)
    {
      playListRunning := false;
    }

    /**
     * playListNext, as written: when running, start the next song with itself as
     * continuation; after the last song restart the first one through the module-level
     * startShow, which drops the continuation, so that song is the last one played.
     */
    method PlayListNext() returns (r: Outcome)
      requires Valid()
      modifies this
      ensures Valid() && playListRunning == old(playListRunning)
      ensures !old(playListRunning) ==>
                r == Done && current == old(current) && continuation == old(continuation) && started == old(started)
      ensures old(playListRunning) && old(current).None? ==>
                r == Raised(NoCurrentSong) && current == old(current) && continuation == old(continuation) && started == old(started)
      ensures old(playListRunning) && old(current).Some? ==>
                var i := old(current).value;
                && r == Done
                && (i + 1 < |playList| ==> current == Some(i + 1) && continuation && started == old(started) + [i + 1])
                && (i + 1 == |playList| ==> current == Some(0) && !continuation && started == old(started) + [0])
    {
      r := Done;
      if playListRunning {
        match current
        case None =>
          r := Raised(NoCurrentSong);
        case Some(i) =>
          match NextIndex(playList, i)
          case Some(j) =>
            ShowStart(j, true);
          case None =>
            StartShow(0);
      }
    }

    /**
     * playListNext as evidently intended: at the end of the list the first song starts
     * again with the continuation, so a running playlist keeps going round.
     */
    method PlayListNextLooping() returns (r: Outcome)
      requires Valid()
      modifies this
      ensures Valid() && playListRunning == old(playListRunning)
      ensures !old(playListRunning) ==>
                r == Done && current == old(current) && continuation == old(continuation) && started == old(started)
      ensures old(playListRunning) && old(current).None? ==>
                r == Raised(NoCurrentSong) && current == old(current) && continuation == old(continuation) && started == old(started)
      ensures old(playListRunning) && old(current).Some? ==>
                var i := old(current).value;
                && r == Done && continuation
                && current == Some((i + 1) % |playList|)
                && started == old(started) + [(i + 1) % |playList|]
    {
      r := Done;
      if playListRunning {
        match current
        case None =>
          r := Raised(NoCurrentSong);
        case Some(i) =>
          match NextIndex(playList, i)
          case Some(j) =>
            ShowStart(j, true);
          case None =>
            ShowStart(0, true);
      }
    }
  }

  /**
   * The playlist [song1, song2] as written: song1, then song2, then song1 once more with
   * no continuation, although the playlist still counts as running.
   */
  method TwoSongPlaylist() returns (starts: seq<nat>, chained: bool, running: bool)
    ensures starts == [0, 1, 0] && !chained && running
  {
    var p := new Sequencer(["song1", "song2"]);
    var r := p.StartPlayList();
    assert p.continuation;
    r := p.PlayListNext();
    assert p.continuation;
    r := p.PlayListNext();
    starts, chained, running := p.started, p.continuation, p.playListRunning;
  }

  /** The same playlist with the intended wrap keeps alternating and stays chained. */
  method TwoSongPlaylistLooping() returns (starts: seq<nat>, chained: bool)
    ensures starts == [0, 1, 0, 1] && chained
  {
    var p := new Sequencer(["song1", "song2"]);
    var r := p.StartPlayList();
    r := p.PlayListNextLooping();
    r := p.PlayListNextLooping();
    r := p.PlayListNextLooping();
    starts, chained := p.started, p.continuation;
  }

  /** After stopPlayList the pending continuation starts nothing. */
  method StopThenNext() returns (starts: seq<nat>)
    ensures starts == [0]
  {
    var p := new Sequencer(["song1", "song2"]);
    var r := p.StartPlayList();
    p.StopPlayList();
    r := p.PlayListNext();
    starts := p.started;
  }
}
