/**
 * The display page of `components/subpage.tsx` (used for Dagapur): one
 * location's playback state and the handlers that change it.  Each handler is
 * one atomic step; a random index is passed in as `pick`, the current time as
 * `now`, and a poll answer as a `PollResult`.
 */
module SubPage {
  import opened Wrappers
  import opened Library
  import VideoId

  /** `queue.map((song) => song._id === s._id ? s : song)`. */
  function ReplaceById(q: seq<Song>, s: Song): (r: seq<Song>)
    ensures |r| == |q|
    ensures forall i :: 0 <= i < |q| ==> r[i] == (if q[i].id == s.id then s else q[i])
  {
    if q == [] then [] else [if q[0].id == s.id then s else q[0]] + ReplaceById(q[1..], s)
  }

  /** `queue.filter((song) => song._id !== id)`. */
  function RemoveById(q: seq<Song>, id: string): (r: seq<Song>)
    ensures |r| <= |q|
    ensures forall x :: x in r <==> x in q && x.id != id
    ensures (forall i :: 0 <= i < |q| ==> q[i].id != id) ==> r == q
  {
    if q == [] then [] else (if q[0].id != id then [q[0]] else []) + RemoveById(q[1..], id)
  }

  /** Replacing the entries with `s`'s id and then dropping that id is the same as dropping it. */
  lemma {:induction false} RemoveAfterReplace(q: seq<Song>, s: Song)
    ensures RemoveById(ReplaceById(q, s), s.id) == RemoveById(q, s.id)
  {
    if q != [] {
      RemoveAfterReplace(q[1..], s);
      assert ReplaceById(q, s)[1..] == ReplaceById(q[1..], s);
    }
  }

  class SubPage {
    const location: string
    var currentSong: Option<Song>
    var queue: seq<Song>
    var playerKey: nat
    var isLibrarySong: bool
    var lastPlayedLibrarySongId: Option<string>
    var isInitialLoad: bool

    /** A library flag always describes the current song, and the last library id is a library id. */
    ghost predicate Valid()
      reads this
    {
      && (isLibrarySong ==> currentSong.Some? && IsLibrarySongAt(SongLibrary, currentSong.value, location))
      && (lastPlayedLibrarySongId.Some? ==> HasId(SongLibrary, lastPlayedLibrarySongId))
    }

    /** The state cells as `useState` initialises them. */
    constructor (location: string)
      ensures Valid()
      ensures this.location == location && currentSong == None && queue == [] && playerKey == 0
      ensures !isLibrarySong && lastPlayedLibrarySongId == None && isInitialLoad
    {
      this.location := location;
      currentSong := None;
      queue := [];
      playerKey := 0;
      isLibrarySong := false;
      lastPlayedLibrarySongId := None;
      isInitialLoad := true;
    }

    /**
     * The library fallback the source spells out in `playNextSong`, the poll,
     * `handleError` and `handleResetClick`: pick an entry other than the last
     * one, place it at this location and remember its id.
     */
    method PlayLibrarySong(pick: nat, now: int)
      requires Valid()
      requires pick < |Available(SongLibrary, lastPlayedLibrarySongId)|
      modifies this
      ensures Valid()
      ensures var e := GetRandomSong(SongLibrary, old(lastPlayedLibrarySongId), pick);
        currentSong == Some(ToSong(e, location, now)) && lastPlayedLibrarySongId == Some(e.id)
      ensures isLibrarySong && Some(currentSong.value.id) != old(lastPlayedLibrarySongId)
      ensures queue == old(queue) && playerKey == old(playerKey) && isInitialLoad == old(isInitialLoad)
    {
      var s := PlaceLibrarySong(lastPlayedLibrarySongId, pick, location, now);
      ghost var e := GetRandomSong(SongLibrary, lastPlayedLibrarySongId, pick);
      assert s == ToSong(e, location, now) && s.id == e.id;
      currentSong := Some(s);
      lastPlayedLibrarySongId := Some(s.id);
      isLibrarySong := true;
    }

    /**
     * `handleNewSong`: a submission replaces a library song, or anything when
     * the queue is empty; otherwise it only updates queue entries with its id,
     * and the current song if that has its id too.
     */
    method HandleNewSong(newSong: Song)
      requires Valid()
      modifies this
      ensures Valid()
      ensures old(isLibrarySong || |queue| == 0) ==>
        && currentSong == Some(newSong) && !isLibrarySong
        && playerKey == old(playerKey) + 1 && queue == old(queue)
      ensures !old(isLibrarySong || |queue| == 0) ==>
        var matched := old(currentSong).Some? && old(currentSong).value.id == newSong.id;
        && queue == (if matched then RemoveById(ReplaceById(old(queue), newSong), newSong.id)
                     else ReplaceById(old(queue), newSong))
        && currentSong == (if matched then Some(newSong) else old(currentSong))
        && playerKey == old(playerKey) + (if matched then 1 else 0)
        && isLibrarySong == old(isLibrarySong)
      ensures lastPlayedLibrarySongId == old(lastPlayedLibrarySongId) && isInitialLoad == old(isInitialLoad)
      ensures |queue| <= |old(queue)| && playerKey >= old(playerKey)
    {
      if isLibrarySong || |queue| == 0 {
        currentSong := Some(newSong);
        isLibrarySong := false;
        playerKey := playerKey + 1;
      } else {
        var updatedQueue := ReplaceById(queue, newSong);
        if currentSong.Some? && currentSong.value.id == newSong.id {
          currentSong := Some(newSong);
          playerKey := playerKey + 1;
          queue := RemoveById(updatedQueue, newSong.id);
        } else {
          queue := updatedQueue;
        }
      }
    }

    /**
     * `playNextSong` (the player's ENDED event and the Next button): pop the
     * queue head, forcing a reload when it has the link already playing, or
     * fall back to the library when the queue is empty.
     */
    method PlayNextSong(pick: nat, now: int)
      requires Valid()
      requires pick < |Available(SongLibrary, lastPlayedLibrarySongId)|
      modifies this
      ensures Valid()
      ensures old(|queue|) > 0 ==>
        && currentSong == Some(old(queue[0])) && queue == old(queue[1..])
        && lastPlayedLibrarySongId == None && !isLibrarySong
        && playerKey == old(playerKey) + (if old(currentSong).Some? && old(queue[0]).youtubeLink == old(currentSong).value.youtubeLink then 1 else 0)
      ensures old(|queue|) == 0 ==>
        var e := GetRandomSong(SongLibrary, old(lastPlayedLibrarySongId), pick);
        && currentSong == Some(ToSong(e, location, now)) && lastPlayedLibrarySongId == Some(e.id)
        && isLibrarySong && queue == [] && playerKey == old(playerKey)
      ensures isInitialLoad == old(isInitialLoad)
      ensures |queue| <= |old(queue)| && playerKey >= old(playerKey)
    {
      if |queue| > 0 {
        var nextSong := queue[0];
        if currentSong.Some? && nextSong.youtubeLink == currentSong.value.youtubeLink {
          playerKey := playerKey + 1;
        }
        currentSong := Some(nextSong);
        queue := queue[1..];
        lastPlayedLibrarySongId := None;
        isLibrarySong := false;
      } else {
        PlayLibrarySong(pick, now);
      }
    }

    /** `handleError` (a player error, or a current link without a video id): library fallback, queue kept. */
    method HandleError(pick: nat, now: int)
      requires Valid()
      requires pick < |Available(SongLibrary, lastPlayedLibrarySongId)|
      modifies this
      ensures Valid()
      ensures var e := GetRandomSong(SongLibrary, old(lastPlayedLibrarySongId), pick);
        currentSong == Some(ToSong(e, location, now)) && lastPlayedLibrarySongId == Some(e.id)
      ensures isLibrarySong && VideoId.GetYouTubeVideoId(currentSong.value.youtubeLink).Some?
      ensures queue == old(queue) && playerKey == old(playerKey) && isInitialLoad == old(isInitialLoad)
    {
      PlayLibrarySong(pick, now);
      LibrarySongPlayable(currentSong.value, location);
    }

    /** `handleResetClick`: empty the queue, fall back to the library and end the initial load. */
    method HandleResetClick(pick: nat, now: int)
      requires Valid()
      requires pick < |Available(SongLibrary, lastPlayedLibrarySongId)|
      modifies this
      ensures Valid()
      ensures var e := GetRandomSong(SongLibrary, old(lastPlayedLibrarySongId), pick);
        currentSong == Some(ToSong(e, location, now)) && lastPlayedLibrarySongId == Some(e.id)
      ensures isLibrarySong && queue == [] && !isInitialLoad && playerKey == old(playerKey)
    {
      queue := [];
      PlayLibrarySong(pick, now);
      isInitialLoad := false;
    }

    /**
     * The effect on `currentSong`: a current song whose link yields no video
     * id is replaced through `handleError`; afterwards the current song, if
     * any, is playable.
     */
    method CheckCurrentSong(pick: nat, now: int)
      requires Valid()
      requires pick < |Available(SongLibrary, lastPlayedLibrarySongId)|
      modifies this
      ensures Valid()
      ensures old(currentSong).None? || old(VideoId.GetYouTubeVideoId(currentSong.value.youtubeLink)).Some? ==>
        currentSong == old(currentSong) && isLibrarySong == old(isLibrarySong)
        && lastPlayedLibrarySongId == old(lastPlayedLibrarySongId)
      ensures currentSong.Some? ==> VideoId.GetYouTubeVideoId(currentSong.value.youtubeLink).Some?
      ensures queue == old(queue) && playerKey == old(playerKey) && isInitialLoad == old(isInitialLoad)
    {
      if currentSong.Some? && VideoId.GetYouTubeVideoId(currentSong.value.youtubeLink).None? {
        HandleError(pick, now);
      }
    }

    /**
     * One run of `fetchLatestSong`: a 200 for this location goes to
     * `handleNewSong`; a 204, or any other answer during the initial load,
     * falls back to the library; everything else only ends the initial load.
     */
    method OnPoll(result: PollResult, pick: nat, now: int)
      requires Valid()
      requires pick < |Available(SongLibrary, lastPlayedLibrarySongId)|
      modifies this
      ensures Valid()
      ensures !isInitialLoad
      ensures (result.Answer? && result.status == 200 && result.body.Some? && result.body.value.location == location) ==>
        old(isLibrarySong || |queue| == 0) ==>
          currentSong == Some(result.body.value) && !isLibrarySong && playerKey == old(playerKey) + 1 && queue == old(queue)
      ensures (result.Answer? && result.status == 200 && result.body.Some? && result.body.value.location == location) ==>
        !old(isLibrarySong || |queue| == 0) ==>
          var newSong := result.body.value;
          var matched := old(currentSong).Some? && old(currentSong).value.id == newSong.id;
          && queue == (if matched then RemoveById(ReplaceById(old(queue), newSong), newSong.id)
                       else ReplaceById(old(queue), newSong))
          && currentSong == (if matched then Some(newSong) else old(currentSong))
          && playerKey == old(playerKey) + (if matched then 1 else 0)
          && isLibrarySong == old(isLibrarySong)
      ensures result.Answer? && result.status == 200 ==> lastPlayedLibrarySongId == old(lastPlayedLibrarySongId)
      ensures (result.Answer? && result.status != 200 && (result.status == 204 || old(isInitialLoad))) ==>
        var e := GetRandomSong(SongLibrary, old(lastPlayedLibrarySongId), pick);
        && currentSong == Some(ToSong(e, location, now)) && lastPlayedLibrarySongId == Some(e.id)
        && isLibrarySong && queue == old(queue) && playerKey == old(playerKey)
      ensures (|| result.NetworkError?
               || (result.status == 200 && (result.body.None? || result.body.value.location != location))
               || (result.status != 200 && result.status != 204 && !old(isInitialLoad))) ==>
        && currentSong == old(currentSong) && queue == old(queue) && playerKey == old(playerKey)
        && isLibrarySong == old(isLibrarySong) && lastPlayedLibrarySongId == old(lastPlayedLibrarySongId)
      ensures |queue| <= |old(queue)| && playerKey >= old(playerKey)
    {
      match result {
        case NetworkError =>
        case Answer(status, body) =>
          if status == 200 {
            if body.Some? && body.value.location == location {
              HandleNewSong(body.value);
            }
          } else if status == 204 || isInitialLoad {
            PlayLibrarySong(pick, now);
          }
      }
      isInitialLoad := false;
    }
  }

  /** What reaches the page: a poll answer, a submission, or one of the player and button events. */
  datatype EventKind = Poll(result: PollResult) | Submit(song: Song) | Next | PlayerError | Reset | Check

  /**
   * One event, with the `Math.random()` draw it may use (reduced modulo the
   * number of candidates, as `Math.floor(Math.random() * length)` is) and the
   * current time.
   */
  datatype Event = Event(kind: EventKind, draw: nat, now: int)

  /**
   * No handler lengthens the queue, so a page that starts with the empty
   * queue keeps it empty: whatever run of polls, submissions, player and
   * button events reaches a fresh page, nothing is ever queued.
   */
  method QueueStaysEmpty(location: string, events: seq<Event>) returns (q: seq<Song>)
    ensures q == []
  {
    var page := new SubPage(location);
    var i := 0;
    while i < |events|
      invariant 0 <= i <= |events|
      invariant page.Valid() && page.queue == []
    {
      CandidatesNeverEmpty(page.lastPlayedLibrarySongId);
      var pick := events[i].draw % |Available(SongLibrary, page.lastPlayedLibrarySongId)|;
      var now := events[i].now;
      match events[i].kind {
        case Poll(result) => page.OnPoll(result, pick, now);
        case Submit(song) => page.HandleNewSong(song);
        case Next => page.PlayNextSong(pick, now);
        case PlayerError => page.HandleError(pick, now);
        case Reset => page.HandleResetClick(pick, now);
        case Check => page.CheckCurrentSong(pick, now);
      }
      i := i + 1;
    }
    q := page.queue;
  }
}
