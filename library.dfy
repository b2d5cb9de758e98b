/**
 * The fallback track set (`songLibrary`) and the selector both display pages
 * use to pick from it (`getRandomSong`).
 */
module Library {
  import opened Wrappers
  import VideoId

  /** One fallback track: `_id`, `youtubeLink`, `name`. */
  datatype Entry = Entry(id: string, youtubeLink: string, name: string)

  /**
   * The `Song` record the display pages keep; `timestamp` stands for the
   * stored time string, parsed to milliseconds.
   */
  datatype Song = Song(id: string, location: string, youtubeLink: string, name: string, timestamp: int)

  // The links are written as concatenations of their parts (host, marker, id,
  // trailing parameters) so that proofs about single characters stay shallow.
  /**
   * One answer of the poll `fetch("/api/getLatest?location=…")` as both
   * display pages read it: a status and the parsed body, where `None` means
   * that `response.json()` did not yield a song; or a rejected fetch.
   */
  datatype PollResult = Answer(status: int, body: Option<Song>) | NetworkError

  const Link1 := VideoId.WatchHost + VideoId.WatchMarker + "dQw4w9WgXcQ"
  const Link2 := VideoId.WatchHost + VideoId.WatchMarker + "L_jWHffIx5E"
  const Link3 := VideoId.ShortHost + VideoId.ShortMarker + "izGwDsrQ1eQ" + "?si=3vGO28sU66GynBZt"
  const Link5 := VideoId.WatchHost + VideoId.WatchMarker + "kJQP7kiw5Fk" + "&list=PL15B1E77BB5708555"
  const Link6 := VideoId.ShortHost + VideoId.ShortMarker + "60ItHLz5WEA" + "?si=a4Yi7N_THx0dvh9m"

  const SongLibrary: seq<Entry> := [
    Entry("lib_1", Link1, "Song 1"),
    Entry("lib_2", Link2, "Song 2"),
    Entry("lib_3", Link3, "Song 3"),
    Entry("lib_5", Link5, "Song 5"),
    Entry("lib_6", Link6, "Song 6")
  ]

  predicate DistinctIds(lib: seq<Entry>) {
    forall i, j :: 0 <= i < j < |lib| ==> lib[i].id != lib[j].id
  }

  /** Some entry of `lib` carries the id `last` names (`false` for `null`). */
  predicate HasId(lib: seq<Entry>, last: Option<string>) {
    last.Some? && exists i :: 0 <= i < |lib| && lib[i].id == last.value
  }

  /**
   * `songLibrary.filter((song) => song._id !== lastPlayedLibrarySongId)`:
   * the entries whose id differs from the last one played, in library order.
   */
  function Available(lib: seq<Entry>, last: Option<string>): (r: seq<Entry>)
    ensures |r| <= |lib|
    ensures forall e :: e in r <==> e in lib && Some(e.id) != last
  {
    if lib == [] then []
    else (if Some(lib[0].id) != last then [lib[0]] else []) + Available(lib[1..], last)
  }

  /**
   * With distinct ids, excluding the last played id removes exactly one entry
   * when that id is in the library and none otherwise.
   */
  lemma {:induction false} AvailableSize(lib: seq<Entry>, last: Option<string>)
    requires DistinctIds(lib)
    ensures |Available(lib, last)| == if HasId(lib, last) then |lib| - 1 else |lib|
  {
    if lib != [] {
      AvailableSize(lib[1..], last);
      if HasId(lib[1..], last) {
        var i :| 0 <= i < |lib[1..]| && lib[1..][i].id == last.value;
        assert lib[0].id != lib[i + 1].id;
      }
      if HasId(lib, last) && Some(lib[0].id) != last {
        var i :| 0 <= i < |lib| && lib[i].id == last.value;
        assert lib[1..][i - 1].id == last.value;
      }
    }
  }

  /**
   * `getRandomSong()`: `availableSongs[Math.floor(Math.random() * availableSongs.length)]`,
   * with the random index given as `pick`.
   */
  function GetRandomSong(lib: seq<Entry>, last: Option<string>, pick: nat): (e: Entry)
    requires pick < |Available(lib, last)|
    ensures e in lib && Some(e.id) != last
  {
    Available(lib, last)[pick]
  }

  /** `{...entry, location, timestamp: now}`: a library entry placed at a location. */
  function ToSong(e: Entry, location: string, now: int): Song {
    Song(e.id, location, e.youtubeLink, e.name, now)
  }

  /** `s` is an entry of `lib` placed at `location`. */
  predicate IsLibrarySongAt(lib: seq<Entry>, s: Song, location: string) {
    s.location == location &&
    exists i :: 0 <= i < |lib| && s.id == lib[i].id && s.youtubeLink == lib[i].youtubeLink && s.name == lib[i].name
  }

  /** An entry placed at a location is a library song there, and its id is a library id. */
  lemma PlacedEntry(lib: seq<Entry>, e: Entry, location: string, now: int)
    requires e in lib
    ensures IsLibrarySongAt(lib, ToSong(e, location, now), location) && HasId(lib, Some(e.id))
  {
    var i :| 0 <= i < |lib| && lib[i] == e;
  }

  /**
   * The fallback both display pages spell out: the selector's pick, placed at
   * `location`. It is a library song there, its id is a library id, and it is
   * not the one played last.
   */
  function PlaceLibrarySong(last: Option<string>, pick: nat, location: string, now: int): (s: Song)
    requires pick < |Available(SongLibrary, last)|
    ensures IsLibrarySongAt(SongLibrary, s, location) && HasId(SongLibrary, Some(s.id))
    ensures Some(s.id) != last && s.location == location && s.timestamp == now
  {
    var e := GetRandomSong(SongLibrary, last, pick);
    PlacedEntry(SongLibrary, e, location, now);
    ToSong(e, location, now)
  }

  lemma LibraryShape()
    ensures |SongLibrary| == 5 && DistinctIds(SongLibrary)
    ensures forall j :: 0 <= j < 5 ==> SongLibrary[j].id == ["lib_1", "lib_2", "lib_3", "lib_5", "lib_6"][j]
  {
  }

  /** Whatever was played last, at least four tracks remain to pick from. */
  lemma CandidatesNeverEmpty(last: Option<string>)
    ensures |Available(SongLibrary, last)| >= 4
  {
    LibraryShape();
    AvailableSize(SongLibrary, last);
  }

  // Each literal piece of a library link is checked on its own.
  lemma Id1(x: string)
    requires x == "dQw4w9WgXcQ"
    ensures VideoId.PlainId(x)
  {
  }
  lemma Id2(x: string)
    requires x == "L_jWHffIx5E"
    ensures VideoId.PlainId(x)
  {
  }
  lemma Id3(x: string)
    requires x == "izGwDsrQ1eQ"
    ensures VideoId.PlainId(x)
  {
  }
  lemma Id5(x: string)
    requires x == "kJQP7kiw5Fk"
    ensures VideoId.PlainId(x)
  {
  }
  lemma Id6(x: string)
    requires x == "60ItHLz5WEA"
    ensures VideoId.PlainId(x)
  {
  }
  lemma Tail3(x: string)
    requires x == "?si=3vGO28sU66GynBZt"
    ensures VideoId.PlainTail(x)
  {
  }
  lemma Tail5(x: string)
    requires x == "&list=PL15B1E77BB5708555"
    ensures VideoId.PlainTail(x)
  {
  }
  lemma Tail6(x: string)
    requires x == "?si=a4Yi7N_THx0dvh9m"
    ensures VideoId.PlainTail(x)
  {
  }

  lemma Link1Id()
    ensures VideoId.GetYouTubeVideoId(Link1) == Some("dQw4w9WgXcQ")
  {
    Id1("dQw4w9WgXcQ");
    VideoId.WatchLinkId("dQw4w9WgXcQ", "");
    assert Link1 == VideoId.WatchHost + VideoId.WatchMarker + "dQw4w9WgXcQ" + "";
  }

  lemma Link2Id()
    ensures VideoId.GetYouTubeVideoId(Link2) == Some("L_jWHffIx5E")
  {
    Id2("L_jWHffIx5E");
    VideoId.WatchLinkId("L_jWHffIx5E", "");
    assert Link2 == VideoId.WatchHost + VideoId.WatchMarker + "L_jWHffIx5E" + "";
  }

  /** The `?si=` parameter is cut off at its `?`. */
  lemma Link3Id()
    ensures VideoId.GetYouTubeVideoId(Link3) == Some("izGwDsrQ1eQ")
  {
    Id3("izGwDsrQ1eQ");
    Tail3("?si=3vGO28sU66GynBZt");
    VideoId.ShortLinkId("izGwDsrQ1eQ", "?si=3vGO28sU66GynBZt");
  }

  /** The `&list=` parameter is cut off at its `&`. */
  lemma Link5Id()
    ensures VideoId.GetYouTubeVideoId(Link5) == Some("kJQP7kiw5Fk")
  {
    Id5("kJQP7kiw5Fk");
    Tail5("&list=PL15B1E77BB5708555");
    VideoId.WatchLinkId("kJQP7kiw5Fk", "&list=PL15B1E77BB5708555");
  }

  lemma Link6Id()
    ensures VideoId.GetYouTubeVideoId(Link6) == Some("60ItHLz5WEA")
  {
    Id6("60ItHLz5WEA");
    Tail6("?si=a4Yi7N_THx0dvh9m");
    VideoId.ShortLinkId("60ItHLz5WEA", "?si=a4Yi7N_THx0dvh9m");
  }

  /** A library song, wherever it is placed, has a link with a video id. */
  lemma LibrarySongPlayable(s: Song, location: string)
    requires IsLibrarySongAt(SongLibrary, s, location)
    ensures VideoId.GetYouTubeVideoId(s.youtubeLink).Some?
  {
    var i :| 0 <= i < |SongLibrary| && s.youtubeLink == SongLibrary[i].youtubeLink;
    LibraryLinksPlayable();
    assert SongLibrary[i] in SongLibrary;
  }

  /** Every library link yields an 11-character video id. */
  lemma LibraryLinksPlayable()
    ensures forall e :: e in SongLibrary ==> VideoId.GetYouTubeVideoId(e.youtubeLink).Some?
  {
    Link1Id();
    Link2Id();
    Link3Id();
    Link5Id();
    Link6Id();
  }
}
