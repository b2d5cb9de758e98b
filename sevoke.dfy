/**
 * The Sevoke display page (`app/sevoke/page.tsx`): submissions never
 * interrupt; a polled song joins the queue once, the queue is kept sorted by
 * timestamp, and a 300-second countdown rotates tracks.
 */
module Sevoke {
  import opened Wrappers
  import opened Library
  import Text

  /** The page's own copy of the fallback tracks. */
  const SevokeLibrary: seq<Entry> := [
    Entry("lib_1", Link1, "Song 1"),
    Entry("lib_2", Link2, "Song 2"),
    Entry("lib_3", Link3, "Song 3"),
    Entry("lib_5", Link5, "Song 5"),
    Entry("lib_6", Link6, "Song 6")
  ]

  const PageLocation := "Sevoke"
  const RotationSeconds := 300

  /** The local copy agrees entry for entry with the shared library. */
  lemma SevokeLibraryIsShared()
    ensures SevokeLibrary == SongLibrary
  {
  }

  predicate SortedByTimestamp(q: seq<Song>) {
    forall i, j :: 0 <= i < j < |q| ==> q[i].timestamp <= q[j].timestamp
  }

  predicate DistinctSongIds(q: seq<Song>) {
    forall i, j :: 0 <= i < j < |q| ==> q[i].id != q[j].id
  }

  predicate HasSongId(q: seq<Song>, id: string) {
    exists i :: 0 <= i < |q| && q[i].id == id
  }

  /** Where a stable insertion puts `x`: after every leading entry with a timestamp not above its own. */
  function InsertPosition(q: seq<Song>, x: Song): (k: nat)
    ensures k <= |q|
    ensures forall i :: 0 <= i < k ==> q[i].timestamp <= x.timestamp
    ensures k < |q| ==> x.timestamp < q[k].timestamp
  {
    if q == [] || x.timestamp < q[0].timestamp then 0 else 1 + InsertPosition(q[1..], x)
  }

  function InsertByTimestamp(q: seq<Song>, x: Song): seq<Song> {
    var k := InsertPosition(q, x);
    q[..k] + [x] + q[k..]
  }

  /**
   * `[...queue].sort((a, b) => a.timestamp - b.timestamp)` with a stable sort,
   * written as insertion sort: every element goes after the equal ones already
   * placed, so elements with equal timestamps keep their order.
   */
  function StableSort(q: seq<Song>): (r: seq<Song>)
    ensures multiset(r) == multiset(q) && SortedByTimestamp(r)
  {
    if q == [] then []
    else
      var r := InsertByTimestamp(StableSort(q[..|q| - 1]), q[|q| - 1]);
      InsertKeepsSorted(StableSort(q[..|q| - 1]), q[|q| - 1]);
      assert q == q[..|q| - 1] + [q[|q| - 1]];
      r
  }

  /** Inserting into a sorted queue keeps it sorted and adds exactly `x`. */
  lemma InsertKeepsSorted(q: seq<Song>, x: Song)
    requires SortedByTimestamp(q)
    ensures SortedByTimestamp(InsertByTimestamp(q, x))
    ensures multiset(InsertByTimestamp(q, x)) == multiset(q) + multiset{x}
  {
    var r := InsertByTimestamp(q, x);
    var k := InsertPosition(q, x);
    InsertIndex(q, x);
    forall i, j | 0 <= i < j < |r|
      ensures r[i].timestamp <= r[j].timestamp
    {
      if i == k {
        assert r[j] == q[j - 1] && x.timestamp < q[k].timestamp;
      } else if j == k {
        assert r[i] == q[i];
      } else {
        var i' := if i < k then i else i - 1;
        var j' := if j < k then j else j - 1;
        assert r[i] == q[i'] && r[j] == q[j'] && i' < j';
      }
    }
    InsertMultiset(q, x);
  }

  lemma InsertMultiset(q: seq<Song>, x: Song)
    ensures multiset(InsertByTimestamp(q, x)) == multiset(q) + multiset{x}
  {
    var k := InsertPosition(q, x);
    assert q == q[..k] + q[k..];
  }

  /** A queue whose every timestamp is at most `x`'s gets `x` at the end. */
  lemma InsertAtEnd(q: seq<Song>, x: Song)
    requires forall i :: 0 <= i < |q| ==> q[i].timestamp <= x.timestamp
    ensures InsertByTimestamp(q, x) == q + [x]
  {
    assert InsertPosition(q, x) == |q|;
  }

  /** Sorting a sorted queue changes nothing. */
  lemma {:induction false} SortSorted(q: seq<Song>)
    requires SortedByTimestamp(q)
    ensures StableSort(q) == q
  {
    if q != [] {
      var p := q[..|q| - 1];
      SortSorted(p);
      InsertAtEnd(p, q[|q| - 1]);
      assert p + [q[|q| - 1]] == q;
    }
  }

  /**
   * The poll merge sorts `[...queue, data]`; on a sorted queue that is the
   * stable insertion of `data`: it follows every queued entry whose timestamp
   * is not above its own and precedes the others.
   */
  lemma {:induction false} MergeIsStableInsert(q: seq<Song>, x: Song)
    requires SortedByTimestamp(q)
    ensures StableSort(q + [x]) == InsertByTimestamp(q, x)
    ensures var k := InsertPosition(q, x);
      && StableSort(q + [x]) == q[..k] + [x] + q[k..]
      && (forall i :: 0 <= i < k ==> q[i].timestamp <= x.timestamp)
      && (forall i :: k <= i < |q| ==> x.timestamp < q[i].timestamp)
  {
    assert (q + [x])[..|q + [x]| - 1] == q;
    SortSorted(q);
  }

  /** The countdown step of the 1-second timer: at 1 or below it rotates and restarts at 300. */
  function NextRemaining(t: int): (r: int)
    ensures 1 <= t <= RotationSeconds ==> 1 <= r <= RotationSeconds && (t == 1 <==> r == RotationSeconds)
  {
    if t <= 1 then RotationSeconds else t - 1
  }

  /** The countdown after `n` ticks. */
  function AfterTicks(t: int, n: nat): int
    decreases n
  {
    if n == 0 then t else AfterTicks(NextRemaining(t), n - 1)
  }

  /** From `t`, each of the next `t - 1` ticks lowers the countdown by one. */
  lemma {:induction false} CountdownDescends(t: int, n: nat)
    requires 1 <= t <= RotationSeconds && n < t
    ensures AfterTicks(t, n) == t - n
  {
    if n > 0 {
      CountdownDescends(t - 1, n - 1);
    }
  }

  /**
   * From a fresh 300 the countdown rotates on exactly every 300th tick: after
   * `300 * c + j` ticks (j < 300) it shows `300 - j`, and the tick seeing a
   * value of at most 1 is the 300th of each round.
   */
  lemma {:induction false} CountdownPeriod(c: nat, j: nat)
    requires j < RotationSeconds
    ensures AfterTicks(RotationSeconds, RotationSeconds * c + j) == RotationSeconds - j
    ensures AfterTicks(RotationSeconds, RotationSeconds * c + j) <= 1 <==> j == RotationSeconds - 1
  {
    if c == 0 {
      CountdownDescends(RotationSeconds, j);
    } else {
      CountdownPeriod(c - 1, j);
      AfterTicksSplit(RotationSeconds, RotationSeconds, RotationSeconds * (c - 1) + j);
      CountdownDescends(RotationSeconds, RotationSeconds - 1);
      assert AfterTicks(RotationSeconds, RotationSeconds) == RotationSeconds by {
        AfterTicksSplit(RotationSeconds, RotationSeconds - 1, 1);
      }
    }
  }

  lemma {:induction false} AfterTicksSplit(t: int, m: nat, n: nat)
    ensures AfterTicks(t, m + n) == AfterTicks(AfterTicks(t, m), n)
    decreases m
  {
    if m > 0 {
      AfterTicksSplit(NextRemaining(t), m - 1, n);
    }
  }

  /** `formatTime(seconds)`: whole minutes, a colon, and the seconds padded to two digits. */
  function FormatTime(seconds: nat): string {
    Text.NatToString(seconds / 60) + ":" + Text.PadStart(Text.NatToString(seconds % 60), 2, '0')
  }

  lemma ClockTextParts(m: string, ss: string)
    requires |ss| == 2
    ensures var r := m + ":" + ss; |r| == |m| + 3 && r[|r| - 3] == ':' && r[..|r| - 3] == m && r[|r| - 2..] == ss
  {
    var r := m + ":" + ss;
    assert r[..|r| - 3] == m;
    assert r[|r| - 2..] == ss;
  }

  /**
   * The text before the colon is the plain decimal of the whole minutes (no
   * leading zero), and reading the text back gives the minutes and the
   * seconds, so it determines `seconds`.
   */
  lemma FormatTimeRoundTrip(seconds: nat)
    ensures var r := FormatTime(seconds);
      && |r| >= 4 && r[|r| - 3] == ':'
      && r[..|r| - 3] == Text.NatToString(seconds / 60)
      && Text.AllDigits(r[..|r| - 3]) && Text.AllDigits(r[|r| - 2..])
      && Text.ParseDecimal(r[..|r| - 3]) == seconds / 60 && Text.ParseDecimal(r[|r| - 2..]) == seconds % 60
      && 60 * Text.ParseDecimal(r[..|r| - 3]) + Text.ParseDecimal(r[|r| - 2..]) == seconds
  {
    var mins, secs := seconds / 60, seconds % 60;
    assert 60 * mins + secs == seconds;
    var m := Text.NatToString(mins);
    var ss := Text.PadStart(Text.NatToString(secs), 2, '0');
    Text.TwoDigitPad(secs);
    Text.ParseNatToString(mins);
    ClockTextParts(m, ss);
    assert FormatTime(seconds) == m + ":" + ss;
  }

  /** The full rotation renders as "5:00". */
  lemma FormatTimeFullRotation(t: nat)
    requires t == 300
    ensures FormatTime(t) == "5:00"
  {
    assert t == 60 * 5 + 0;
    FormatTimeUnderTen(5, 0);
    assert Text.DigitChar(5) == '5' && Text.DigitChar(0) == '0';
  }

  /** 61 seconds render as "1:01", with the seconds padded. */
  lemma FormatTimeOneMinuteOne(t: nat)
    requires t == 61
    ensures FormatTime(t) == "1:01"
  {
    assert t == 60 * 1 + 1;
    FormatTimeUnderTen(1, 1);
    assert Text.DigitChar(1) == '1';
  }

  /** The clock text of `m` minutes and `sec` seconds, both single digits. */
  lemma FormatTimeUnderTen(m: nat, sec: nat)
    requires m < 10 && sec < 10
    ensures FormatTime(60 * m + sec) == [Text.DigitChar(m), ':', '0', Text.DigitChar(sec)]
  {
    MinutesAndSeconds(m, sec);
    Text.SingleDigitText(m);
    Text.SingleDigitText(sec);
  }

  lemma MinutesAndSeconds(m: nat, sec: nat)
    requires sec < 60
    ensures (60 * m + sec) / 60 == m && (60 * m + sec) % 60 == sec
  {
  }

  /** The entries of a stable insertion, by position. */
  lemma InsertIndex(q: seq<Song>, x: Song)
    ensures var r := InsertByTimestamp(q, x); var k := InsertPosition(q, x);
      && |r| == |q| + 1 && r[k] == x
      && (forall i :: 0 <= i < k ==> r[i] == q[i])
      && (forall i :: k < i < |r| ==> r[i] == q[i - 1])
  {
  }

  /** Inserting a song whose id is not queued keeps the ids distinct. */
  lemma InsertKeepsDistinct(q: seq<Song>, x: Song)
    requires DistinctSongIds(q) && !HasSongId(q, x.id)
    ensures DistinctSongIds(InsertByTimestamp(q, x))
  {
    var r := InsertByTimestamp(q, x);
    var k := InsertPosition(q, x);
    InsertIndex(q, x);
    forall i, j | 0 <= i < j < |r|
      ensures r[i].id != r[j].id
    {
      if i == k {
        assert r[j] == q[j - 1];
      } else if j == k {
        assert r[i] == q[i];
      }
      else {
        var i' := if i < k then i else i - 1;
        var j' := if j < k then j else j - 1;
        assert r[i] == q[i'] && r[j] == q[j'] && i' < j';
      }
    }
  }

  /** An id is queued after the insertion exactly when it was queued before or is `x`'s. */
  lemma InsertIds(q: seq<Song>, x: Song, id: string)
    ensures HasSongId(InsertByTimestamp(q, x), id) <==> HasSongId(q, id) || x.id == id
  {
    var r := InsertByTimestamp(q, x);
    var k := InsertPosition(q, x);
    InsertIndex(q, x);
    if HasSongId(q, id) {
      var i :| 0 <= i < |q| && q[i].id == id;
      if i < k { assert r[i] == q[i]; } else { assert r[i + 1] == q[i]; }
    }
    if HasSongId(r, id) {
      var i :| 0 <= i < |r| && r[i].id == id;
      if i < k { assert r[i] == q[i]; } else if i > k { assert r[i] == q[i - 1]; }
    }
  }

  /** Every queued song is located at `location`. */
  predicate AllAt(q: seq<Song>, location: string) {
    forall i :: 0 <= i < |q| ==> q[i].location == location
  }

  /**
   * Inserting a new Sevoke song into a sorted Sevoke queue with distinct ids
   * keeps all three, adds exactly that song, and leaves out the id `playing`.
   */
  lemma InsertKeepsQueueShape(q: seq<Song>, x: Song, playing: string)
    requires SortedByTimestamp(q) && DistinctSongIds(q) && AllAt(q, PageLocation)
    requires !HasSongId(q, x.id) && !HasSongId(q, playing) && x.id != playing && x.location == PageLocation
    ensures var r := InsertByTimestamp(q, x);
      && SortedByTimestamp(r) && DistinctSongIds(r) && AllAt(r, PageLocation) && !HasSongId(r, playing)
      && multiset(r) == multiset(q) + multiset{x}
  {
    InsertKeepsSorted(q, x);
    InsertKeepsDistinct(q, x);
    InsertIds(q, x, playing);
    InsertIndex(q, x);
  }

  /** The queue the poll merge of a new song leaves: its insertion, in the queue's shape, holding the song. */
  lemma MergedQueue(q: seq<Song>, x: Song, playing: string)
    requires SortedByTimestamp(q) && DistinctSongIds(q) && AllAt(q, PageLocation)
    requires !HasSongId(q, x.id) && !HasSongId(q, playing) && x.id != playing && x.location == PageLocation
    ensures var r := StableSort(q + [x]);
      && r == InsertByTimestamp(q, x)
      && SortedByTimestamp(r) && DistinctSongIds(r) && AllAt(r, PageLocation) && !HasSongId(r, playing)
      && multiset(r) == multiset(q) + multiset{x} && HasSongId(r, x.id)
  {
    MergeIsStableInsert(q, x);
    InsertKeepsQueueShape(q, x, playing);
    InsertIds(q, x, x.id);
  }

  /** Taking the head off a queue keeps its shape, and the head's id is not left in it. */
  lemma PoppedQueue(q: seq<Song>)
    requires q != [] && SortedByTimestamp(q) && DistinctSongIds(q) && AllAt(q, PageLocation)
    ensures var r := q[1..];
      && SortedByTimestamp(r) && DistinctSongIds(r) && AllAt(r, PageLocation)
      && !HasSongId(r, q[0].id) && q[0].location == PageLocation
  {
    var r := q[1..];
    forall i | 0 <= i < |r|
      ensures r[i].id != q[0].id
    {
      assert r[i] == q[i + 1];
    }
  }

  class SevokePage {
    var currentSong: Option<Song>
    var queue: seq<Song>
    var timeRemaining: int
    var lastPlayedLibrarySongId: Option<string>
    var isInitialLoad: bool

    /**
     * The countdown stays in 1..300; the queue is sorted by timestamp, has
     * distinct ids, holds only Sevoke songs and never contains the current
     * song's id; nothing is queued before a song plays; a remembered library
     * id is the id of the library song playing now.
     */
    ghost predicate Valid()
      reads this
    {
      && 1 <= timeRemaining <= RotationSeconds
      && SortedByTimestamp(queue) && DistinctSongIds(queue) && AllAt(queue, PageLocation)
      && (currentSong.None? ==> queue == [])
      && (currentSong.Some? ==> currentSong.value.location == PageLocation && !HasSongId(queue, currentSong.value.id))
      && (lastPlayedLibrarySongId.Some? ==>
            && currentSong.Some? && currentSong.value.id == lastPlayedLibrarySongId.value
            && IsLibrarySongAt(SevokeLibrary, currentSong.value, PageLocation))
    }

    /** The state cells as `useState` initialises them. */
    constructor ()
      ensures Valid()
      ensures currentSong == None && queue == [] && timeRemaining == RotationSeconds
      ensures lastPlayedLibrarySongId == None && isInitialLoad
    {
      currentSong := None;
      queue := [];
      timeRemaining := RotationSeconds;
      lastPlayedLibrarySongId := None;
      isInitialLoad := true;
    }

    /** A library entry other than the last one, placed in Sevoke, becomes the current song. */
    method PlayLibrarySong(pick: nat, now: int)
      requires Valid() && queue == []
      requires pick < |Available(SevokeLibrary, lastPlayedLibrarySongId)|
      modifies this
      ensures Valid()
      ensures var e := GetRandomSong(SevokeLibrary, old(lastPlayedLibrarySongId), pick);
        currentSong == Some(ToSong(e, PageLocation, now)) && lastPlayedLibrarySongId == Some(e.id)
      ensures Some(currentSong.value.id) != old(lastPlayedLibrarySongId)
      ensures queue == [] && timeRemaining == old(timeRemaining) && isInitialLoad == old(isInitialLoad)
    {
      var e := GetRandomSong(SevokeLibrary, lastPlayedLibrarySongId, pick);
      currentSong := Some(ToSong(e, PageLocation, now));
      lastPlayedLibrarySongId := Some(e.id);
    }

    /**
     * `playNextSong` (the player's ENDED event, and the countdown reaching
     * zero): the queue head plays and leaves the queue, or a library song
     * plays when the queue is empty; the countdown restarts at 300.
     */
    method PlayNextSong(pick: nat, now: int)
      requires Valid()
      requires pick < |Available(SevokeLibrary, lastPlayedLibrarySongId)|
      modifies this
      ensures Valid()
      ensures old(|queue|) > 0 ==>
        currentSong == Some(old(queue[0])) && queue == old(queue[1..]) && lastPlayedLibrarySongId == None
      ensures old(|queue|) == 0 ==>
        var e := GetRandomSong(SevokeLibrary, old(lastPlayedLibrarySongId), pick);
        && currentSong == Some(ToSong(e, PageLocation, now)) && lastPlayedLibrarySongId == Some(e.id)
        && queue == []
      ensures timeRemaining == RotationSeconds && isInitialLoad == old(isInitialLoad)
    {
      if |queue| > 0 {
        var nextSong := queue[0];
        PoppedQueue(queue);
        currentSong := Some(nextSong);
        queue := queue[1..];
        lastPlayedLibrarySongId := None;
      } else {
        PlayLibrarySong(pick, now);
      }
      timeRemaining := RotationSeconds;
    }

    /**
     * One run of `fetchLatestSong`.  Only a 200 whose song is located in
     * Sevoke has an effect: before anything plays, the first such answer
     * starts a library song and later ones play the answer itself; once a song
     * plays, an answer whose id is neither queued nor playing joins the queue
     * at its place by timestamp.  Every other answer changes nothing.
     */
    method OnPoll(result: PollResult, pick: nat, now: int)
      requires Valid()
      requires pick < |Available(SevokeLibrary, lastPlayedLibrarySongId)|
      modifies this
      ensures Valid()
      ensures !(result.Answer? && result.status == 200 && result.body.Some? && result.body.value.location == PageLocation) ==>
        && currentSong == old(currentSong) && queue == old(queue) && isInitialLoad == old(isInitialLoad)
        && lastPlayedLibrarySongId == old(lastPlayedLibrarySongId)
      ensures result.Answer? && result.status == 200 && result.body.Some? && result.body.value.location == PageLocation ==>
        var data := result.body.value;
        && (old(currentSong).None? && old(isInitialLoad) ==>
              var e := GetRandomSong(SevokeLibrary, old(lastPlayedLibrarySongId), pick);
              && currentSong == Some(ToSong(e, PageLocation, now)) && lastPlayedLibrarySongId == Some(e.id)
              && !isInitialLoad && queue == [])
        && (old(currentSong).None? && !old(isInitialLoad) ==>
              currentSong == Some(data) && queue == [] && !isInitialLoad
              && lastPlayedLibrarySongId == old(lastPlayedLibrarySongId))
        && (old(currentSong).Some? ==>
              var isNew := !HasSongId(old(queue), data.id) && data.id != old(currentSong).value.id;
              && currentSong == old(currentSong) && isInitialLoad == old(isInitialLoad)
              && lastPlayedLibrarySongId == old(lastPlayedLibrarySongId)
              && queue == (if isNew then InsertByTimestamp(old(queue), data) else old(queue))
              && multiset(queue) == multiset(old(queue)) + (if isNew then multiset{data} else multiset{}))
      ensures timeRemaining == old(timeRemaining)
    {
      match result {
        case NetworkError =>
        case Answer(status, body) =>
          if status == 200 && body.Some? && body.value.location == PageLocation {
            var data := body.value;
            if currentSong.None? {
              if isInitialLoad {
                PlayLibrarySong(pick, now);
                isInitialLoad := false;
              } else {
                currentSong := Some(data);
              }
            } else {
              MergeSong(data);
            }
          }
      }
    }

    /**
     * The merge step of the poll once a song plays: `data` joins the queue,
     * sorted by timestamp, unless its id is queued or playing already.
     */
    method MergeSong(data: Song)
      requires Valid() && currentSong.Some? && data.location == PageLocation
      modifies this
      ensures Valid()
      ensures var isNew := !HasSongId(old(queue), data.id) && data.id != old(currentSong).value.id;
        && queue == (if isNew then InsertByTimestamp(old(queue), data) else old(queue))
        && multiset(queue) == multiset(old(queue)) + (if isNew then multiset{data} else multiset{})
      ensures HasSongId(queue, data.id) || data.id == old(currentSong).value.id
      ensures currentSong == old(currentSong) && lastPlayedLibrarySongId == old(lastPlayedLibrarySongId)
      ensures isInitialLoad == old(isInitialLoad) && timeRemaining == old(timeRemaining)
    {
      if !HasSongId(queue, data.id) && data.id != currentSong.value.id {
        MergedQueue(queue, data, currentSong.value.id);
        queue := StableSort(queue + [data]);
      }
    }

    /**
     * One tick of the 1-second countdown: above 1 it counts down; at 1 or
     * below it plays the next song and restarts at 300.
     */
    method Tick(pick: nat, now: int)
      requires Valid()
      requires pick < |Available(SevokeLibrary, lastPlayedLibrarySongId)|
      modifies this
      ensures Valid()
      ensures timeRemaining == NextRemaining(old(timeRemaining))
      ensures old(timeRemaining) > 1 ==>
        && currentSong == old(currentSong) && queue == old(queue)
        && lastPlayedLibrarySongId == old(lastPlayedLibrarySongId)
      ensures old(timeRemaining) <= 1 && old(|queue|) > 0 ==>
        currentSong == Some(old(queue[0])) && queue == old(queue[1..]) && lastPlayedLibrarySongId == None
      ensures old(timeRemaining) <= 1 && old(|queue|) == 0 ==>
        var e := GetRandomSong(SevokeLibrary, old(lastPlayedLibrarySongId), pick);
        && currentSong == Some(ToSong(e, PageLocation, now)) && lastPlayedLibrarySongId == Some(e.id)
        && queue == []
      ensures isInitialLoad == old(isInitialLoad)
    {
      if timeRemaining <= 1 {
        PlayNextSong(pick, now);
      } else {
        timeRemaining := timeRemaining - 1;
      }
    }
  }

  /**
   * From a fresh page, a song answered three times in a row is queued once:
   * the first answer starts a library song, the second queues the song
   * unless it is the one playing, the third changes nothing.
   */
  method RepeatedAnswerQueuedOnce(data: Song, now: int) returns (q: seq<Song>, playing: Song)
    requires data.location == PageLocation
    ensures q == (if data.id == playing.id then [] else [data])
  {
    var page := new SevokePage();
    var answer := Answer(200, Some(data));
    SevokeLibraryIsShared();
    CandidatesNeverEmpty(page.lastPlayedLibrarySongId);
    page.OnPoll(answer, 0, now);
    playing := page.currentSong.value;
    CandidatesNeverEmpty(page.lastPlayedLibrarySongId);
    page.OnPoll(answer, 0, now);
    assert page.queue == (if data.id == playing.id then [] else InsertByTimestamp([], data));
    CandidatesNeverEmpty(page.lastPlayedLibrarySongId);
    page.OnPoll(answer, 0, now);
    q := page.queue;
  }
}
