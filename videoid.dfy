/**
 * `getYouTubeVideoId`: the regular expression
 *   /^.*(youtu.be\/|v\/|u\/\w\/|embed\/|watch\?v=|\&v=)([^#\&\?]*).* /
 * evaluated the way a backtracking ECMAScript engine evaluates it.  The greedy
 * leading `.*` cannot cross a line terminator and gives characters back one at
 * a time, so the marker that counts is the rightmost one that starts within the
 * first line; the second group then takes the longest run of characters other
 * than `#`, `&` and `?` (line terminators included), and the trailing `.*`
 * always succeeds.  The id is kept only when that run is 11 characters long.
 */
module VideoId {
  import opened Wrappers

  /** The characters `.` does not match in ECMAScript. */
  predicate IsLineTerminator(c: char) {
    c == '\n' || c == '\r' || c == '\U{2028}' || c == '\U{2029}'
  }

  /** `\w`. */
  predicate IsWordChar(c: char) {
    ('a' <= c <= 'z') || ('A' <= c <= 'Z') || ('0' <= c <= '9') || c == '_'
  }

  /** `[^#\&\?]`. */
  predicate IsIdChar(c: char) {
    c != '#' && c != '&' && c != '?'
  }

  /** The literal `w` occurs in `s` at position `k` (checked from its `i`-th character on). */
  predicate HasAt(s: string, k: nat, w: string, i: nat := 0)
    decreases |w| - i
  {
    i >= |w| || (k + i < |s| && s[k + i] == w[i] && HasAt(s, k, w, i + 1))
  }

  lemma {:induction false} HasAtBound(s: string, k: nat, w: string, i: nat := 0)
    requires HasAt(s, k, w, i) && i < |w|
    ensures k + |w| <= |s|
    decreases |w| - i
  {
    if i + 1 < |w| {
      HasAtBound(s, k, w, i + 1);
    }
  }

  /**
   * The length of the first alternative of the marker group that matches at
   * position `k`, or 0 when none does.
   */
  function MarkerLength(s: string, k: nat): (n: nat)
    ensures n > 0 ==> k + n <= |s|
  {
    if k + 9 <= |s| && HasAt(s, k, "youtu") && !IsLineTerminator(s[k + 5]) && HasAt(s, k + 6, "be/") then 9
    else if HasAt(s, k, "v/") then HasAtBound(s, k, "v/"); 2
    else if k + 4 <= |s| && s[k] == 'u' && s[k + 1] == '/' && IsWordChar(s[k + 2]) && s[k + 3] == '/' then 4
    else if HasAt(s, k, "embed/") then HasAtBound(s, k, "embed/"); 6
    else if HasAt(s, k, "watch?v=") then HasAtBound(s, k, "watch?v="); 8
    else if HasAt(s, k, "&v=") then HasAtBound(s, k, "&v="); 3
    else 0
  }

  /** How far the leading `.*` can reach: the index of the first line terminator, or |s|. */
  function LineEnd(s: string, from: nat := 0): (e: nat)
    requires from <= |s|
    ensures from <= e <= |s|
    ensures forall i :: from <= i < e ==> !IsLineTerminator(s[i])
    ensures e < |s| ==> IsLineTerminator(s[e])
    decreases |s| - from
  {
    if from == |s| || IsLineTerminator(s[from]) then from else LineEnd(s, from + 1)
  }

  /** The rightmost position at or below `hi` where a marker matches. */
  function LastMarker(s: string, hi: nat): (r: Option<nat>)
    ensures r.Some? ==> r.value <= hi && MarkerLength(s, r.value) > 0
    ensures r.Some? ==> forall j: nat :: r.value < j <= hi ==> MarkerLength(s, j) == 0
    ensures r.None? ==> forall j: nat :: j <= hi ==> MarkerLength(s, j) == 0
    decreases hi
  {
    if MarkerLength(s, hi) > 0 then Some(hi)
    else if hi == 0 then None
    else LastMarker(s, hi - 1)
  }

  /** The longest run of `[^#\&\?]` starting at `from`. */
  function IdRun(s: string, from: nat): (r: string)
    requires from <= |s|
    ensures from + |r| <= |s| && r == s[from..from + |r|]
    ensures forall i :: 0 <= i < |r| ==> IsIdChar(r[i])
    ensures from + |r| < |s| ==> !IsIdChar(s[from + |r|])
    decreases |s| - from
  {
    if from == |s| || !IsIdChar(s[from]) then [] else [s[from]] + IdRun(s, from + 1)
  }

  /** `getYouTubeVideoId(url)`; `None` stands for `null`. */
  function GetYouTubeVideoId(url: string): (r: Option<string>)
    ensures url == [] ==> r == None
    ensures r.Some? ==> |r.value| == 11 && forall i :: 0 <= i < 11 ==> IsIdChar(r.value[i])
  {
    if url == [] then None
    else match LastMarker(url, LineEnd(url))
      case None => None
      case Some(k) =>
        var id := IdRun(url, k + MarkerLength(url, k));
        if |id| == 11 then Some(id) else None
  }

  /**
   * The regular expression matches `url` with the marker group at `k` and
   * `id` as the second group: `k` is the rightmost reachable marker position.
   */
  ghost predicate MatchesWith(url: string, k: nat, id: string) {
    && k <= LineEnd(url)
    && MarkerLength(url, k) > 0
    && (forall j: nat :: k < j <= LineEnd(url) ==> MarkerLength(url, j) == 0)
    && id == IdRun(url, k + MarkerLength(url, k))
  }

  /** A match exists at all exactly when some reachable position holds a marker. */
  lemma RegexMatchesIff(url: string)
    ensures (exists k: nat, id :: MatchesWith(url, k, id))
        <==> (exists j: nat :: j <= LineEnd(url) && MarkerLength(url, j) > 0)
  {
    var r := LastMarker(url, LineEnd(url));
    if r.Some? {
      assert MatchesWith(url, r.value, IdRun(url, r.value + MarkerLength(url, r.value)));
    }
  }

  /** A reachable marker with none to its right is the one `LastMarker` finds. */
  lemma LastMarkerUnique(s: string, hi: nat, k: nat)
    requires k <= hi && MarkerLength(s, k) > 0
    requires forall j: nat :: k < j <= hi ==> MarkerLength(s, j) == 0
    ensures LastMarker(s, hi) == Some(k)
  {
  }

  /** When the function yields an id, the regular expression matches with that id as its second group. */
  lemma VideoIdSound(url: string, id: string)
    requires GetYouTubeVideoId(url) == Some(id)
    ensures url != [] && |id| == 11 && exists k: nat :: MatchesWith(url, k, id)
  {
    var k := LastMarker(url, LineEnd(url)).value;
    assert MatchesWith(url, k, id);
  }

  /** Whenever the regular expression matches with an 11-character second group, the function yields it. */
  lemma VideoIdComplete(url: string, k: nat, id: string)
    requires url != [] && |id| == 11 && MatchesWith(url, k, id)
    ensures GetYouTubeVideoId(url) == Some(id)
  {
    LastMarkerUnique(url, LineEnd(url), k);
  }

  /** A line with no terminator in it reaches the end of the string. */
  lemma {:induction false} LineEndOfSingleLine(s: string, from: nat)
    requires from <= |s|
    requires forall i :: from <= i < |s| ==> !IsLineTerminator(s[i])
    ensures LineEnd(s, from) == |s|
    decreases |s| - from
  {
    if from < |s| {
      LineEndOfSingleLine(s, from + 1);
    }
  }

  /** The run starting at `from` is `s[from..to]` when that stretch is all id characters and stops at `to`. */
  lemma {:induction false} IdRunIs(s: string, from: nat, to: nat)
    requires from <= to <= |s|
    requires forall i :: from <= i < to ==> IsIdChar(s[i])
    requires to < |s| ==> !IsIdChar(s[to])
    ensures IdRun(s, from) == s[from..to]
    decreases |s| - from
  {
    if from < to {
      IdRunIs(s, from + 1, to);
    }
  }

  /** No line terminator anywhere in `s`. */
  predicate SingleLine(s: string) {
    forall i :: 0 <= i < |s| ==> !IsLineTerminator(s[i])
  }

  /** No marker matches at any position in `lo+1..hi`. */
  predicate NoMarkerIn(s: string, lo: nat, hi: nat) {
    forall j: nat :: lo < j <= hi ==> MarkerLength(s, j) == 0
  }

  /** A marker matches at `k` and at no position in `k+1..hi`. */
  predicate RightmostMarkerAt(s: string, k: nat, hi: nat) {
    k <= hi && MarkerLength(s, k) > 0 && NoMarkerIn(s, k, hi)
  }

  /** `s[from..to]` is a maximal run of `[^#\&\?]`. */
  predicate RunEndsAt(s: string, from: nat, to: nat) {
    && from <= to <= |s|
    && (forall i :: from <= i < to ==> IsIdChar(s[i]))
    && (to < |s| ==> !IsIdChar(s[to]))
  }


  /** `b` loses no line terminator-freeness when appended to `a`. */
  lemma SingleLineConcat(a: string, b: string)
    requires SingleLine(a) && SingleLine(b)
    ensures SingleLine(a + b)
  {
    forall i | 0 <= i < |a + b|
      ensures !IsLineTerminator((a + b)[i])
    {
      if i >= |a| {
        assert (a + b)[i] == b[i - |a|];
      }
    }
  }

  /** An id run followed by a delimiter (or nothing) is a maximal run wherever it sits. */
  lemma RunOfParts(p: string, id: string, tail: string)
    requires forall i :: 0 <= i < |id| ==> IsIdChar(id[i])
    requires tail != [] ==> !IsIdChar(tail[0])
    ensures var s := p + id + tail;
      RunEndsAt(s, |p|, |p| + |id|) && s[|p|..|p| + |id|] == id
  {
    var s := p + id + tail;
    assert forall i :: |p| <= i < |p| + |id| ==> s[i] == id[i - |p|];
    if tail != [] {
      assert s[|p| + |id|] == tail[0];
    }
    assert s[|p|..|p| + |id|] == id;
  }

  lemma {:induction false} HasAtShift(p: string, t: string, k: nat, w: string, i: nat)
    ensures HasAt(p + t, |p| + k, w, i) == HasAt(t, k, w, i)
    decreases |w| - i
  {
    if i < |w| {
      HasAtShift(p, t, k, w, i + 1);
      if k + i < |t| {
        assert (p + t)[|p| + k + i] == t[k + i];
      }
    }
  }

  /** Whether a marker matches depends only on what follows its position. */
  lemma MarkerShift(p: string, t: string, k: nat)
    ensures MarkerLength(p + t, |p| + k) == MarkerLength(t, k)
  {
    HasAtShift(p, t, k, "youtu", 0);
    HasAtShift(p, t, k + 6, "be/", 0);
    HasAtShift(p, t, k, "v/", 0);
    HasAtShift(p, t, k, "embed/", 0);
    HasAtShift(p, t, k, "watch?v=", 0);
    HasAtShift(p, t, k, "&v=", 0);
    if k + 5 < |t| {
      assert (p + t)[|p| + k + 5] == t[k + 5];
    }
    if k + 3 < |t| {
      assert (p + t)[|p| + k] == t[k];
      assert (p + t)[|p| + k + 1] == t[k + 1];
      assert (p + t)[|p| + k + 2] == t[k + 2];
      assert (p + t)[|p| + k + 3] == t[k + 3];
    }
  }

  /** The two characters every marker alternative starts with. */
  predicate OpensMarker(a: char, b: char) {
    || (a == 'y' && b == 'o') || (a == 'v' && b == '/') || (a == 'u' && b == '/')
    || (a == 'e' && b == 'm') || (a == 'w' && b == 'a') || (a == '&' && b == 'v')
  }

  lemma MarkerOpening(s: string, j: nat)
    ensures MarkerLength(s, j) > 0 ==> j + 1 < |s| && OpensMarker(s[j], s[j + 1])
  {
  }

  /** No two neighbouring characters of `s` open a marker. */
  predicate Quiet(s: string) {
    forall j :: 0 <= j < |s| - 1 ==> !OpensMarker(s[j], s[j + 1])
  }

  lemma QuietConcat(a: string, b: string)
    requires Quiet(a) && Quiet(b)
    requires a != [] && b != [] ==> !OpensMarker(a[|a| - 1], b[0])
    ensures Quiet(a + b)
  {
    var s := a + b;
    forall j | 0 <= j < |s| - 1
      ensures !OpensMarker(s[j], s[j + 1])
    {
      if j + 1 < |a| {
        assert s[j] == a[j] && s[j + 1] == a[j + 1];
      } else if j >= |a| {
        assert s[j] == b[j - |a|] && s[j + 1] == b[j + 1 - |a|];
      } else {
        assert s[j] == a[|a| - 1] && s[j + 1] == b[0];
      }
    }
  }

  /** No marker matches anywhere inside a quiet suffix. */
  lemma QuietSuffix(p: string, t: string)
    requires p != [] && Quiet(t)
    ensures NoMarkerIn(p + t, |p| - 1, |p + t|)
  {
    forall j: nat | |p| - 1 < j <= |p + t|
      ensures MarkerLength(p + t, j) == 0
    {
      MarkerShift(p, t, j - |p|);
      MarkerOpening(t, j - |p|);
    }
  }

  /** A run of id characters on one line in which no marker opens. */
  predicate PlainId(id: string) {
    SingleLine(id) && Quiet(id) && forall i :: 0 <= i < |id| ==> IsIdChar(id[i])
  }

  /** What may follow the id: one line, no marker opening, and a delimiter first. */
  predicate PlainTail(t: string) {
    SingleLine(t) && Quiet(t) && (t != [] ==> !IsIdChar(t[0]))
  }

  /** Nothing after a marker's first character opens a marker again. */
  lemma QuietAfterMarker(m: string, id: string, tail: string)
    requires m != [] && Quiet(m[1..]) && (m[|m| - 1] == '/' || m[|m| - 1] == '=')
    requires PlainId(id) && PlainTail(tail)
    ensures Quiet(m[1..] + id + tail)
  {
    var mr := m[1..];
    if mr != [] {
      assert mr[|mr| - 1] == m[|m| - 1];
    }
    QuietConcat(mr, id);
    QuietConcat(mr + id, tail);
  }

  lemma LineOfParts(p: string, m: string, id: string, tail: string)
    requires SingleLine(p) && SingleLine(m) && PlainId(id) && PlainTail(tail)
    ensures var s := p + m + id + tail;
      SingleLine(s) && RunEndsAt(s, |p + m|, |p + m| + |id|) && s[|p + m|..|p + m| + |id|] == id
  {
    SingleLineConcat(p, m);
    SingleLineConcat(p + m, id);
    SingleLineConcat(p + m + id, tail);
    RunOfParts(p + m, id, tail);
  }

  lemma MarkersOfParts(p: string, m: string, id: string, tail: string)
    requires m != [] && Quiet(m[1..]) && (m[|m| - 1] == '/' || m[|m| - 1] == '=')
    requires PlainId(id) && PlainTail(tail)
    ensures var s := p + m + id + tail; var to := |p| + |m| + |id|;
      NoMarkerIn(s, |p|, to) && NoMarkerIn(s, to, |s|)
  {
    var s := p + m + id + tail;
    QuietAfterMarker(m, id, tail);
    var q := p + [m[0]];
    var t := m[1..] + id + tail;
    assert s == q + t;
    QuietSuffix(q, t);
    assert |q| - 1 == |p|;
  }

  /**
   * The id of a one-line link `p + m + id + tail` whose marker `m` starts
   * right after `p` and ends in `/` or `=`, with no marker opening after it:
   * the run `id` when it has 11 characters, and `null` otherwise.
   */
  lemma VideoIdOfParts(p: string, m: string, id: string, tail: string)
    requires SingleLine(p) && SingleLine(m) && m != [] && Quiet(m[1..])
    requires m[|m| - 1] == '/' || m[|m| - 1] == '='
    requires MarkerLength(p + m + id + tail, |p|) == |m|
    requires PlainId(id) && PlainTail(tail)
    ensures GetYouTubeVideoId(p + m + id + tail) == if |id| == 11 then Some(id) else None
  {
    var s := p + m + id + tail;
    var k := |p|;
    var to := |p| + |m| + |id|;
    LineOfParts(p, m, id, tail);
    MarkersOfParts(p, m, id, tail);
    VideoIdOfSingleLine(s, k, to);
  }

  /**
   * The id of a link with no line terminator: the rightmost marker sits at `k`
   * and the run after it ends at `to`.
   */
  lemma VideoIdOfSingleLine(s: string, k: nat, to: nat)
    requires SingleLine(s) && RightmostMarkerAt(s, k, to) && NoMarkerIn(s, to, |s|)
    requires RunEndsAt(s, k + MarkerLength(s, k), to)
    ensures GetYouTubeVideoId(s) == if to - (k + MarkerLength(s, k)) == 11 then Some(s[k + MarkerLength(s, k)..to]) else None
  {
    var n := MarkerLength(s, k);
    LastMarkerOfSingleLine(s, k, to);
    IdRunIs(s, k + n, to);
    VideoIdAt(s, k, s[k + n..to]);
  }

  /** On one line, the rightmost marker is the one the leading `.*` settles on. */
  lemma LastMarkerOfSingleLine(s: string, k: nat, to: nat)
    requires SingleLine(s) && RightmostMarkerAt(s, k, to) && NoMarkerIn(s, to, |s|)
    ensures LastMarker(s, LineEnd(s)) == Some(k)
  {
    LineEndOfSingleLine(s, 0);
    assert forall j: nat :: k < j <= |s| ==> MarkerLength(s, j) == 0 by {
      assert NoMarkerIn(s, k, to) && NoMarkerIn(s, to, |s|);
    }
    LastMarkerUnique(s, |s|, k);
  }

  /** The function's result once the marker position and the run after it are known. */
  lemma VideoIdAt(url: string, k: nat, id: string)
    requires url != [] && LastMarker(url, LineEnd(url)) == Some(k)
    requires k + MarkerLength(url, k) <= |url| && IdRun(url, k + MarkerLength(url, k)) == id
    ensures GetYouTubeVideoId(url) == if |id| == 11 then Some(id) else None
  {
  }

  const ShortHost := "https://"
  const ShortMarker := "youtu.be/"
  const WatchHost := "https://www.youtube.com/"
  const WatchMarker := "watch?v="

  lemma ShortParts()
    ensures SingleLine(ShortHost) && SingleLine(ShortMarker) && Quiet(ShortMarker[1..])
    ensures ShortMarker[|ShortMarker| - 1] == '/'
  {
  }

  lemma WatchParts()
    ensures SingleLine(WatchHost)
    ensures SingleLine(WatchMarker) && Quiet(WatchMarker[1..]) && WatchMarker[|WatchMarker| - 1] == '='
  {
  }

  /** `youtu.be/` matches as the first alternative wherever it stands. */
  lemma ShortMarkerMatches(p: string, x: string)
    ensures MarkerLength(p + ShortMarker + x, |p|) == |ShortMarker|
  {
    MarkerShift(p, ShortMarker + x, 0);
    assert p + ShortMarker + x == p + (ShortMarker + x);
  }

  /** `watch?v=` matches wherever it stands. */
  lemma WatchMarkerMatches(p: string, x: string)
    ensures MarkerLength(p + WatchMarker + x, |p|) == |WatchMarker|
  {
    MarkerShift(p, WatchMarker + x, 0);
    assert p + WatchMarker + x == p + (WatchMarker + x);
  }

  /** A `https://youtu.be/` link yields its id run when that has 11 characters. */
  lemma ShortLinkId(id: string, tail: string)
    requires PlainId(id) && PlainTail(tail)
    ensures GetYouTubeVideoId(ShortHost + ShortMarker + id + tail) == if |id| == 11 then Some(id) else None
  {
    ShortParts();
    ShortMarkerMatches(ShortHost, id + tail);
    assert ShortHost + ShortMarker + (id + tail) == ShortHost + ShortMarker + id + tail;
    VideoIdOfParts(ShortHost, ShortMarker, id, tail);
  }

  /** A `https://www.youtube.com/watch?v=` link yields its id run when that has 11 characters. */
  lemma WatchLinkId(id: string, tail: string)
    requires PlainId(id) && PlainTail(tail)
    ensures GetYouTubeVideoId(WatchHost + WatchMarker + id + tail) == if |id| == 11 then Some(id) else None
  {
    WatchParts();
    WatchMarkerMatches(WatchHost, id + tail);
    assert WatchHost + WatchMarker + (id + tail) == WatchHost + WatchMarker + id + tail;
    VideoIdOfParts(WatchHost, WatchMarker, id, tail);
  }

  lemma ElevenPlain(a: string)
    requires a == "abcdefghijk"
    ensures PlainId(a)
  {
  }

  lemma TenPlain(a: string)
    requires a == "abcdefghij"
    ensures PlainId(a)
  {
  }

  /** `https://youtu.be/abcdefghijk` yields `abcdefghijk`. */
  lemma VideoIdOfShortLink(s: string)
    requires s == ShortHost + ShortMarker + "abcdefghijk"
    ensures GetYouTubeVideoId(s) == Some("abcdefghijk")
  {
    ElevenPlain("abcdefghijk");
    ShortLinkId("abcdefghijk", "");
    assert s == ShortHost + ShortMarker + "abcdefghijk" + "";
  }

  /** A run of ten characters after `watch?v=` is rejected. */
  lemma VideoIdOfTenCharLink(s: string)
    requires s == WatchHost + WatchMarker + "abcdefghij"
    ensures GetYouTubeVideoId(s) == None
  {
    TenPlain("abcdefghij");
    WatchLinkId("abcdefghij", "");
    assert s == WatchHost + WatchMarker + "abcdefghij" + "";
  }
}
