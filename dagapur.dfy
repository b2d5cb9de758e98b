/**
 * The location name the Dagapur page derives from its path
 * (`app/dagapur/page.tsx`): `(pathname || "").slice(1).split("/")`, each
 * segment with its first character upper-cased, joined with spaces.
 */
module Dagapur {
  import opened Wrappers

  /** `toUpperCase` on one character, for the ASCII letters. */
  function ToUpper(c: char): (u: char)
    ensures 'a' <= c <= 'z' ==> u as int == c as int - 32
    ensures !('a' <= c <= 'z') ==> u == c
    ensures u == '/' <==> c == '/'
  {
    if 'a' <= c <= 'z' then (c as int - 32) as char else c
  }

  /** `s.split("/")`: the pieces between slashes, at least one, none containing a slash. */
  function SplitOnSlash(s: string): (r: seq<string>)
    ensures |r| >= 1
    ensures forall i :: 0 <= i < |r| ==> '/' !in r[i]
  {
    if s == [] then [""]
    else if s[0] == '/' then [""] + SplitOnSlash(s[1..])
    else
      var rest := SplitOnSlash(s[1..]);
      [[s[0]] + rest[0]] + rest[1..]
  }

  /** The pieces put back together with slashes. */
  function JoinWithSlashes(segments: seq<string>): string
    requires |segments| >= 1
  {
    if |segments| == 1 then segments[0] else segments[0] + "/" + JoinWithSlashes(segments[1..])
  }

  /** Splitting loses nothing: joining the pieces with slashes gives the text back. */
  lemma {:induction false} SplitRoundTrip(s: string)
    ensures JoinWithSlashes(SplitOnSlash(s)) == s
  {
    if s != [] {
      SplitRoundTrip(s[1..]);
      var rest := SplitOnSlash(s[1..]);
      if s[0] == '/' {
        assert ([""] + rest)[1..] == rest;
      } else {
        var x := [[s[0]] + rest[0]] + rest[1..];
        if |rest| > 1 {
          assert x[1..] == rest[1..];
          assert JoinWithSlashes(rest) == rest[0] + "/" + JoinWithSlashes(rest[1..]);
        }
        assert s == [s[0]] + s[1..];
      }
    }
  }

  /** `segment.charAt(0).toUpperCase() + segment.slice(1)`. */
  function Capitalize(segment: string): (r: string)
    ensures |r| == |segment|
  {
    if segment == [] then [] else [ToUpper(segment[0])] + segment[1..]
  }

  function CapitalizeAll(segments: seq<string>): (r: seq<string>)
    ensures |r| == |segments|
    ensures forall i :: 0 <= i < |r| ==> r[i] == Capitalize(segments[i])
  {
    if segments == [] then [] else [Capitalize(segments[0])] + CapitalizeAll(segments[1..])
  }

  /** `segments.join(" ")`. */
  function JoinWithSpaces(segments: seq<string>): string
    requires |segments| >= 1
  {
    if |segments| == 1 then segments[0] else segments[0] + " " + JoinWithSpaces(segments[1..])
  }

  /** The page's `location` for a pathname (`usePathname` may give `null`). */
  function PathToLocation(pathname: Option<string>): string {
    var p := if pathname.Some? then pathname.value else "";
    var t := if |p| >= 1 then p[1..] else "";
    JoinWithSpaces(CapitalizeAll(SplitOnSlash(t)))
  }

  /**
   * The same transform read character by character: a slash becomes a space,
   * a character opening a segment (the first, when `atStart`, or one after a
   * slash) is upper-cased, and every other character is kept.
   */
  function Scan(t: string, atStart: bool): (r: string)
    ensures |r| == |t|
  {
    if t == [] then []
    else if t[0] == '/' then [' '] + Scan(t[1..], true)
    else [if atStart then ToUpper(t[0]) else t[0]] + Scan(t[1..], false)
  }

  /** The scan's character at `i`. */
  lemma {:induction false} ScanAt(t: string, atStart: bool, i: nat)
    requires i < |t|
    ensures Scan(t, atStart)[i] ==
      (if t[i] == '/' then ' '
       else if (i == 0 && atStart) || (i > 0 && t[i - 1] == '/') then ToUpper(t[i])
       else t[i])
  {
    if i > 0 {
      ScanAt(t[1..], t[0] == '/', i - 1);
      if i > 1 {
        assert t[1..][i - 2] == t[i - 1];
      }
    }
  }

  /** Capitalizing the first segment only when `atStart`, and every later one. */
  function JoinCapitalized(segments: seq<string>, atStart: bool): string
    requires |segments| >= 1
  {
    var first := if atStart then Capitalize(segments[0]) else segments[0];
    JoinWithSpaces([first] + CapitalizeAll(segments[1..]))
  }

  /** A character in front of the first segment comes out in front of the joined text. */
  lemma JoinPrepend(c: char, segments: seq<string>)
    requires |segments| >= 1
    ensures JoinWithSpaces([[c] + segments[0]] + segments[1..]) == [c] + JoinWithSpaces(segments)
  {
    var x := [[c] + segments[0]] + segments[1..];
    if |segments| > 1 {
      assert x[1..] == segments[1..];
    }
  }

  /** Split, capitalize and join is the character-by-character scan. */
  lemma {:induction false} SplitJoinIsScan(t: string, atStart: bool)
    ensures JoinCapitalized(SplitOnSlash(t), atStart) == Scan(t, atStart)
  {
    if t == [] {
    } else if t[0] == '/' {
      var rest := SplitOnSlash(t[1..]);
      SplitJoinIsScan(t[1..], true);
      var segs := [""] + rest;
      assert SplitOnSlash(t) == segs;
      assert segs[1..] == rest;
      assert CapitalizeAll(segs[1..]) == [Capitalize(rest[0])] + CapitalizeAll(rest[1..]);
    } else {
      var rest := SplitOnSlash(t[1..]);
      SplitJoinIsScan(t[1..], false);
      var segs := [[t[0]] + rest[0]] + rest[1..];
      assert SplitOnSlash(t) == segs;
      assert segs[1..] == rest[1..];
      var c := if atStart then ToUpper(t[0]) else t[0];
      var first := if atStart then Capitalize(segs[0]) else segs[0];
      assert first == [c] + rest[0];
      JoinPrepend(c, [rest[0]] + CapitalizeAll(rest[1..]));
      assert ([rest[0]] + CapitalizeAll(rest[1..]))[1..] == CapitalizeAll(rest[1..]);
    }
  }

  /**
   * The location name is the pathname without its first character, each
   * slash turned into a space and each segment's first character
   * upper-cased; nothing else changes and the length is that of the path
   * minus one (zero for a `null` or empty path).
   */
  lemma PathToLocationSpec(pathname: Option<string>)
    ensures var p := if pathname.Some? then pathname.value else "";
      var r := PathToLocation(pathname);
      && |r| == (if |p| >= 1 then |p| - 1 else 0)
      && forall i :: 1 <= i < |p| ==>
        r[i - 1] == (if p[i] == '/' then ' '
                     else if i == 1 || p[i - 1] == '/' then ToUpper(p[i])
                     else p[i])
  {
    var p := if pathname.Some? then pathname.value else "";
    var t := if |p| >= 1 then p[1..] else "";
    SplitJoinIsScan(t, true);
    assert PathToLocation(pathname) == Scan(t, true);
    forall i | 1 <= i < |p|
      ensures Scan(t, true)[i - 1] ==
        (if p[i] == '/' then ' ' else if i == 1 || p[i - 1] == '/' then ToUpper(p[i]) else p[i])
    {
      ScanAt(t, true, i - 1);
      if i > 1 {
        assert t[i - 2] == p[i - 1];
      }
    }
  }

  /** `null` gives the empty name. */
  lemma NullPathIsEmpty()
    ensures PathToLocation(None) == ""
  {
  }

  /** The page's own route gives "Dagapur". */
  lemma DagapurRoute(p: string)
    requires p == "/dagapur"
    ensures PathToLocation(Some(p)) == "Dagapur"
  {
    PathToLocationSpec(Some(p));
    var r := PathToLocation(Some(p));
    assert |r| == 7;
    assert r[0] == ToUpper('d') == 'D';
    assert forall i :: 1 <= i < 7 ==> r[i] == p[i + 1];
  }
}
