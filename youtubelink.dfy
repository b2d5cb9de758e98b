/**
 * `isValidYoutubeLink`, shared verbatim by the three submission forms
 * (`app/page.tsx`, `lib/trial/page.tsx`, `app/trial/page.tsx`): the test of
 * `/^(https?:\/\/)?(www\.)?(youtube\.com|youtu\.?be)\/.+$/`.
 *
 * The regex is given twice: as the language it denotes (some scheme, some
 * `www.` choice and some host, a slash, then one or more characters none of
 * which is a line terminator, since `.` excludes them and `$` without the `m`
 * flag means the end of the input), and as a deterministic left-to-right
 * check.  The two are proved equal.
 */
module YoutubeLink {
  import VideoId

  predicate StartsWith(s: string, p: string) {
    |p| <= |s| && s[..|p|] == p
  }

  /** The alternatives of `(https?:\/\/)?`, `(www\.)?` and `(youtube\.com|youtu\.?be)`. */
  const Schemes: seq<string> := ["", "http://", "https://"]
  const WwwPrefixes: seq<string> := ["", "www."]
  const Hosts: seq<string> := ["youtube.com", "youtube", "youtu.be"]

  /** The text before `.+` for one choice of each group. */
  function LinkPrefix(i: nat, j: nat, k: nat): string
    requires i < |Schemes| && j < |WwwPrefixes| && k < |Hosts|
  {
    Schemes[i] + WwwPrefixes[j] + Hosts[k] + "/"
  }

  /** `url` is that prefix followed by at least one character, none a line terminator. */
  predicate MatchesWith(url: string, i: nat, j: nat, k: nat)
    requires i < |Schemes| && j < |WwwPrefixes| && k < |Hosts|
  {
    var p := LinkPrefix(i, j, k);
    StartsWith(url, p) && |p| < |url| && VideoId.SingleLine(url[|p|..])
  }

  /** The language of the regex. */
  ghost predicate MatchesLinkRegex(url: string) {
    exists i: nat, j: nat, k: nat :: i < |Schemes| && j < |WwwPrefixes| && k < |Hosts| && MatchesWith(url, i, j, k)
  }

  /** How much of `url` the optional scheme takes. */
  function SchemeLength(url: string): (n: nat)
    ensures n <= |url|
  {
    if StartsWith(url, "https://") then 8 else if StartsWith(url, "http://") then 7 else 0
  }

  /** How much the optional `www.` takes. */
  function WwwLength(s: string): (n: nat)
    ensures n <= |s|
  {
    if StartsWith(s, "www.") then 4 else 0
  }

  /** The length of the host together with the slash after it, or 0 when none is there. */
  function HostLength(s: string): (n: nat)
    ensures n <= |s|
    ensures n > 0 ==> s[0] == 'y'
  {
    if StartsWith(s, "youtube.com/") then 12
    else if StartsWith(s, "youtube/") then 8
    else if StartsWith(s, "youtu.be/") then 9
    else 0
  }

  /** `isValidYoutubeLink(url)`, reading the groups left to right. */
  predicate IsValidYoutubeLink(url: string) {
    var a := SchemeLength(url);
    var b := a + WwwLength(url[a..]);
    var c := HostLength(url[b..]);
    c > 0 && b + c < |url| && VideoId.SingleLine(url[b + c..])
  }

  lemma StartsWithConcat(s: string, p: string, q: string)
    ensures StartsWith(s, p + q) <==> StartsWith(s, p) && StartsWith(s[|p|..], q)
  {
    if StartsWith(s, p) && StartsWith(s[|p|..], q) {
      assert s[..|p + q|] == s[..|p|] + s[|p|..][..|q|];
    }
    if StartsWith(s, p + q) {
      assert s[..|p|] == (p + q)[..|p|];
      assert s[|p|..][..|q|] == (p + q)[|p|..];
    }
  }

  /** What follows the scheme in a match starts with `w` or `y`. */
  lemma AfterSchemeStart(j: nat, k: nat)
    requires j < |WwwPrefixes| && k < |Hosts|
    ensures var rest := WwwPrefixes[j] + Hosts[k] + "/"; |rest| > 0 && (rest[0] == 'w' || rest[0] == 'y')
  {
    var rest := WwwPrefixes[j] + Hosts[k] + "/";
    if j == 0 {
      assert rest[0] == Hosts[k][0];
    } else {
      assert rest[0] == WwwPrefixes[j][0];
    }
  }

  /** The scheme length when the text after scheme `i` starts with `w` or `y`. */
  lemma SchemeLengthAt(url: string, i: nat)
    requires i < |Schemes| && StartsWith(url, Schemes[i]) && |Schemes[i]| < |url|
    requires url[|Schemes[i]|] == 'w' || url[|Schemes[i]|] == 'y'
    ensures SchemeLength(url) == |Schemes[i]|
  {
    if i == 0 {
      assert !StartsWith(url, "https://") && !StartsWith(url, "http://") by {
        assert url[0] != 'h';
      }
    } else if i == 1 {
      assert url[..7] == "http://";
      assert !StartsWith(url, "https://") by {
        assert url[4] == ':';
      }
    } else {
      assert url[..8] == "https://";
    }
  }

  /** The scheme the check strips is the one a match chose. */
  lemma SchemeChosen(url: string, i: nat, j: nat, k: nat)
    requires i < |Schemes| && j < |WwwPrefixes| && k < |Hosts| && StartsWith(url, LinkPrefix(i, j, k))
    ensures SchemeLength(url) == |Schemes[i]| && StartsWith(url, Schemes[i])
    ensures StartsWith(url[|Schemes[i]|..], WwwPrefixes[j] + Hosts[k] + "/")
  {
    var rest := WwwPrefixes[j] + Hosts[k] + "/";
    assert LinkPrefix(i, j, k) == Schemes[i] + rest;
    StartsWithConcat(url, Schemes[i], rest);
    AfterSchemeStart(j, k);
    assert url[|Schemes[i]|..][0] == rest[0];
    SchemeLengthAt(url, i);
  }

  /** Likewise for `www.`. */
  lemma WwwChosen(s: string, j: nat, k: nat)
    requires j < |WwwPrefixes| && k < |Hosts| && StartsWith(s, WwwPrefixes[j] + Hosts[k] + "/")
    ensures WwwLength(s) == |WwwPrefixes[j]|
    ensures StartsWith(s[|WwwPrefixes[j]|..], Hosts[k] + "/")
  {
    StartsWithConcat(s, WwwPrefixes[j], Hosts[k] + "/");
    var rest := Hosts[k] + "/";
    assert rest[0] == Hosts[k][0] == 'y';
    assert s[|WwwPrefixes[j]|..][0] == rest[0];
    if j == 0 {
      assert !StartsWith(s, "www.") by {
        assert s[0] == 'y';
      }
    } else {
      assert s[..4] == "www.";
    }
  }

  /** Likewise for the host. */
  lemma HostChosen(s: string, k: nat)
    requires k < |Hosts| && StartsWith(s, Hosts[k] + "/")
    ensures HostLength(s) == |Hosts[k]| + 1
  {
    if k == 1 {
      assert s[7] == '/';
    } else if k == 2 {
      assert s[5] == '.';
    }
  }

  /** Every string of the regex's language passes the check. */
  lemma ValidLinkComplete(url: string, i: nat, j: nat, k: nat)
    requires i < |Schemes| && j < |WwwPrefixes| && k < |Hosts| && MatchesWith(url, i, j, k)
    ensures IsValidYoutubeLink(url)
  {
    SchemeChosen(url, i, j, k);
    var a := |Schemes[i]|;
    WwwChosen(url[a..], j, k);
    var b := a + |WwwPrefixes[j]|;
    assert url[a..][|WwwPrefixes[j]|..] == url[b..];
    HostChosen(url[b..], k);
    assert b + |Hosts[k]| + 1 == |LinkPrefix(i, j, k)|;
  }

  /** The scheme alternative the check took. */
  lemma SchemeTaken(url: string) returns (i: nat)
    ensures i < |Schemes| && |Schemes[i]| == SchemeLength(url) && StartsWith(url, Schemes[i])
  {
    i := if StartsWith(url, "https://") then 2 else if StartsWith(url, "http://") then 1 else 0;
  }

  /** The `www.` alternative the check took. */
  lemma WwwTaken(s: string) returns (j: nat)
    ensures j < |WwwPrefixes| && |WwwPrefixes[j]| == WwwLength(s) && StartsWith(s, WwwPrefixes[j])
  {
    j := if StartsWith(s, "www.") then 1 else 0;
  }

  /** The host alternative the check took, when it found one. */
  lemma HostTaken(s: string) returns (k: nat)
    requires HostLength(s) > 0
    ensures k < |Hosts| && |Hosts[k]| + 1 == HostLength(s) && StartsWith(s, Hosts[k] + "/")
  {
    k := if StartsWith(s, "youtube.com/") then 0 else if StartsWith(s, "youtube/") then 1 else 2;
  }

  /** The choices the check made: it passes only strings of the regex's language. */
  lemma ValidLinkSound(url: string) returns (i: nat, j: nat, k: nat)
    requires IsValidYoutubeLink(url)
    ensures i < |Schemes| && j < |WwwPrefixes| && k < |Hosts| && MatchesWith(url, i, j, k)
  {
    i := SchemeTaken(url);
    var a := SchemeLength(url);
    j := WwwTaken(url[a..]);
    var b := a + WwwLength(url[a..]);
    k := HostTaken(url[b..]);
    StartsWithThree(url, Schemes[i], WwwPrefixes[j], Hosts[k] + "/");
    assert LinkPrefix(i, j, k) == Schemes[i] + WwwPrefixes[j] + (Hosts[k] + "/");
  }

  lemma StartsWithThree(s: string, p: string, q: string, r: string)
    requires StartsWith(s, p) && StartsWith(s[|p|..], q) && StartsWith(s[|p| + |q|..], r)
    ensures StartsWith(s, p + q + r)
  {
    assert s[|p|..][|q|..] == s[|p| + |q|..];
    StartsWithConcat(s[|p|..], q, r);
    StartsWithConcat(s, p, q + r);
    assert p + q + r == p + (q + r);
  }

  /** The check accepts exactly the language of the regex. */
  lemma ValidLinkIff(url: string)
    ensures IsValidYoutubeLink(url) <==> MatchesLinkRegex(url)
  {
    if MatchesLinkRegex(url) {
      var i: nat, j: nat, k: nat :| i < |Schemes| && j < |WwwPrefixes| && k < |Hosts| && MatchesWith(url, i, j, k);
      ValidLinkComplete(url, i, j, k);
    }
    if IsValidYoutubeLink(url) {
      var i, j, k := ValidLinkSound(url);
    }
  }

  /** A valid link has a non-whitespace character (its host), so it never trims to "". */
  lemma ValidLinkHasHost(url: string)
    requires IsValidYoutubeLink(url)
    ensures var b := SchemeLength(url) + WwwLength(url[SchemeLength(url)..]); b < |url| && url[b] == 'y'
  {
    var a := SchemeLength(url);
    var b := a + WwwLength(url[a..]);
    assert url[b..][0] == url[b];
  }

  /** A short link with any tail is accepted. */
  lemma ShortLinkAccepted(url: string)
    requires url == "https://" + "youtu.be/" + "x"
    ensures IsValidYoutubeLink(url)
  {
    ValidLinkComplete(url, 2, 0, 2);
  }

  /** `youtu\.?be` also admits the bare host `youtube`, without `.com`. */
  lemma BareHostAccepted(url: string)
    requires url == "youtube/" + "x"
    ensures IsValidYoutubeLink(url)
  {
    ValidLinkComplete(url, 0, 0, 1);
  }

  /** `.+` needs at least one character after the slash. */
  lemma EmptyTailRejected(url: string)
    requires url == "https://" + "www." + "youtube.com/"
    ensures !IsValidYoutubeLink(url)
  {
    assert SchemeLength(url) == 8;
    assert url[8..] == "www." + "youtube.com/";
    assert WwwLength(url[8..]) == 4;
    assert url[12..] == "youtube.com/";
  }

  /** A line break in the tail stops `.+` before the end of the input. */
  lemma LineBreakRejected(url: string)
    requires url == "youtu.be/" + "a\nb"
    ensures !IsValidYoutubeLink(url)
  {
    assert url[0] == 'y' && url[5] == '.';
    assert url[..9] == "youtu.be/";
    assert url[0..][0..][9..] == url[9..];
    assert url[9..][1] == '\n';
  }
}
