/**
 * `is_valid_youtube_url` of utils/helpers.py: Python's `re.match` of the
 * pattern  (https?://)?(www\.)?(youtube\.com|youtu\.?be)/.+$  against a string.
 *
 * `IsValidYoutubeUrl` is a hand-written, left-to-right matcher.  `Accepted`
 * is the meaning of the pattern written down independently: some prefix the
 * pattern's first four groups can spell, followed by a tail that `.+$`
 * matches.  `IsValidYoutubeUrlMeaning` proves the two agree on every string.
 */
module Helpers {

  /** The spellings of each optional or alternative group, in pattern order. */
  const Schemes: seq<string> := ["", "http://", "https://"]   // (https?://)?
  const Subdomains: seq<string> := ["", "www."]                // (www\.)?
  const Hosts: seq<string> := ["youtube.com", "youtu.be", "youtube"]  // youtube\.com | youtu\.?be

  /** No character of `r` is a newline, so `.` matches each of them. */
  predicate NoNewline(r: string) {
    forall i :: 0 <= i < |r| ==> r[i] != '\n'
  }

  /**
   * `.+$` matches all of `r`: `.+` takes k >= 1 characters other than a
   * newline, and `$` then holds at the end of the string or just before a
   * newline that ends it.
   */
  ghost predicate TailMatches(r: string) {
    exists k :: 1 <= k <= |r| && NoNewline(r[..k]) && (k == |r| || (k == |r| - 1 && r[k] == '\n'))
  }

  /**
   * `url` is scheme spelling i, subdomain spelling j, host spelling h, a
   * slash, and a `rest` that `.+$` matches.
   */
  ghost predicate SpelledAs(url: string, i: int, j: int, h: int, rest: string) {
    0 <= i < |Schemes| && 0 <= j < |Subdomains| && 0 <= h < |Hosts| &&
    url == Schemes[i] + (Subdomains[j] + (Hosts[h] + ("/" + rest))) && TailMatches(rest)
  }

  /** The strings the pattern matches from their first character. */
  ghost predicate Accepted(url: string) {
    exists i, j, h, rest :: SpelledAs(url, i, j, h, rest)
  }

  // ---------------------------------------------------------------- matcher

  /** `.*$` after at least one `.`: characters other than a newline, then the end or a final newline. */
  function MatchDotsToEnd(r: string): bool
  {
    if r == [] || r == "\n" then true
    else r[0] != '\n' && MatchDotsToEnd(r[1..])
  }

  /** `.+$` */
  function MatchTail(r: string): bool
  {
    |r| > 0 && r[0] != '\n' && MatchDotsToEnd(r[1..])
  }

  /** `(https?://)?`: skip the scheme when there is one. */
  function SkipScheme(s: string): (r: string)
    ensures |r| <= |s|
  {
    if "https://" <= s then s[8..]
    else if "http://" <= s then s[7..]
    else s
  }

  /** `(www\.)?` */
  function SkipSubdomain(s: string): (r: string)
    ensures |r| <= |s|
  {
    if "www." <= s then s[4..] else s
  }

  /** `(youtube\.com|youtu\.?be)/.+$` */
  function MatchHostAndPath(s: string): bool
  {
    if "youtube.com/" <= s then MatchTail(s[12..])
    else if "youtu.be/" <= s then MatchTail(s[9..])
    else if "youtube/" <= s then MatchTail(s[8..])
    else false
  }

  /** `is_valid_youtube_url(url)`: total, a Boolean for every string. */
  function IsValidYoutubeUrl(url: string): bool
  {
    MatchHostAndPath(SkipSubdomain(SkipScheme(url)))
  }

  // ---------------------------------------------------------------- `.+$`

  /** The scan for `.*$` accepts exactly the newline-free strings, with or without one final newline. */
  lemma {:induction false} MatchDotsToEndMeaning(r: string)
    ensures MatchDotsToEnd(r) <==> NoNewline(r) || (|r| > 0 && r[|r| - 1] == '\n' && NoNewline(r[..|r| - 1]))
  {
    if r != [] && r != "\n" {
      MatchDotsToEndMeaning(r[1..]);
      assert NoNewline(r) <==> r[0] != '\n' && NoNewline(r[1..]) by {
        if r[0] != '\n' && NoNewline(r[1..]) {
          forall i | 0 <= i < |r| ensures r[i] != '\n' {
            if i > 0 { assert r[i] == r[1..][i - 1]; }
          }
        }
      }
      if |r| > 1 {
        var init := r[..|r| - 1];
        assert r[1..][..|r[1..]| - 1] == init[1..];
        assert r[1..][|r[1..]| - 1] == r[|r| - 1];
        assert NoNewline(init) <==> init[0] != '\n' && NoNewline(init[1..]) by {
          if init[0] != '\n' && NoNewline(init[1..]) {
            forall i | 0 <= i < |init| ensures init[i] != '\n' {
              if i > 0 { assert init[i] == init[1..][i - 1]; }
            }
          }
        }
      }
    }
  }

  /** The matcher for `.+$` agrees with the pattern's meaning. */
  lemma MatchTailMeaning(r: string)
    ensures MatchTail(r) <==> TailMatches(r)
  {
    if MatchTail(r) {
      MatchDotsToEndMeaning(r[1..]);
      if NoNewline(r[1..]) {
        assert r[..|r|] == r;
        assert forall i :: 0 < i < |r| ==> r[i] == r[1..][i - 1];
        assert NoNewline(r[..|r|]);
      } else {
        var k := |r| - 1;
        assert r[1..][..|r[1..]| - 1] == r[..k][1..];
        assert forall i :: 0 < i < k ==> r[..k][i] == r[..k][1..][i - 1];
        assert NoNewline(r[..k]);
      }
    }
    if TailMatches(r) {
      var k :| 1 <= k <= |r| && NoNewline(r[..k]) && (k == |r| || (k == |r| - 1 && r[k] == '\n'));
      assert r[0] == r[..k][0];
      assert forall i :: 0 <= i < k - 1 ==> r[1..][i] == r[..k][i + 1];
      MatchDotsToEndMeaning(r[1..]);
      if k == |r| {
        assert NoNewline(r[1..]);
      } else {
        assert r[1..][..|r[1..]| - 1] == r[..k][1..];
      }
    }
  }

  // ---------------------------------------------------------------- the groups

  /** Whatever `SkipScheme` drops is one of the scheme spellings. */
  lemma SkipSchemeSplits(url: string) returns (i: nat)
    ensures i < |Schemes| && url == Schemes[i] + SkipScheme(url)
  {
    if "https://" <= url {
      i := 2;
      assert url == url[..8] + url[8..];
    } else if "http://" <= url {
      i := 1;
      assert url == url[..7] + url[7..];
    } else {
      i := 0;
    }
  }

  /** Whatever `SkipSubdomain` drops is one of the subdomain spellings. */
  lemma SkipSubdomainSplits(s: string) returns (j: nat)
    ensures j < |Subdomains| && s == Subdomains[j] + SkipSubdomain(s)
  {
    if "www." <= s {
      j := 1;
      assert s == s[..4] + s[4..];
    } else {
      j := 0;
    }
  }

  /** A host match names one of the host spellings, a slash and a tail that `.+$` matches. */
  lemma MatchHostAndPathSplits(s: string) returns (h: nat, tail: string)
    requires MatchHostAndPath(s)
    ensures h < |Hosts| && s == Hosts[h] + ("/" + tail) && MatchTail(tail)
  {
    if "youtube.com/" <= s {
      h, tail := 0, s[12..];
      assert s[..12] == Hosts[0] + "/";
      assert s == s[..12] + s[12..];
    } else if "youtu.be/" <= s {
      h, tail := 1, s[9..];
      assert s[..9] == Hosts[1] + "/";
      assert s == s[..9] + s[9..];
    } else {
      h, tail := 2, s[8..];
      assert s[..8] == Hosts[2] + "/";
      assert s == s[..8] + s[8..];
    }
  }

  /** `p` is not a prefix of `s` when they differ at some position of `p`, or `s` ends first. */
  lemma NotPrefix(p: string, s: string, k: nat)
    requires k < |p| && (k >= |s| || p[k] != s[k])
    ensures !(p <= s)
  {
  }

  /** A scheme spelling in front of a string that starts like a subdomain or host is skipped exactly. */
  lemma SkipSchemeOf(i: nat, rest: string)
    requires i < |Schemes| && |rest| > 0 && (rest[0] == 'w' || rest[0] == 'y')
    ensures SkipScheme(Schemes[i] + rest) == rest
  {
    var url := Schemes[i] + rest;
    if i == 0 {
      assert url == rest;
      assert !("https://" <= url) && !("http://" <= url);
    } else if i == 1 {
      assert url[4] == ':';
      assert !("https://" <= url);
      assert url[..7] == "http://";
      assert url[7..] == rest;
    } else {
      assert url[..8] == "https://";
      assert url[8..] == rest;
    }
  }

  /** A subdomain spelling in front of a string that starts like a host is skipped exactly. */
  lemma SkipSubdomainOf(j: nat, rest: string)
    requires j < |Subdomains| && |rest| > 0 && rest[0] == 'y'
    ensures SkipSubdomain(Subdomains[j] + rest) == rest
  {
    var s := Subdomains[j] + rest;
    if j == 0 {
      assert s == rest;
      assert !("www." <= s);
    } else {
      assert s[..4] == "www.";
      assert s[4..] == rest;
    }
  }

  /** After a host spelling and its slash, acceptance is decided by the tail alone. */
  lemma MatchHostAndPathOf(h: nat, tail: string)
    requires h < |Hosts|
    ensures MatchHostAndPath(Hosts[h] + ("/" + tail)) == MatchTail(tail)
  {
    var s := Hosts[h] + ("/" + tail);
    if h == 0 {
      assert s[..12] == "youtube.com/";
      assert s[12..] == tail;
    } else if h == 1 {
      assert s[5] == '.';
      assert !("youtube.com/" <= s);
      assert s[..9] == "youtu.be/";
      assert s[9..] == tail;
    } else {
      assert s[7] == '/';
      assert !("youtube.com/" <= s);
      assert !("youtu.be/" <= s);
      assert s[..8] == "youtube/";
      assert s[8..] == tail;
    }
  }

  // ---------------------------------------------------------------- the whole pattern

  /** Every string the matcher accepts is one the pattern matches. */
  lemma IsValidYoutubeUrlSound(url: string)
    requires IsValidYoutubeUrl(url)
    ensures Accepted(url)
  {
    var i := SkipSchemeSplits(url);
    var j := SkipSubdomainSplits(SkipScheme(url));
    var afterScheme := SkipScheme(url);
    var afterSubdomain := SkipSubdomain(afterScheme);
    var h, tail := MatchHostAndPathSplits(afterSubdomain);
    MatchTailMeaning(tail);
    assert SpelledAs(url, i, j, h, tail);
  }

  /**
   * Every string the pattern matches is accepted: backtracking into another
   * spelling of an optional group never finds a match that the matcher's
   * left-to-right choice misses.
   */
  lemma IsValidYoutubeUrlComplete(url: string)
    requires Accepted(url)
    ensures IsValidYoutubeUrl(url)
  {
    var i, j, h, rest :| SpelledAs(url, i, j, h, rest);
    var afterHost := Hosts[h] + ("/" + rest);
    var afterScheme := Subdomains[j] + afterHost;
    assert url == Schemes[i] + afterScheme;
    assert afterHost[0] == 'y';
    assert afterScheme[0] == 'w' || afterScheme[0] == 'y';
    SkipSchemeOf(i, afterScheme);
    SkipSubdomainOf(j, afterHost);
    MatchHostAndPathOf(h, rest);
    MatchTailMeaning(rest);
  }

  /** `is_valid_youtube_url` is exactly `re.match` of the pattern, anchored at the first character. */
  lemma IsValidYoutubeUrlMeaning(url: string)
    ensures IsValidYoutubeUrl(url) <==> Accepted(url)
  {
    if IsValidYoutubeUrl(url) { IsValidYoutubeUrlSound(url); }
    if Accepted(url) { IsValidYoutubeUrlComplete(url); }
  }

  // ---------------------------------------------------------------- corner cases

  /**
   * The match is anchored at the first character: a string that does not
   * start with the first letter of a scheme, of `www.` or of a host (so any
   * other scheme, a leading space, another subdomain, upper case) is rejected.
   */
  lemma RejectsOtherFirstCharacter(url: string)
    requires url == [] || (url[0] != 'h' && url[0] != 'w' && url[0] != 'y')
    ensures !IsValidYoutubeUrl(url)
  {
  }

  /** At least one character must follow the slash: the bare host, with or without its slash, is rejected. */
  lemma {:induction false} RejectsEmptyPath(i: nat, j: nat, h: nat)
    requires i < |Schemes| && j < |Subdomains| && h < |Hosts|
    ensures !IsValidYoutubeUrl(Schemes[i] + (Subdomains[j] + Hosts[h]))
    ensures !IsValidYoutubeUrl(Schemes[i] + (Subdomains[j] + (Hosts[h] + "/")))
    ensures !IsValidYoutubeUrl(Schemes[i] + (Subdomains[j] + (Hosts[h] + "/\n")))
  {
    var host := Hosts[h];
    assert host[0] == 'y' && (Subdomains[j] + host)[0] in "wy";
    SkipSchemeOf(i, Subdomains[j] + host);
    SkipSubdomainOf(j, host);
    assert !MatchHostAndPath(host) by {
      if h == 0 {
        NotPrefix("youtube.com/", host, 11);
        NotPrefix("youtu.be/", host, 5);
        NotPrefix("youtube/", host, 7);
      } else if h == 1 {
        NotPrefix("youtube/", host, 5);
      }
    }
    assert host + "/" == host + ("/" + []);
    assert (Subdomains[j] + (host + "/"))[0] in "wy";
    SkipSchemeOf(i, Subdomains[j] + (host + "/"));
    SkipSubdomainOf(j, host + "/");
    MatchHostAndPathOf(h, []);
    assert host + "/\n" == host + ("/" + "\n");
    assert (Subdomains[j] + (host + "/\n"))[0] in "wy";
    SkipSchemeOf(i, Subdomains[j] + (host + "/\n"));
    SkipSubdomainOf(j, host + "/\n");
    MatchHostAndPathOf(h, "\n");
  }

  /** Any non-empty path without a newline is accepted after any spelling, and so is the same path with one final newline. */
  lemma {:induction false} AcceptsNewlineFreePath(i: nat, j: nat, h: nat, path: string)
    requires i < |Schemes| && j < |Subdomains| && h < |Hosts| && |path| > 0 && NoNewline(path)
    ensures IsValidYoutubeUrl(Schemes[i] + (Subdomains[j] + (Hosts[h] + ("/" + path))))
    ensures IsValidYoutubeUrl(Schemes[i] + (Subdomains[j] + (Hosts[h] + ("/" + (path + "\n")))))
  {
    var withNewline := path + "\n";
    assert withNewline[..|withNewline| - 1] == path;
    forall r | r == path || r == withNewline
      ensures IsValidYoutubeUrl(Schemes[i] + (Subdomains[j] + (Hosts[h] + ("/" + r))))
    {
      assert TailMatches(r) by {
        assert r[..|path|] == path;
      }
      assert SpelledAs(Schemes[i] + (Subdomains[j] + (Hosts[h] + ("/" + r))), i, j, h, r);
      IsValidYoutubeUrlComplete(Schemes[i] + (Subdomains[j] + (Hosts[h] + ("/" + r))));
    }
  }

  /** A newline anywhere in the path except at its very end causes rejection. */
  lemma {:induction false} RejectsInnerNewline(i: nat, j: nat, h: nat, before: string, after: string)
    requires i < |Schemes| && j < |Subdomains| && h < |Hosts| && |after| > 0
    ensures !IsValidYoutubeUrl(Schemes[i] + (Subdomains[j] + (Hosts[h] + ("/" + (before + ("\n" + after))))))
  {
    var path := before + ("\n" + after);
    var url := Schemes[i] + (Subdomains[j] + (Hosts[h] + ("/" + path)));
    assert (Subdomains[j] + (Hosts[h] + ("/" + path)))[0] in "wy";
    SkipSchemeOf(i, Subdomains[j] + (Hosts[h] + ("/" + path)));
    SkipSubdomainOf(j, Hosts[h] + ("/" + path));
    MatchHostAndPathOf(h, path);
    MatchTailMeaning(path);
    forall k | |before| < k <= |path|
      ensures !NoNewline(path[..k])
    {
      assert path[..k][|before|] == '\n';
    }
  }

  /**
   * The bare host `youtube` is accepted, because the dot in youtu\.?be is
   * optional.  The literal arrives as a parameter pinned by `requires`, so
   * the verifier does not unfold it character by character in the contract.
   */
  lemma AcceptsBareHost(url: string)
    requires url == "youtube/x"
    ensures IsValidYoutubeUrl(url)
  {
    assert NoNewline("x");
    AcceptsNewlineFreePath(0, 0, 2, "x");
    assert Schemes[0] + (Subdomains[0] + (Hosts[2] + ("/" + "x"))) == url;
  }

  /**
   * The host must be followed by the slash at once: `youtube.com` followed
   * by a dot (say `youtube.com.evil.com/x`) is rejected whatever comes next.
   */
  lemma {:induction false} RejectsLongerHost(i: nat, j: nat, rest: string)
    requires i < |Schemes| && j < |Subdomains|
    ensures !IsValidYoutubeUrl(Schemes[i] + (Subdomains[j] + ("youtube.com." + rest)))
  {
    var host := "youtube.com." + rest;
    assert (Subdomains[j] + host)[0] in "wy";
    SkipSchemeOf(i, Subdomains[j] + host);
    SkipSubdomainOf(j, host);
    NotPrefix("youtube.com/", host, 11);
    NotPrefix("youtu.be/", host, 5);
    NotPrefix("youtube/", host, 7);
  }

  /** After the slash anything goes, a leading dot included (say `youtube.com/.evil`). */
  lemma {:induction false} AcceptsDotAfterSlash(rest: string)
    requires NoNewline(rest)
    ensures IsValidYoutubeUrl("youtube.com/." + rest)
  {
    var url := "youtube.com/." + rest;
    NotPrefix("https://", url, 0);
    NotPrefix("http://", url, 0);
    NotPrefix("www.", url, 0);
    assert url[..12] == "youtube.com/";
    assert url[12..] == "." + rest;
    assert ("." + rest)[1..] == rest;
    MatchDotsToEndMeaning(rest);
  }

  /**
   * Matching is case-sensitive and anchored at the first character.  The
   * literals arrive as a parameter, as in `AcceptsBareHost`.
   */
  lemma RejectsOtherSpellings(url: string)
    requires url in {"YouTube.com/x", "HTTPS://youtube.com/x", "https://YouTube.com/x",
                     "ftp://youtube.com/x", " youtube.com/x", "m.youtube.com/x"}
    ensures !IsValidYoutubeUrl(url)
  {
    if url == "https://YouTube.com/x" {
      var upper := "YouTube.com/x";
      assert url == "https://" + upper;
      assert url[..8] == "https://";
      assert SkipScheme(url) == upper;
      NotPrefix("www.", upper, 0);
      NotPrefix("youtube.com/", upper, 0);
      NotPrefix("youtu.be/", upper, 0);
      NotPrefix("youtube/", upper, 0);
    } else {
      RejectsOtherFirstCharacter(url);
    }
  }
}
