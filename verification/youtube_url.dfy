/**
  `isValidYouTubeUrl` (bot.js:260-262): the regular expression
  `^(https?:\/\/)?(www\.)?(youtube\.com\/(watch\?v=|shorts\/)|youtu\.be\/)`
  anchored only at the start, case-sensitive, with anything allowed after the match.

  `MatchesPattern` states what the expression accepts: some choice of the optional
  scheme, the optional `www.` and one of the three targets, concatenated, is a prefix
  of the text. `IsValidYouTubeUrl` decides it the way a matcher does, stripping the
  optional parts greedily; `ValidIffMatches` proves the two agree, so the greedy
  choice never needs to backtrack.
*/
module YouTubeUrl {

  const Schemes: seq<string> := ["", "http://", "https://"]
  const Subdomains: seq<string> := ["", "www."]
  const Targets: seq<string> := ["youtube.com/watch?v=", "youtube.com/shorts/", "youtu.be/"]

  ghost predicate MatchesPattern(url: string) {
    exists i, j, k ::
      && 0 <= i < |Schemes| && 0 <= j < |Subdomains| && 0 <= k < |Targets|
      && Schemes[i] + Subdomains[j] + Targets[k] <= url
  }

  /** `s` without the prefix `p`, when `s` starts with it. */
  function StripPrefix(s: string, p: string): (r: string)
    ensures p <= s ==> s == p + r
    ensures !(p <= s) ==> r == s
  {
    if p <= s then s[|p|..] else s
  }

  /** What is left after the optional `http://` or `https://`. */
  function AfterScheme(url: string): string {
    if "https://" <= url then url[8..]
    else if "http://" <= url then url[7..]
    else url
  }

  predicate IsValidYouTubeUrl(url: string) {
    var rest := StripPrefix(AfterScheme(url), "www.");
    Targets[0] <= rest || Targets[1] <= rest || Targets[2] <= rest
  }

  lemma ValidIffMatches(url: string)
    ensures IsValidYouTubeUrl(url) <==> MatchesPattern(url)
  {
    if IsValidYouTubeUrl(url) {
      GreedyMatches(url);
    }
    if MatchesPattern(url) {
      var i, j, k :| && 0 <= i < |Schemes| && 0 <= j < |Subdomains| && 0 <= k < |Targets|
                     && Schemes[i] + Subdomains[j] + Targets[k] <= url;
      GreedyAgrees(url, i, j, k);
    }
  }

  /** The parts the greedy matcher strips are a witness for the expression. */
  lemma GreedyMatches(url: string)
    requires IsValidYouTubeUrl(url)
    ensures MatchesPattern(url)
  {
    var i := SchemeSplit(url);
    var j := SubdomainSplit(AfterScheme(url));
    var rest := StripPrefix(AfterScheme(url), "www.");
    var k := if Targets[0] <= rest then 0 else if Targets[1] <= rest then 1 else 2;
    Witness(url, i, j, k, rest);
  }

  /** The optional scheme `AfterScheme` strips is one of the expression's choices. */
  lemma SchemeSplit(url: string) returns (i: nat)
    ensures i < |Schemes| && url == Schemes[i] + AfterScheme(url)
  {
    i := if "https://" <= url then 2 else if "http://" <= url then 1 else 0;
  }

  /** The optional `www.` the matcher strips is one of the expression's choices. */
  lemma SubdomainSplit(s: string) returns (j: nat)
    ensures j < |Subdomains| && s == Subdomains[j] + StripPrefix(s, "www.")
  {
    j := if "www." <= s then 1 else 0;
  }

  /** A decomposition of the text into chosen parts followed by a target is a match. */
  lemma Witness(url: string, i: nat, j: nat, k: nat, rest: string)
    requires i < |Schemes| && j < |Subdomains| && k < |Targets|
    requires url == Schemes[i] + (Subdomains[j] + rest) && Targets[k] <= rest
    ensures MatchesPattern(url)
  {
    PrefixOfConcat(Schemes[i] + Subdomains[j], Targets[k], rest);
    assert Schemes[i] + Subdomains[j] + rest == url;
  }

  /** `p + t` is a prefix of `p + s` exactly when `t` is a prefix of `s`. */
  lemma PrefixOfConcat(p: string, t: string, s: string)
    ensures t <= s <==> p + t <= p + s
  {
    if p + t <= p + s {
      assert forall n :: 0 <= n < |t| ==> t[n] == (p + t)[|p| + n] == (p + s)[|p| + n] == s[n];
    }
  }

  /** Whatever choice the expression makes, the greedy stripping lands on the same target. */
  lemma GreedyAgrees(url: string, i: nat, j: nat, k: nat)
    requires i < |Schemes| && j < |Subdomains| && k < |Targets|
    requires Schemes[i] + Subdomains[j] + Targets[k] <= url
    ensures IsValidYouTubeUrl(url)
  {
    var t := Subdomains[j] + Targets[k];
    assert Schemes[i] + Subdomains[j] + Targets[k] == Schemes[i] + t;
    assert t[0] == 'w' || t[0] == 'y' by {
      assert Targets[k][0] == 'y' && "www."[0] == 'w';
    }
    SchemeStep(url, i, t);
    SubdomainStep(AfterScheme(url), j, k);
  }

  /** When the expression's scheme is followed by `t`, which starts with `w` or `y`,
      `AfterScheme` strips exactly that scheme. */
  lemma SchemeStep(url: string, i: nat, t: string)
    requires i < |Schemes| && Schemes[i] + t <= url
    requires |t| > 0 && (t[0] == 'w' || t[0] == 'y')
    ensures t <= AfterScheme(url)
  {
    var tail := url[|Schemes[i]|..];
    assert url == Schemes[i] + tail;
    PrefixOfConcat(Schemes[i], t, tail);
    SchemeChoice(url, i, tail);
  }

  /** When the expression's `www.` choice is followed by a target, stripping `www.` reaches it. */
  lemma SubdomainStep(s: string, j: nat, k: nat)
    requires j < |Subdomains| && k < |Targets| && Subdomains[j] + Targets[k] <= s
    ensures Targets[0] <= StripPrefix(s, "www.") || Targets[1] <= StripPrefix(s, "www.")
            || Targets[2] <= StripPrefix(s, "www.")
  {
    var rest := s[|Subdomains[j]|..];
    assert s == Subdomains[j] + rest;
    PrefixOfConcat(Subdomains[j], Targets[k], rest);
    assert StripPrefix(s, "www.") == rest by {
      if j == 0 {
        assert rest[0] == Targets[k][0] == 'y';
        assert "www."[0] == 'w';
      }
    }
  }

  /** The scheme the expression matched is the one `AfterScheme` strips. */
  lemma SchemeChoice(url: string, i: nat, tail: string)
    requires i < |Schemes| && url == Schemes[i] + tail
    requires |tail| > 0 && (tail[0] == 'w' || tail[0] == 'y')
    ensures AfterScheme(url) == tail
  {
    assert "https://"[0] == 'h' && "https://"[4] == 's';
    if i == 0 {
      assert url[0] != 'h';
    } else if i == 1 {
      assert url[4] == ':';
    }
  }

  /** Anything may follow an accepted prefix. */
  lemma {:induction false} AcceptsExtensions(url: string, suffix: string)
    requires IsValidYouTubeUrl(url)
    ensures IsValidYouTubeUrl(url + suffix)
  {
    ValidIffMatches(url);
    var i, j, k :| && 0 <= i < |Schemes| && 0 <= j < |Subdomains| && 0 <= k < |Targets|
                   && Schemes[i] + Subdomains[j] + Targets[k] <= url;
    GreedyAgrees(url + suffix, i, j, k);
  }

  /** An accepted text starts with a lower-case `h`, `w` or `y`: the match is case-sensitive
      and anchored at the start, so "HTTPS://…" and "see https://…" are refused. */
  lemma LeadingCharacter(url: string)
    requires IsValidYouTubeUrl(url)
    ensures |url| > 0 && (url[0] == 'h' || url[0] == 'w' || url[0] == 'y')
  {
    var afterScheme := AfterScheme(url);
    if afterScheme == url {
      var rest := StripPrefix(url, "www.");
      if rest == url {
        assert Targets[0][0] == Targets[1][0] == Targets[2][0] == 'y';
        assert Targets[0] <= url || Targets[1] <= url || Targets[2] <= url;
      } else {
        assert "www."[0] == 'w';
      }
    } else {
      assert "https://"[0] == 'h' && "http://"[0] == 'h';
    }
  }

  lemma RefusesUpperCaseScheme()
    ensures !IsValidYouTubeUrl("HTTPS://youtu.be/x")
  {
    var url := "HTTPS://youtu.be/x";
    if IsValidYouTubeUrl(url) {
      LeadingCharacter(url);
    }
  }

  /** A link that only appears later in the text is refused, even behind a scheme the
      matcher strips. */
  lemma RefusesUnanchoredMatch()
    ensures !IsValidYouTubeUrl("https://example.com/?u=https://youtu.be/x")
  {
    var url := "https://example.com/?u=https://youtu.be/x";
    var rest := url[8..];
    assert url == "https://" + rest;
    assert AfterScheme(url) == rest;
    assert StripPrefix(rest, "www.") == rest by {
      assert rest[0] == 'e' && "www."[0] == 'w';
    }
    assert rest[0] == 'e' && Targets[0][0] == 'y' && Targets[1][0] == 'y' && Targets[2][0] == 'y';
  }

  lemma AcceptsShortLink()
    ensures IsValidYouTubeUrl("youtu.be/abc?t=42")
  {
    var url := "youtu.be/abc?t=42";
    assert url == Schemes[0] + Subdomains[0] + Targets[2] + "abc?t=42";
    GreedyAgrees(url, 0, 0, 2);
  }
}
