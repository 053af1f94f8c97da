/** The link splitter of the chat view: a message is scanned for URLs
    (optionally wrapped in parentheses) and cut into an ordered list of text
    parts and link parts, each link shown under a title derived from its path
    or host name. The URL parser of the browser is a parameter. */
module MessageContent {
  import opened Wrappers

  /** One element of a rendered message. */
  datatype Part = Text(text: string) | Link(text: string, url: string)

  /** What the URL parser yields for a link target. */
  datatype ParsedUrl = ParsedUrl(hostname: string, pathname: string)

  /** One match of the link pattern: content[start..end] is the whole match,
      content[urlStart..urlEnd] its capture group (the URL itself). */
  datatype Match = Match(start: nat, urlStart: nat, urlEnd: nat, end: nat)

  // ---------------------------------------------------------------------
  // The link pattern  \(?(https?:\/\/[^\s)]+)\)?  as an explicit scanner
  // ---------------------------------------------------------------------

  /** The class \s of ECMAScript regular expressions. */
  predicate IsSpace(c: char) {
    c == '\t' || c == '\n' || c == '\U{B}' || c == '\U{C}' || c == '\r' || c == ' '
    || c == '\U{A0}' || c == '\U{1680}' || ('\U{2000}' <= c <= '\U{200A}')
    || c == '\U{2028}' || c == '\U{2029}' || c == '\U{202F}' || c == '\U{205F}'
    || c == '\U{3000}' || c == '\U{FEFF}'
  }

  /** The class [^\s)]: a character that may continue a URL. */
  predicate IsUrlChar(c: char) {
    !IsSpace(c) && c != ')'
  }

  predicate StartsAt(s: string, i: nat, w: string) {
    i + |w| <= |s| && s[i..i + |w|] == w
  }

  /** The language of the capture group https?:\/\/[^\s)]+ */
  predicate IsUrl(u: string) {
    ((StartsAt(u, 0, "http://") && |u| > 7) || (StartsAt(u, 0, "https://") && |u| > 8))
    && forall k :: 0 <= k < |u| ==> IsUrlChar(u[k])
  }

  /** The end of the longest run of URL characters starting at j. */
  function UrlCharsEnd(s: string, j: nat): (e: nat)
    requires j <= |s|
    ensures j <= e <= |s|
    ensures forall k :: j <= k < e ==> IsUrlChar(s[k])
    ensures e == |s| || !IsUrlChar(s[e])
    decreases |s| - j
  {
    if j < |s| && IsUrlChar(s[j]) then UrlCharsEnd(s, j + 1) else j
  }

  /** A scheme followed by at least one URL character is a URL. */
  lemma SchemeThenUrlChars(s: string, i: nat, scheme: string, e: nat)
    requires scheme == "http://" || scheme == "https://"
    requires StartsAt(s, i, scheme) && i + |scheme| < e <= |s|
    requires forall k :: i + |scheme| <= k < e ==> IsUrlChar(s[k])
    ensures IsUrl(s[i..e])
  {
    var u := s[i..e];
    assert u[..|scheme|] == scheme;
    forall k | 0 <= k < |u|
      ensures IsUrlChar(u[k])
    {
      if k < |scheme| {
        assert u[k] == scheme[k];
      } else {
        assert u[k] == s[i + k];
      }
    }
  }

  /** A URL starts with a scheme and a URL character right after it. */
  lemma UrlHasScheme(s: string, i: nat, e: nat)
    requires i < e <= |s| && IsUrl(s[i..e])
    ensures (StartsAt(s, i, "https://") && i + 8 < e && IsUrlChar(s[i + 8]))
            || (StartsAt(s, i, "http://") && i + 7 < e && IsUrlChar(s[i + 7]))
  {
  }

  /** Where the capture group ends when a URL starts at i (UrlEndAtMeaning). */
  function UrlEndAt(s: string, i: nat): (r: Option<nat>)
    requires i <= |s|
    ensures r.Some? ==> i < r.value <= |s|
  {
    if StartsAt(s, i, "https://") && UrlCharsEnd(s, i + 8) > i + 8 then Some(UrlCharsEnd(s, i + 8))
    else if StartsAt(s, i, "http://") && UrlCharsEnd(s, i + 7) > i + 7 then Some(UrlCharsEnd(s, i + 7))
    else None
  }

  /** The greedy [^\s)]+ takes the longest run: the URL found is followed
      by the end of the text, a space or a closing parenthesis; when none is
      found, no URL starts at i. */
  lemma UrlEndAtMeaning(s: string, i: nat)
    requires i <= |s|
    ensures UrlEndAt(s, i).Some? ==> IsUrl(s[i..UrlEndAt(s, i).value])
    ensures UrlEndAt(s, i).Some? ==> UrlEndAt(s, i).value == |s| || !IsUrlChar(s[UrlEndAt(s, i).value])
    ensures UrlEndAt(s, i).None? ==> NoUrlAt(s, i)
  {
    if StartsAt(s, i, "https://") && UrlCharsEnd(s, i + 8) > i + 8 {
      SchemeThenUrlChars(s, i, "https://", UrlCharsEnd(s, i + 8));
    } else if StartsAt(s, i, "http://") && UrlCharsEnd(s, i + 7) > i + 7 {
      SchemeThenUrlChars(s, i, "http://", UrlCharsEnd(s, i + 7));
    } else {
      forall e | i < e <= |s| && IsUrl(s[i..e])
        ensures false
      {
        UrlHasScheme(s, i, e);
      }
    }
  }

  /** No URL starts at position i of s. */
  predicate NoUrlAt(s: string, i: nat)
    requires i <= |s|
  {
    forall e :: i < e <= |s| ==> !IsUrl(s[i..e])
  }

  /** Where a match of the pattern lies inside s. */
  predicate WellPlaced(s: string, m: Match) {
    m.start <= m.urlStart < m.urlEnd <= m.end <= |s|
  }

  predicate AllWellPlaced(s: string, ms: seq<Match>) {
    forall k :: 0 <= k < |ms| ==> ms[k].start <= ms[k].urlStart < ms[k].urlEnd <= ms[k].end <= |s|
  }

  /** The match of the pattern that starts exactly at p, if any. */
  function MatchAt(s: string, p: nat): (r: Option<Match>)
    requires p <= |s|
    ensures r.Some? ==> r.value.start == p && WellPlaced(s, r.value)
  {
    if p < |s| && s[p] == '(' && UrlEndAt(s, p + 1).Some? then
      var e := UrlEndAt(s, p + 1).value;
      Some(Match(p, p + 1, e, if e < |s| && s[e] == ')' then e + 1 else e))
    else
      match UrlEndAt(s, p)
      case None => None
      case Some(e) => Some(Match(p, p, e, if e < |s| && s[e] == ')' then e + 1 else e))
  }

  /** What a match at p is: an opening parenthesis exactly when one is
      there, then a URL that runs as far as it can, then a closing
      parenthesis exactly when one follows. Without a match, no URL starts
      at p, neither bare nor after an opening parenthesis. */
  lemma MatchAtMeaning(s: string, p: nat)
    requires p <= |s|
    ensures MatchAt(s, p).Some? ==>
      var m := MatchAt(s, p).value;
      (m.urlStart == p + 1 <==> s[p] == '(')
      && (m.urlStart == p || m.urlStart == p + 1)
      && IsUrl(s[m.urlStart..m.urlEnd])
      && (m.urlEnd == |s| || !IsUrlChar(s[m.urlEnd]))
      && (m.end == m.urlEnd + 1 <==> m.urlEnd < |s| && s[m.urlEnd] == ')')
      && (m.end == m.urlEnd || m.end == m.urlEnd + 1)
    ensures MatchAt(s, p).None? ==>
      NoUrlAt(s, p)
      && (p < |s| && s[p] == '(' ==> NoUrlAt(s, p + 1))
  {
    UrlEndAtMeaning(s, p);
    if p < |s| {
      UrlEndAtMeaning(s, p + 1);
    }
    if !(p < |s| && s[p] == '(' && UrlEndAt(s, p + 1).Some?) {
      var e := UrlEndAt(s, p);
      if e.Some? {
        assert s[p..e.value][0] == 'h';
      }
    }
  }

  /** RegExp.prototype.exec with the global flag: the leftmost match that
      starts at or after `from` (ExecFindsLeftmost). */
  function Exec(s: string, from: nat): (r: Option<Match>)
    requires from <= |s|
    ensures r.Some? ==> from <= r.value.start && WellPlaced(s, r.value)
    decreases |s| - from
  {
    match MatchAt(s, from)
    case Some(m) => Some(m)
    case None => if from == |s| then None else Exec(s, from + 1)
  }

  /** exec returns the match at the first position where the pattern
      matches, and nothing when it matches nowhere from `from` on. */
  lemma {:induction false} ExecFindsLeftmost(s: string, from: nat)
    requires from <= |s|
    ensures Exec(s, from).Some? ==> MatchAt(s, Exec(s, from).value.start) == Exec(s, from)
    ensures forall p :: from <= p <= |s| && (Exec(s, from).None? || p < Exec(s, from).value.start)
                        ==> MatchAt(s, p).None?
    decreases |s| - from
  {
    if MatchAt(s, from).None? && from < |s| {
      var r := Exec(s, from + 1);
      assert Exec(s, from) == r;
      ExecFindsLeftmost(s, from + 1);
      forall p | from <= p <= |s| && (r.None? || p < r.value.start)
        ensures MatchAt(s, p).None?
      {
        if p > from {
          assert from + 1 <= p;
        }
      }
    }
  }

  /** The successive matches that repeated calls of exec find from `from`. */
  function MatchesFrom(s: string, from: nat): (ms: seq<Match>)
    requires from <= |s|
    ensures AllWellPlaced(s, ms)
    ensures forall k :: 0 <= k < |ms| ==> from <= ms[k].start
    ensures forall k :: 0 < k < |ms| ==> ms[k - 1].end <= ms[k].start
    decreases |s| - from
  {
    match Exec(s, from)
    case None => []
    case Some(m) =>
      var rest := MatchesFrom(s, m.end);
      var ms := [m] + rest;
      assert forall k :: 0 < k < |ms| ==> ms[k] == rest[k - 1];
      assert AllWellPlaced(s, ms) by {
        forall k | 0 <= k < |ms|
          ensures ms[k].start <= ms[k].urlStart < ms[k].urlEnd <= ms[k].end <= |s|
        {
          if k > 0 {
            assert ms[k] == rest[k - 1];
          }
        }
      }
      ms
  }

  /** All matches of the link pattern in s, in order. */
  function Matches(s: string): (ms: seq<Match>)
    ensures AllWellPlaced(s, ms)
  {
    MatchesFrom(s, 0)
  }

  /** The matched substrings (with any parentheses they consumed). */
  function Raws(s: string, ms: seq<Match>): (r: seq<string>)
    requires AllWellPlaced(s, ms)
    ensures |r| == |ms|
    ensures forall k :: 0 <= k < |ms| ==> r[k] == s[ms[k].start..ms[k].end]
  {
    seq(|ms|, k requires 0 <= k < |ms| => s[ms[k].start..ms[k].end])
  }

  /** Every match found is a regex match: an optional opening parenthesis
      just before the capture, and a capture that is a URL, so at least
      eight characters long. */
  lemma {:induction false} MatchesFromAreUrls(s: string, from: nat)
    requires from <= |s|
    ensures forall k :: 0 <= k < |MatchesFrom(s, from)| ==>
      var m := MatchesFrom(s, from)[k];
      IsUrl(s[m.urlStart..m.urlEnd]) && m.urlEnd - m.urlStart >= 8
      && (m.urlStart == m.start || (m.urlStart == m.start + 1 && s[m.start] == '('))
    decreases |s| - from
  {
    match Exec(s, from)
    case None =>
    case Some(m) =>
      ExecFindsLeftmost(s, from);
      MatchAtMeaning(s, m.start);
      MatchesFromAreUrls(s, m.end);
      var ms := MatchesFrom(s, from);
      var rest := MatchesFrom(s, m.end);
      assert ms == [m] + rest;
      forall k | 0 <= k < |ms|
        ensures IsUrl(s[ms[k].urlStart..ms[k].urlEnd]) && ms[k].urlEnd - ms[k].urlStart >= 8
        ensures ms[k].urlStart == ms[k].start || (ms[k].urlStart == ms[k].start + 1 && s[ms[k].start] == '(')
      {
        if k > 0 {
          assert ms[k] == rest[k - 1];
        }
      }
  }

  /** The pattern finds nothing exactly when no URL starts anywhere in s. */
  lemma NoMatchesIffNoUrl(s: string)
    ensures Matches(s) == [] <==> forall p :: 0 <= p <= |s| ==> NoUrlAt(s, p)
  {
    ExecFindsLeftmost(s, 0);
    match Exec(s, 0)
    case None =>
      forall p | 0 <= p <= |s|
        ensures NoUrlAt(s, p)
      {
        MatchAtMeaning(s, p);
      }
    case Some(m) =>
      MatchAtMeaning(s, m.start);
      assert !NoUrlAt(s, m.urlStart);
  }

  // ---------------------------------------------------------------------
  // Link titles
  // ---------------------------------------------------------------------

  /** The first index at which pat occurs in s (String.prototype.indexOf). */
  function IndexOf(s: string, pat: string, from: nat): (r: Option<nat>)
    requires from <= |s|
    ensures r.Some? ==> from <= r.value && StartsAt(s, r.value, pat)
    ensures forall i :: from <= i && (r.None? || i < r.value) ==> !StartsAt(s, i, pat)
    decreases |s| - from
  {
    if StartsAt(s, from, pat) then Some(from)
    else if from == |s| then None
    else IndexOf(s, pat, from + 1)
  }

  /** Removes the first occurrence of pat, wherever it is, as a replace
      with a string pattern does. */
  function RemoveFirst(s: string, pat: string): (r: string)
    ensures IndexOf(s, pat, 0).None? ==> r == s
    ensures IndexOf(s, pat, 0).Some? ==>
      var i := IndexOf(s, pat, 0).value;
      |r| == |s| - |pat| && r == s[..i] + s[i + |pat|..]
  {
    match IndexOf(s, pat, 0)
    case None => s
    case Some(i) => s[..i] + s[i + |pat|..]
  }

  /** Joins pieces with a separator; Split is its inverse. */
  function Join(pieces: seq<string>, sep: char): string
    requires |pieces| >= 1
  {
    if |pieces| == 1 then pieces[0] else pieces[0] + [sep] + Join(pieces[1..], sep)
  }

  /** String.prototype.split with a one-character separator: the pieces
      between separators, empty ones included. */
  function Split(s: string, sep: char): (r: seq<string>)
    ensures |r| >= 1
    ensures Join(r, sep) == s
    ensures forall i :: 0 <= i < |r| ==> sep !in r[i]
    decreases |s|
  {
    if s == [] then [[]]
    else if s[0] == sep then
      var rest := Split(s[1..], sep);
      assert [sep] + Join(rest, sep) == s;
      [[]] + rest
    else
      var rest := Split(s[1..], sep);
      var r := [[s[0]] + rest[0]] + rest[1..];
      assert r[1..] == rest[1..];
      assert Join(r, sep) == [s[0]] + Join(rest, sep) by {
        if |rest| > 1 {
          assert Join(r, sep) == [s[0]] + rest[0] + [sep] + Join(rest[1..], sep);
        }
      }
      r
  }

  predicate IsDigit(c: char) {
    '0' <= c <= '9'
  }

  /** A path segment the title code keeps: neither empty nor made only of
      decimal digits. */
  predicate Meaningful(seg: string) {
    seg != [] && !(forall k :: 0 <= k < |seg| ==> IsDigit(seg[k]))
  }

  /** The path segments that are meaningful, in their original order and
      with their repetitions (MeaningfulSegmentsAppend). */
  function MeaningfulSegments(segs: seq<string>): (r: seq<string>)
    ensures forall k :: 0 <= k < |r| ==> Meaningful(r[k])
    ensures forall x :: x in r <==> x in segs && Meaningful(x)
    decreases |segs|
  {
    if segs == [] then []
    else
      var init := segs[..|segs| - 1];
      var last := segs[|segs| - 1];
      assert segs == init + [last];
      if Meaningful(last) then MeaningfulSegments(init) + [last] else MeaningfulSegments(init)
  }

  /** The filter distributes over concatenation and keeps a single segment
      exactly when it is meaningful: it keeps order and repetitions. */
  lemma {:induction false} MeaningfulSegmentsAppend(a: seq<string>, b: seq<string>)
    ensures MeaningfulSegments(a + b) == MeaningfulSegments(a) + MeaningfulSegments(b)
    ensures |b| == 1 ==> MeaningfulSegments(b) == if Meaningful(b[0]) then b else []
    decreases |b|
  {
    if b == [] {
      assert a + b == a;
    } else {
      var init := b[..|b| - 1];
      var last := b[|b| - 1];
      assert (a + b)[..|a + b| - 1] == a + init;
      assert b[..|b| - 1] == init;
      MeaningfulSegmentsAppend(a, init);
      if |b| == 1 {
        assert init == [];
      }
    }
  }

  /** The last segment kept by the filter is the last meaningful segment of
      the path: every segment after it is empty or all digits. */
  lemma {:induction false} LastMeaningfulSegment(segs: seq<string>)
    requires |MeaningfulSegments(segs)| > 0
    ensures exists i :: 0 <= i < |segs| && segs[i] == Last(MeaningfulSegments(segs))
                        && forall j :: i < j < |segs| ==> !Meaningful(segs[j])
    decreases |segs|
  {
    var init := segs[..|segs| - 1];
    var last := segs[|segs| - 1];
    if !Meaningful(last) {
      LastMeaningfulSegment(init);
      var i :| 0 <= i < |init| && init[i] == Last(MeaningfulSegments(init))
               && forall j :: i < j < |init| ==> !Meaningful(init[j]);
      assert segs[i] == init[i];
      forall j | i < j < |segs|
        ensures !Meaningful(segs[j])
      {
        if j < |init| {
          assert segs[j] == init[j];
        }
      }
    }
  }

  function Last(s: seq<string>): string
    requires |s| > 0
  {
    s[|s| - 1]
  }

  /** Turns every dash and underscore into a space. */
  function DashesToSpaces(s: string): (r: string)
    ensures |r| == |s|
    ensures forall k :: 0 <= k < |s| ==> r[k] == if s[k] == '-' || s[k] == '_' then ' ' else s[k]
    decreases |s|
  {
    if s == [] then []
    else [if s[0] == '-' || s[0] == '_' then ' ' else s[0]] + DashesToSpaces(s[1..])
  }

  /** ASCII case folding, as the i flag applies it to the letters of
      html, php and aspx. */
  function LowerAscii(c: char): char {
    if 'A' <= c <= 'Z' then (c as int + 32) as char else c
  }

  /** Equality up to the case of ASCII letters; `lower` is in lower case. */
  predicate EqualsIgnoringCase(x: string, lower: string) {
    |x| == |lower| && forall k :: 0 <= k < |x| ==> LowerAscii(x[k]) == lower[k]
  }

  /** A text the pattern \.(html|php|aspx?) matches under the i flag. */
  predicate IsPageExtension(x: string) {
    EqualsIgnoringCase(x, ".html") || EqualsIgnoringCase(x, ".php")
    || EqualsIgnoringCase(x, ".asp") || EqualsIgnoringCase(x, ".aspx")
  }

  /** Removes a trailing .html, .php, .asp or .aspx in any letter case. */
  function StripPageExtension(s: string): (r: string)
    ensures |r| <= |s| && r == s[..|r|]
    ensures r != s ==> IsPageExtension(s[|r|..])
    ensures r == s ==> forall k :: 0 <= k <= |s| ==> !IsPageExtension(s[k..])
  {
    if |s| >= 5 && EqualsIgnoringCase(s[|s| - 5..], ".html") then s[..|s| - 5]
    else if |s| >= 4 && EqualsIgnoringCase(s[|s| - 4..], ".php") then s[..|s| - 4]
    else if |s| >= 5 && EqualsIgnoringCase(s[|s| - 5..], ".aspx") then s[..|s| - 5]
    else if |s| >= 4 && EqualsIgnoringCase(s[|s| - 4..], ".asp") then s[..|s| - 4]
    else
      NoPageExtension(s);
      s
  }

  /** A text that ends in none of the four extensions has no suffix that
      is one. */
  lemma NoPageExtension(s: string)
    requires !(|s| >= 5 && EqualsIgnoringCase(s[|s| - 5..], ".html"))
    requires !(|s| >= 4 && EqualsIgnoringCase(s[|s| - 4..], ".php"))
    requires !(|s| >= 5 && EqualsIgnoringCase(s[|s| - 5..], ".aspx"))
    requires !(|s| >= 4 && EqualsIgnoringCase(s[|s| - 4..], ".asp"))
    ensures forall k :: 0 <= k <= |s| ==> !IsPageExtension(s[k..])
  {
  }

  /** toUpperCase on one character, for the ASCII letters. */
  function UpperAscii(c: char): char {
    if 'a' <= c <= 'z' then (c as int - 32) as char else c
  }

  /** Capitalises the first character and keeps the rest: the first
      character of the result is no lower-case ASCII letter and differs
      from the original at most in its case. */
  function UpperFirst(s: string): (r: string)
    ensures |r| == |s|
    ensures |s| > 0 ==> !('a' <= r[0] <= 'z') && LowerAscii(r[0]) == LowerAscii(s[0]) && r[1..] == s[1..]
  {
    if s == [] then [] else [UpperAscii(s[0])] + s[1..]
  }

  /** The title shown for a link, given what the URL parser made of it
      (None when the URL constructor throws). */
  function LinkTitle(parsed: Option<ParsedUrl>): string {
    match parsed
    case None => "Lien"
    case Some(u) =>
      var hostname := RemoveFirst(u.hostname, "www.");
      if u.pathname != [] && u.pathname != "/" then
        var segments := MeaningfulSegments(Split(u.pathname, '/'));
        if |segments| > 0 then UpperFirst(StripPageExtension(DashesToSpaces(segments[|segments| - 1])))
        else hostname
      else hostname
  }

  /** The filter keeps something exactly when some segment is meaningful. */
  lemma KeepsSomeSegment(segs: seq<string>)
    ensures |MeaningfulSegments(segs)| > 0 <==> exists i :: 0 <= i < |segs| && Meaningful(segs[i])
  {
  }

  /** The title of a URL whose path has a meaningful segment: the last such
      segment, with dashes and underscores turned into spaces, a page
      extension dropped and its first letter upper-cased. */
  lemma LinkTitleFromPath(u: ParsedUrl)
    requires u.pathname != [] && u.pathname != "/"
    requires exists i :: 0 <= i < |Split(u.pathname, '/')| && Meaningful(Split(u.pathname, '/')[i])
    ensures var segs := Split(u.pathname, '/');
      exists i :: 0 <= i < |segs| && Meaningful(segs[i])
        && (forall j :: i < j < |segs| ==> !Meaningful(segs[j]))
        && LinkTitle(Some(u)) == UpperFirst(StripPageExtension(DashesToSpaces(segs[i])))
  {
    var segs := Split(u.pathname, '/');
    var kept := MeaningfulSegments(segs);
    KeepsSomeSegment(segs);
    LastMeaningfulSegment(segs);
    var i :| 0 <= i < |segs| && segs[i] == Last(kept) && forall j :: i < j < |segs| ==> !Meaningful(segs[j]);
    assert Meaningful(kept[|kept| - 1]);
    assert LinkTitle(Some(u)) == UpperFirst(StripPageExtension(DashesToSpaces(segs[i])));
  }

  /** The title of a URL whose path is empty, '/', or made only of empty
      and all-digit segments: the host name with its first 'www.' removed;
      and 'Lien' for a URL that does not parse. */
  lemma LinkTitleFromHost(parsed: Option<ParsedUrl>)
    requires parsed.Some? ==>
      var path := parsed.value.pathname;
      path == [] || path == "/"
      || forall i :: 0 <= i < |Split(path, '/')| ==> !Meaningful(Split(path, '/')[i])
    ensures parsed.None? ==> LinkTitle(parsed) == "Lien"
    ensures parsed.Some? ==> LinkTitle(parsed) == RemoveFirst(parsed.value.hostname, "www.")
  {
    if parsed.Some? {
      var u := parsed.value;
      if u.pathname != [] && u.pathname != "/" {
        KeepsSomeSegment(Split(u.pathname, '/'));
        assert |MeaningfulSegments(Split(u.pathname, '/'))| == 0;
      }
    }
  }

  // ---------------------------------------------------------------------
  // The part list
  // ---------------------------------------------------------------------

  /** The link part produced for one match. */
  function LinkFor(s: string, m: Match, parse: string -> Option<ParsedUrl>): Part
    requires WellPlaced(s, m)
  {
    var url := s[m.urlStart..m.urlEnd];
    Link(LinkTitle(parse(url)), url)
  }

  /** The link parts expected for a list of matches, in order. */
  function LinkParts(s: string, ms: seq<Match>, parse: string -> Option<ParsedUrl>): (r: seq<Part>)
    requires AllWellPlaced(s, ms)
    ensures |r| == |ms|
    decreases |ms|
  {
    if ms == [] then []
    else LinkParts(s, ms[..|ms| - 1], parse) + [LinkFor(s, ms[|ms| - 1], parse)]
  }

  /** The k-th expected link part is the title and capture of the k-th
      match. */
  lemma {:induction false} LinkPartsAt(s: string, ms: seq<Match>, parse: string -> Option<ParsedUrl>, k: nat)
    requires AllWellPlaced(s, ms) && k < |ms|
    ensures LinkParts(s, ms, parse)[k] == LinkFor(s, ms[k], parse)
    decreases |ms|
  {
    if k < |ms| - 1 {
      var init := ms[..|ms| - 1];
      assert AllWellPlaced(s, init) by {
        forall j | 0 <= j < |init|
          ensures init[j].start <= init[j].urlStart < init[j].urlEnd <= init[j].end <= |s|
        {
          assert init[j] == ms[j];
        }
      }
      LinkPartsAt(s, init, parse, k);
    }
  }

  /** The link parts of a part list, in order. */
  function Links(parts: seq<Part>): (r: seq<Part>)
    ensures forall k :: 0 <= k < |r| ==> r[k].Link?
    decreases |parts|
  {
    if parts == [] then []
    else
      var init := Links(parts[..|parts| - 1]);
      if parts[|parts| - 1].Link? then init + [parts[|parts| - 1]] else init
  }

  /** The text obtained by putting back, in order, the text parts and, in
      place of each link part, the next matched substring. */
  function Reassemble(parts: seq<Part>, raws: seq<string>): string
    decreases |parts|
  {
    if parts == [] then []
    else
      var last := parts[|parts| - 1];
      if last.Text? then Reassemble(parts[..|parts| - 1], raws) + last.text
      else if raws == [] then Reassemble(parts[..|parts| - 1], raws)
      else Reassemble(parts[..|parts| - 1], raws[..|raws| - 1]) + raws[|raws| - 1]
  }

  predicate TextPartsNonEmpty(parts: seq<Part>) {
    forall i :: 0 <= i < |parts| && parts[i].Text? ==> parts[i].text != []
  }

  predicate NoAdjacentTexts(parts: seq<Part>) {
    forall i :: 0 < i < |parts| && parts[i].Text? ==> parts[i - 1].Link?
  }

  lemma ReassembleText(parts: seq<Part>, raws: seq<string>, t: string)
    requires |Links(parts)| == |raws|
    ensures Links(parts + [Text(t)]) == Links(parts)
    ensures Reassemble(parts + [Text(t)], raws) == Reassemble(parts, raws) + t
  {
  }

  lemma ReassembleLink(parts: seq<Part>, raws: seq<string>, link: Part, raw: string)
    requires link.Link? && |Links(parts)| == |raws|
    ensures Links(parts + [link]) == Links(parts) + [link]
    ensures Reassemble(parts + [link], raws + [raw]) == Reassemble(parts, raws) + raw
  {
  }

  lemma RawsAppend(s: string, ms: seq<Match>, m: Match)
    requires AllWellPlaced(s, ms)
    requires WellPlaced(s, m)
    ensures Raws(s, ms + [m]) == Raws(s, ms) + [s[m.start..m.end]]
  {
  }

  /** The title computation of the loop body: 'Lien' unless the URL
      parses, then the last meaningful path segment or the host name. */
  method DeriveLinkTitle(url: string, parse: string -> Option<ParsedUrl>) returns (linkTitle: string)
    ensures linkTitle == LinkTitle(parse(url))
  {
    linkTitle := "Lien";
    var parsed := parse(url);
    if parsed.Some? {
      var hostname := RemoveFirst(parsed.value.hostname, "www.");
      var pathname := parsed.value.pathname;
      if pathname != [] && pathname != "/" {
        var segments := MeaningfulSegments(Split(pathname, '/'));
        if |segments| > 0 {
          var lastSegment := StripPageExtension(DashesToSpaces(segments[|segments| - 1]));
          linkTitle := UpperFirst(lastSegment);
        } else {
          linkTitle := hostname;
        }
      } else {
        linkTitle := hostname;
      }
    }
  }

  /** The parts one iteration adds for match m: the text before it, if any,
      then its link. */
  function StepParts(content: string, parse: string -> Option<ParsedUrl>, lastIndex: nat, m: Match): seq<Part>
    requires lastIndex <= m.start && WellPlaced(content, m)
  {
    (if m.start > lastIndex then [Text(content[lastIndex..m.start])] else []) + [LinkFor(content, m, parse)]
  }

  /** The text between two matches becomes a Text part, which reassembles
      to the content up to the next match. */
  lemma GapReassembles(content: string, lastIndex: nat, start: nat, parts: seq<Part>, raws: seq<string>)
    requires lastIndex <= start <= |content|
    requires |Links(parts)| == |raws|
    requires Reassemble(parts, raws) == content[..lastIndex]
    ensures var mid := if start > lastIndex then parts + [Text(content[lastIndex..start])] else parts;
      |Links(mid)| == |raws| && Reassemble(mid, raws) == content[..start]
  {
  }

  lemma StepReassembles(content: string, parse: string -> Option<ParsedUrl>, lastIndex: nat,
                        done: seq<Match>, parts: seq<Part>, m: Match)
    requires lastIndex <= m.start && WellPlaced(content, m) && AllWellPlaced(content, done)
    requires |Links(parts)| == |done|
    requires Reassemble(parts, Raws(content, done)) == content[..lastIndex]
    ensures |Links(parts + StepParts(content, parse, lastIndex, m))| == |done + [m]|
    ensures Reassemble(parts + StepParts(content, parse, lastIndex, m), Raws(content, done + [m])) == content[..m.end]
  {
    var raws := Raws(content, done);
    var link := LinkFor(content, m, parse);
    var mid := if m.start > lastIndex then parts + [Text(content[lastIndex..m.start])] else parts;
    StepPartsSplit(content, parse, lastIndex, m, parts);
    GapReassembles(content, lastIndex, m.start, parts, raws);
    ReassembleLink(mid, raws, link, content[m.start..m.end]);
    RawsAppend(content, done, m);
    SliceJoin(content, m.start, m.end);
  }

  lemma SliceJoin(s: string, i: nat, j: nat)
    requires i <= j <= |s|
    ensures s[..i] + s[i..j] == s[..j]
  {
  }

  lemma StepPartsSplit(content: string, parse: string -> Option<ParsedUrl>, lastIndex: nat, m: Match, parts: seq<Part>)
    requires lastIndex <= m.start && WellPlaced(content, m)
    ensures parts + StepParts(content, parse, lastIndex, m)
            == (if m.start > lastIndex then parts + [Text(content[lastIndex..m.start])] else parts)
               + [LinkFor(content, m, parse)]
  {
  }

  lemma StepLinks(content: string, parse: string -> Option<ParsedUrl>, lastIndex: nat,
                  done: seq<Match>, parts: seq<Part>, m: Match)
    requires lastIndex <= m.start && WellPlaced(content, m) && AllWellPlaced(content, done)
    requires Links(parts) == LinkParts(content, done, parse)
    ensures AllWellPlaced(content, done + [m])
    ensures Links(parts + StepParts(content, parse, lastIndex, m)) == LinkParts(content, done + [m], parse)
  {
    var link := LinkFor(content, m, parse);
    var mid := if m.start > lastIndex then parts + [Text(content[lastIndex..m.start])] else parts;
    assert parts + StepParts(content, parse, lastIndex, m) == mid + [link];
    assert (mid + [link])[..|mid|] == mid;
    if m.start > lastIndex {
      assert mid[..|parts|] == parts;
    }
    assert (done + [m])[..|done|] == done;
  }

  lemma StepShape(content: string, parse: string -> Option<ParsedUrl>, lastIndex: nat, parts: seq<Part>, m: Match)
    requires lastIndex <= m.start && WellPlaced(content, m)
    requires TextPartsNonEmpty(parts) && NoAdjacentTexts(parts)
    requires parts == [] || parts[|parts| - 1].Link?
    ensures var next := parts + StepParts(content, parse, lastIndex, m);
      TextPartsNonEmpty(next) && NoAdjacentTexts(next) && next[|next| - 1].Link?
  {
  }

  lemma StepMatches(content: string, lastIndex: nat, done: seq<Match>, m: Match)
    requires lastIndex <= |content|
    requires done + MatchesFrom(content, lastIndex) == Matches(content)
    requires Exec(content, lastIndex) == Some(m)
    ensures lastIndex <= m.start && WellPlaced(content, m) && lastIndex < m.end
    ensures (done + [m]) + MatchesFrom(content, m.end) == Matches(content)
  {
    assert MatchesFrom(content, lastIndex) == [m] + MatchesFrom(content, m.end);
  }

  /** The text after the last match closes the part list. */
  lemma FinalText(content: string, lastIndex: nat, raws: seq<string>, parts: seq<Part>)
    requires lastIndex < |content|
    requires |Links(parts)| == |raws| && Reassemble(parts, raws) == content[..lastIndex]
    requires TextPartsNonEmpty(parts) && NoAdjacentTexts(parts)
    requires parts == [] || parts[|parts| - 1].Link?
    ensures var next := parts + [Text(content[lastIndex..])];
      Links(next) == Links(parts) && Reassemble(next, raws) == content
      && TextPartsNonEmpty(next) && NoAdjacentTexts(next)
  {
  }

  lemma AllWellPlacedAppend(s: string, ms: seq<Match>, m: Match)
    requires AllWellPlaced(s, ms) && WellPlaced(s, m)
    ensures AllWellPlaced(s, ms + [m])
  {
  }

  /** What the loop of RenderMessageContent knows after handling the
      matches `done`, having reached lastIndex with the part list `parts`. */
  ghost predicate Scanned(content: string, parse: string -> Option<ParsedUrl>, lastIndex: nat,
                          done: seq<Match>, parts: seq<Part>)
  {
    lastIndex <= |content|
    && done + MatchesFrom(content, lastIndex) == Matches(content)
    && AllWellPlaced(content, done)
    && (done == [] ==> lastIndex == 0 && parts == [])
    && |Links(parts)| == |done|
    && Reassemble(parts, Raws(content, done)) == content[..lastIndex]
    && Links(parts) == LinkParts(content, done, parse)
    && TextPartsNonEmpty(parts) && NoAdjacentTexts(parts)
    && (parts == [] || parts[|parts| - 1].Link?)
  }

  lemma ScanStart(content: string, parse: string -> Option<ParsedUrl>)
    ensures Scanned(content, parse, 0, [], [])
  {
  }

  /** One iteration of the loop keeps Scanned. */
  lemma ScanStep(content: string, parse: string -> Option<ParsedUrl>, lastIndex: nat,
                 done: seq<Match>, parts: seq<Part>, m: Match)
    requires Scanned(content, parse, lastIndex, done, parts)
    requires Exec(content, lastIndex) == Some(m)
    ensures lastIndex <= m.start && WellPlaced(content, m) && lastIndex < m.end <= |content|
    ensures Scanned(content, parse, m.end, done + [m], parts + StepParts(content, parse, lastIndex, m))
  {
    StepMatches(content, lastIndex, done, m);
    AllWellPlacedAppend(content, done, m);
    StepReassembles(content, parse, lastIndex, done, parts, m);
    StepLinks(content, parse, lastIndex, done, parts, m);
    StepShape(content, parse, lastIndex, parts, m);
  }

  /** When exec finds nothing more, the remaining text closes the list and
      the result has every property RenderMessageContent promises. */
  lemma ScanEnd(content: string, parse: string -> Option<ParsedUrl>, lastIndex: nat,
                done: seq<Match>, parts: seq<Part>, final: seq<Part>)
    requires Scanned(content, parse, lastIndex, done, parts)
    requires Exec(content, lastIndex).None?
    requires final == if lastIndex < |content| then parts + [Text(content[lastIndex..])] else parts
    ensures Rendered(content, parse, final)
  {
    assert MatchesFrom(content, lastIndex) == [];
    assert done == Matches(content);
    if lastIndex < |content| {
      FinalText(content, lastIndex, Raws(content, done), parts);
    } else {
      assert content[..lastIndex] == content;
    }
  }

  /** The properties of the part list renderMessageContent builds. */
  ghost predicate Rendered(content: string, parse: string -> Option<ParsedUrl>, parts: seq<Part>) {
    |Links(parts)| == |Matches(content)|
    && Reassemble(parts, Raws(content, Matches(content))) == content
    && Links(parts) == LinkParts(content, Matches(content), parse)
    && TextPartsNonEmpty(parts) && NoAdjacentTexts(parts)
    && (Matches(content) == [] ==> parts == if content == [] then [] else [Text(content)])
    && (parts == [] <==> content == [])
  }

  /** Each link part of the rendered message carries a URL the pattern
      captured, without the wrapping parentheses, and the title derived
      from it. */
  lemma RenderedLinks(content: string, parse: string -> Option<ParsedUrl>, parts: seq<Part>)
    requires Rendered(content, parse, parts)
    ensures forall k :: 0 <= k < |Links(parts)| ==>
      var link := Links(parts)[k];
      var m := Matches(content)[k];
      link.url == content[m.urlStart..m.urlEnd] && IsUrl(link.url)
      && link.text == LinkTitle(parse(link.url))
  {
    var ms := Matches(content);
    MatchesFromAreUrls(content, 0);
    forall k | 0 <= k < |Links(parts)|
      ensures Links(parts)[k].url == content[ms[k].urlStart..ms[k].urlEnd]
      ensures IsUrl(Links(parts)[k].url) && Links(parts)[k].text == LinkTitle(parse(Links(parts)[k].url))
    {
      LinkPartsAt(content, ms, parse, k);
    }
  }

  /** renderMessageContent up to its JSX: the loop over exec that cuts the
      message into text and link parts. */
  method RenderMessageContent(content: string, parse: string -> Option<ParsedUrl>) returns (parts: seq<Part>)
    ensures Rendered(content, parse, parts)
  {
    parts := [];
    var lastIndex: nat := 0;
    ghost var done: seq<Match> := [];
    ScanStart(content, parse);
    var found := Exec(content, 0);
    while found.Some?
      invariant lastIndex <= |content|
      invariant found == Exec(content, lastIndex)
      invariant Scanned(content, parse, lastIndex, done, parts)
      decreases |content| - lastIndex
    {
      var m := found.value;
      ScanStep(content, parse, lastIndex, done, parts, m);
      ghost var expected := parts + StepParts(content, parse, lastIndex, m);
      if m.start > lastIndex {
        parts := parts + [Text(content[lastIndex..m.start])];
      }
      var url := content[m.urlStart..m.urlEnd];
      var linkTitle := DeriveLinkTitle(url, parse);
      parts := parts + [Link(linkTitle, url)];
      assert parts == expected;
      done := done + [m];
      lastIndex := m.end;
      found := Exec(content, lastIndex);
    }
    if lastIndex < |content| {
      ScanEnd(content, parse, lastIndex, done, parts, parts + [Text(content[lastIndex..])]);
      parts := parts + [Text(content[lastIndex..])];
    } else {
      ScanEnd(content, parse, lastIndex, done, parts, parts);
    }
  }
}
