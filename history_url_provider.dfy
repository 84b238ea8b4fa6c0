/**
 * The list and string logic of the history URL autocomplete provider
 * (chrome/browser/autocomplete/history_url_provider.cc): ranking history
 * matches, trimming "http:" from displayed text, fixing up trailing slashes,
 * relevance scores, and the passes that dedupe, cull and reorder the list of
 * matches. URL parsing, the history database, redirect lookups and the
 * threads that run the passes are outside the model: a URL is its text plus
 * whether it names only a host, and redirect lists arrive as a function.
 */
module HistoryUrl {

  datatype Option<T> = None | Some(value: T)

  /** A URL: its text, and whether it names only a host (no path beyond "/", no query, no ref). */
  datatype Url = Url(spec: string, hostOnly: bool)

  /** One row of the history database. */
  datatype UrlRow = UrlRow(url: Url, typedCount: nat, visitCount: nat, lastVisit: int)

  /** A candidate match: the row, where the input was found in it, and whether that was after any scheme or "www.". */
  datatype HistoryMatch = HistoryMatch(urlInfo: UrlRow, inputLocation: nat, matchInScheme: bool, innermostMatch: bool)

  function UrlOf(m: HistoryMatch): Url
  {
    m.urlInfo.url
  }

  // ---------------------------------------------------------------------------
  // Ranking

  /**
   * Whether `a` ranks above `b`: typed at all beats never typed, then an
   * innermost match wins, then more typing, then (typed once) a bare host
   * beats a page, then more visits, then the later visit.
   */
  predicate CompareHistoryMatch(a: HistoryMatch, b: HistoryMatch)
    ensures a == b ==> !CompareHistoryMatch(a, b)
    ensures a.urlInfo.typedCount != 0 && b.urlInfo.typedCount == 0 ==> CompareHistoryMatch(a, b)
    ensures CompareHistoryMatch(a, b) && a.urlInfo.typedCount == 0 ==> b.urlInfo.typedCount == 0
  {
    var at := a.urlInfo.typedCount;
    var bt := b.urlInfo.typedCount;
    if (at == 0) != (bt == 0) then at > bt
    else if a.innermostMatch != b.innermostMatch then a.innermostMatch
    else if at != bt then at > bt
    else if at == 1 && a.urlInfo.url.hostOnly != b.urlInfo.url.hostOnly then a.urlInfo.url.hostOnly
    else if a.urlInfo.visitCount != b.urlInfo.visitCount then a.urlInfo.visitCount > b.urlInfo.visitCount
    else a.urlInfo.lastVisit > b.urlInfo.lastVisit
  }

  function Bit(b: bool): int
  {
    if b then 1 else 0
  }

  /** The ranking keys of a match, most significant first. */
  function RankKey(m: HistoryMatch): seq<int>
  {
    var t := m.urlInfo.typedCount;
    [Bit(t != 0), Bit(m.innermostMatch), t, Bit(t == 1 && m.urlInfo.url.hostOnly), m.urlInfo.visitCount, m.urlInfo.lastVisit]
  }

  /** Lexicographic "greater than" on key sequences of equal length. */
  predicate LexGreater(x: seq<int>, y: seq<int>)
    requires |x| == |y|
  {
    |x| > 0 && (x[0] > y[0] || (x[0] == y[0] && LexGreater(x[1..], y[1..])))
  }

  lemma {:induction false} LexGreaterIrreflexive(x: seq<int>)
    ensures !LexGreater(x, x)
  {
    if |x| > 0 {
      LexGreaterIrreflexive(x[1..]);
    }
  }

  lemma {:induction false} LexGreaterTransitive(x: seq<int>, y: seq<int>, z: seq<int>)
    requires |x| == |y| == |z|
    requires LexGreater(x, y) && LexGreater(y, z)
    ensures LexGreater(x, z)
  {
    if x[0] == y[0] && y[0] == z[0] {
      LexGreaterTransitive(x[1..], y[1..], z[1..]);
    }
  }

  lemma {:induction false} LexGreaterAsymmetric(x: seq<int>, y: seq<int>)
    requires |x| == |y| && LexGreater(x, y)
    ensures !LexGreater(y, x)
  {
    if x[0] == y[0] {
      LexGreaterAsymmetric(x[1..], y[1..]);
    }
  }

  /** The comparator is exactly the lexicographic order of the ranking keys. */
  lemma CompareIsLexicographic(a: HistoryMatch, b: HistoryMatch)
    ensures CompareHistoryMatch(a, b) <==> LexGreater(RankKey(a), RankKey(b))
  {
    var x, y := RankKey(a), RankKey(b);
    assert LexGreater(x[5..], y[5..]) <==> x[5] > y[5] by {
      assert x[5..][1..] == [] && y[5..][1..] == [];
    }
    assert LexGreater(x[4..], y[4..]) <==> x[4] > y[4] || (x[4] == y[4] && LexGreater(x[5..], y[5..])) by {
      assert x[4..][1..] == x[5..] && y[4..][1..] == y[5..];
    }
    assert LexGreater(x[3..], y[3..]) <==> x[3] > y[3] || (x[3] == y[3] && LexGreater(x[4..], y[4..])) by {
      assert x[3..][1..] == x[4..] && y[3..][1..] == y[4..];
    }
    assert LexGreater(x[2..], y[2..]) <==> x[2] > y[2] || (x[2] == y[2] && LexGreater(x[3..], y[3..])) by {
      assert x[2..][1..] == x[3..] && y[2..][1..] == y[3..];
    }
    assert LexGreater(x[1..], y[1..]) <==> x[1] > y[1] || (x[1] == y[1] && LexGreater(x[2..], y[2..])) by {
      assert x[1..][1..] == x[2..] && y[1..][1..] == y[2..];
    }
  }

  /** No match ranks above itself, and of two matches at most one ranks above the other. */
  lemma CompareIsStrict(a: HistoryMatch, b: HistoryMatch)
    ensures !CompareHistoryMatch(a, a)
    ensures CompareHistoryMatch(a, b) ==> !CompareHistoryMatch(b, a)
  {
    CompareIsLexicographic(a, a);
    LexGreaterIrreflexive(RankKey(a));
    CompareIsLexicographic(a, b);
    CompareIsLexicographic(b, a);
    if CompareHistoryMatch(a, b) {
      LexGreaterAsymmetric(RankKey(a), RankKey(b));
    }
  }

  /** Ranking is transitive, so sorting by it is well defined. */
  lemma CompareIsTransitive(a: HistoryMatch, b: HistoryMatch, c: HistoryMatch)
    requires CompareHistoryMatch(a, b) && CompareHistoryMatch(b, c)
    ensures CompareHistoryMatch(a, c)
  {
    CompareIsLexicographic(a, b);
    CompareIsLexicographic(b, c);
    CompareIsLexicographic(a, c);
    LexGreaterTransitive(RankKey(a), RankKey(b), RankKey(c));
  }

  /** A URL that was ever typed ranks above every URL that never was. */
  lemma TypedRanksAboveUntyped(a: HistoryMatch, b: HistoryMatch)
    requires a.urlInfo.typedCount > 0 && b.urlInfo.typedCount == 0
    ensures CompareHistoryMatch(a, b) && !CompareHistoryMatch(b, a)
  {
  }

  // ---------------------------------------------------------------------------
  // Relevance

  /** The kind of a suggestion, which fixes its relevance. */
  datatype MatchType = InlineAutocomplete | WhatYouTyped | Normal

  function CalculateRelevance(matchType: MatchType, matchNumber: nat): (r: int)
    ensures r >= 900
    ensures matchType != Normal ==> r >= 1200
    ensures matchType == Normal && matchNumber < 300 ==> r < 1200
  {
    match matchType
    case InlineAutocomplete => 1400
    case WhatYouTyped => 1200
    case Normal => 900 + matchNumber
  }

  /**
   * The inline suggestion scores 1400, what the user typed 1200, and the
   * n-th other match 900 + n: so the inline suggestion outranks what was
   * typed, which outranks every other match among the first three hundred,
   * and earlier of those matches score lower.
   */
  lemma RelevanceRanks(m: nat, n: nat)
    ensures CalculateRelevance(InlineAutocomplete, m) == 1400
    ensures CalculateRelevance(WhatYouTyped, m) == 1200
    ensures m < 300 ==> CalculateRelevance(WhatYouTyped, n) > CalculateRelevance(Normal, m)
    ensures m < n ==> CalculateRelevance(Normal, m) < CalculateRelevance(Normal, n)
  {
  }

  // ---------------------------------------------------------------------------
  // Text: "http:" trimming and trailing slashes

  const HttpColon: string := "http:"

  predicate OccursAt(s: string, i: nat, pat: string)
  {
    i + |pat| <= |s| && s[i..i + |pat|] == pat
  }

  /** The first index at or after `from` where `pat` occurs in `s`, if any. */
  function Find(s: string, pat: string, from: nat): (r: Option<nat>)
    decreases |s| - from
    ensures r.Some? ==> from <= r.value && OccursAt(s, r.value, pat)
    ensures forall i :: from <= i && (r.None? || i < r.value) ==> !OccursAt(s, i, pat)
  {
    if from + |pat| > |s| then None
    else if OccursAt(s, from, pat) then Some(from)
    else Find(s, pat, from + 1)
  }

  /** How many '/' follow `from` in `s`, counting at most `max`. */
  function SlashRun(s: string, from: nat, max: nat): (r: nat)
    decreases max
    ensures r <= max && (from <= |s| ==> from + r <= |s|)
    ensures forall i :: from <= i < from + r ==> i < |s| && s[i] == '/'
    ensures r < max && from + r < |s| ==> s[from + r] != '/'
  {
    if max == 0 || from >= |s| || s[from] != '/' then 0 else 1 + SlashRun(s, from + 1, max - 1)
  }

  /** Where "http:" occurs, it and the run of up to two slashes after it spell "http:" followed by slashes. */
  lemma HttpPrefixShape(url: string, p: nat)
    requires OccursAt(url, p, HttpColon)
    ensures var k := SlashRun(url, p + |HttpColon|, 2);
            url[p..p + |HttpColon| + k] == HttpColon + seq(k, _ => '/')
  {
    var start := p + |HttpColon|;
    var k := SlashRun(url, start, 2);
    assert url[p..start + k] == url[p..start] + url[start..start + k];
    assert url[start..start + k] == seq(k, _ => '/');
  }

  /**
   * Erases the first "http:" and up to two slashes after it. The result is the
   * erased length when the scheme was at the start and 0 otherwise; without
   * an http scheme nothing changes. Whether the text has an http scheme is
   * decided by URL parsing, outside the model, and then "http:" occurs in it.
   */
  method TrimHttpPrefix(url: string, hasHttpScheme: bool) returns (trimmed: string, r: nat)
    requires hasHttpScheme ==> Find(url, HttpColon, 0).Some?
    ensures !hasHttpScheme ==> trimmed == url && r == 0
    ensures hasHttpScheme ==>
              var p := Find(url, HttpColon, 0).value;
              var k := SlashRun(url, p + |HttpColon|, 2);
              url[p..p + |HttpColon| + k] == HttpColon + seq(k, _ => '/') &&
              trimmed == url[..p] + url[p + |HttpColon| + k..] &&
              r == (if p == 0 then |HttpColon| + k else 0)
  {
    if !hasHttpScheme {
      return url, 0;
    }
    var schemePos := Find(url, HttpColon, 0).value;
    var prefixEnd := schemePos + |HttpColon|;
    var afterSlashes := if |url| < prefixEnd + 2 then |url| else prefixEnd + 2;
    ghost var start := prefixEnd;
    while prefixEnd < afterSlashes && url[prefixEnd] == '/'
      invariant start <= prefixEnd <= start + 2 && prefixEnd <= |url|
      invariant SlashRun(url, start, 2) == (prefixEnd - start) + SlashRun(url, prefixEnd, 2 - (prefixEnd - start))
    {
      prefixEnd := prefixEnd + 1;
    }
    HttpPrefixShape(url, schemePos);
    trimmed := url[..schemePos] + url[prefixEnd..];
    r := if schemePos == 0 then prefixEnd else 0;
  }

  predicate IsSlash(c: char)
  {
    c == '/' || c == '\\'
  }

  /** How many '/' or '\' end `s`. */
  function TrailingSlashes(s: string): (n: nat)
    ensures n <= |s|
    ensures forall i :: |s| - n <= i < |s| ==> IsSlash(s[i])
    ensures n < |s| ==> !IsSlash(s[|s| - n - 1])
  {
    if |s| == 0 || !IsSlash(s[|s| - 1]) then 0 else 1 + TrailingSlashes(s[..|s| - 1])
  }

  /** Appending slashes adds that many trailing slashes. */
  lemma {:induction false} AppendSlashes(s: string, k: nat)
    ensures TrailingSlashes(s + seq(k, _ => '/')) == TrailingSlashes(s) + k
  {
    if k > 0 {
      var t := s + seq(k, _ => '/');
      assert t[..|t| - 1] == s + seq(k - 1, _ => '/');
      AppendSlashes(s, k - 1);
    } else {
      assert s + seq(k, _ => '/') == s;
    }
  }

  /** Cutting inside the trailing slashes leaves the rest of them. */
  lemma {:induction false} CutSlashes(s: string, cut: nat)
    requires cut <= TrailingSlashes(s)
    ensures TrailingSlashes(s[..|s| - cut]) == TrailingSlashes(s) - cut
  {
    if cut > 0 {
      var t := s[..|s| - 1];
      assert s[..|s| - cut] == t[..|t| - (cut - 1)];
      CutSlashes(t, cut - 1);
    } else {
      assert s[..|s|] == s;
    }
  }

  /**
   * The last step of fixing up user input: the output ends with exactly as
   * many '/' or '\' as the input did, by appending '/' or cutting trailing
   * slashes; everything before the output's trailing slashes is kept.
   */
  function FixupTrailingSlashes(input: string, output: string): (r: string)
    ensures TrailingSlashes(r) == TrailingSlashes(input)
    ensures var stem := |output| - TrailingSlashes(output);
            stem <= |r| && r[..stem] == output[..stem] &&
            forall i :: stem <= i < |r| ==> IsSlash(r[i])
  {
    var numInput := TrailingSlashes(input);
    var numOutput := TrailingSlashes(output);
    if numOutput < numInput then
      AppendSlashes(output, numInput - numOutput);
      output + seq(numInput - numOutput, _ => '/')
    else if numOutput > numInput then
      CutSlashes(output, numOutput - numInput);
      output[..|output| - numOutput + numInput]
    else output
  }

  // ---------------------------------------------------------------------------
  // The list of matches

  /** Whether some match in the list has URL `u`. */
  predicate HasUrl(s: seq<HistoryMatch>, u: Url)
  {
    exists i :: 0 <= i < |s| && UrlOf(s[i]) == u
  }

  /** The first index at or after `from` whose match has URL `u`, if any. */
  function FindUrl(s: seq<HistoryMatch>, u: Url, from: nat): (r: Option<nat>)
    decreases |s| - from
    ensures r.Some? ==> from <= r.value < |s| && UrlOf(s[r.value]) == u
    ensures forall i :: from <= i < |s| && (r.None? || i < r.value) ==> UrlOf(s[i]) != u
  {
    if from >= |s| then None
    else if UrlOf(s[from]) == u then Some(from)
    else FindUrl(s, u, from + 1)
  }

  /** The list without the matches whose URL is `u`, the others in order. */
  function WithoutUrl(s: seq<HistoryMatch>, u: Url): (r: seq<HistoryMatch>)
    ensures |r| <= |s|
  {
    if s == [] then []
    else if UrlOf(s[0]) == u then WithoutUrl(s[1..], u)
    else [s[0]] + WithoutUrl(s[1..], u)
  }

  lemma {:induction false} WithoutUrlMembers(s: seq<HistoryMatch>, u: Url)
    ensures forall x :: x in WithoutUrl(s, u) <==> x in s && UrlOf(x) != u
  {
    if s != [] {
      WithoutUrlMembers(s[1..], u);
      assert s == [s[0]] + s[1..];
    }
  }

  lemma WithoutUrlSnoc(s: seq<HistoryMatch>, k: nat, u: Url)
    requires k < |s|
    ensures WithoutUrl(s[..k + 1], u) == WithoutUrl(s[..k], u) + (if UrlOf(s[k]) == u then [] else [s[k]])
  {
    if k > 0 {
      assert s[..k + 1][1..] == s[1..][..k];
      assert s[..k][1..] == s[1..][..k - 1];
      WithoutUrlSnoc(s[1..], k - 1, u);
    } else {
      assert s[..1][1..] == [];
    }
  }

  /**
   * The list with every match after the first one of its URL removed,
   * built the way the dedup pass works: keep the head, drop its URL from the
   * rest, repeat.
   */
  function Dedup(s: seq<HistoryMatch>): (r: seq<HistoryMatch>)
    decreases |s|
    ensures |r| <= |s|
    ensures |r| == 0 <==> |s| == 0
  {
    if s == [] then [] else [s[0]] + Dedup(WithoutUrl(s[1..], UrlOf(s[0])))
  }

  /** Deduping invents no match. */
  lemma {:induction false} DedupInventsNothing(s: seq<HistoryMatch>)
    decreases |s|
    ensures forall x :: x in Dedup(s) ==> x in s
  {
    if s != [] {
      var rest := WithoutUrl(s[1..], UrlOf(s[0]));
      WithoutUrlMembers(s[1..], UrlOf(s[0]));
      DedupInventsNothing(rest);
      assert Dedup(s) == [s[0]] + Dedup(rest);
    }
  }

  /** Deduping loses no URL. */
  lemma {:induction false} DedupKeepsEveryUrl(s: seq<HistoryMatch>)
    decreases |s|
    ensures forall x :: x in s ==> HasUrl(Dedup(s), UrlOf(x))
  {
    if s != [] {
      var rest := WithoutUrl(s[1..], UrlOf(s[0]));
      WithoutUrlMembers(s[1..], UrlOf(s[0]));
      DedupKeepsEveryUrl(rest);
      var r := Dedup(s);
      var d := Dedup(rest);
      assert r == [s[0]] + d;
      forall x | x in s
        ensures HasUrl(r, UrlOf(x))
      {
        if UrlOf(x) == UrlOf(s[0]) {
          assert UrlOf(r[0]) == UrlOf(x);
        } else {
          assert x in s[1..] by {
            assert s == [s[0]] + s[1..];
          }
          assert x in rest;
          var i :| 0 <= i < |d| && UrlOf(d[i]) == UrlOf(x);
          assert r[i + 1] == d[i];
        }
      }
    }
  }

  /** Deduping leaves each URL once. */
  lemma {:induction false} DedupDistinctUrls(s: seq<HistoryMatch>)
    decreases |s|
    ensures forall i, j :: 0 <= i < j < |Dedup(s)| ==> UrlOf(Dedup(s)[i]) != UrlOf(Dedup(s)[j])
  {
    if s != [] {
      var rest := WithoutUrl(s[1..], UrlOf(s[0]));
      DedupDistinctUrls(rest);
      DedupInventsNothing(rest);
      WithoutUrlMembers(s[1..], UrlOf(s[0]));
      var r := Dedup(s);
      var d := Dedup(rest);
      assert r == [s[0]] + d;
      forall j | 0 < j < |r|
        ensures UrlOf(r[0]) != UrlOf(r[j])
      {
        assert r[j] == d[j - 1];
        assert r[j] in rest;
      }
      forall i, j | 0 < i < j < |r|
        ensures UrlOf(r[i]) != UrlOf(r[j])
      {
        assert r[i] == d[i - 1] && r[j] == d[j - 1];
      }
    }
  }

  /**
   * The same list, described independently: walk it from the front, keeping
   * a match exactly when its URL has not been kept already.
   */
  function KeepFirstOfEachUrl(s: seq<HistoryMatch>, seen: set<Url>): seq<HistoryMatch>
  {
    if s == [] then []
    else if UrlOf(s[0]) in seen then KeepFirstOfEachUrl(s[1..], seen)
    else [s[0]] + KeepFirstOfEachUrl(s[1..], seen + {UrlOf(s[0])})
  }

  /** The matches whose URL is not in `seen`, in order. */
  function Unseen(s: seq<HistoryMatch>, seen: set<Url>): (r: seq<HistoryMatch>)
    ensures |r| <= |s|
  {
    if s == [] then []
    else if UrlOf(s[0]) in seen then Unseen(s[1..], seen) else [s[0]] + Unseen(s[1..], seen)
  }

  lemma {:induction false} WithoutUrlOfUnseen(s: seq<HistoryMatch>, seen: set<Url>, u: Url)
    ensures WithoutUrl(Unseen(s, seen), u) == Unseen(s, seen + {u})
  {
    if s != [] {
      WithoutUrlOfUnseen(s[1..], seen, u);
      if UrlOf(s[0]) !in seen {
        assert Unseen(s, seen) == [s[0]] + Unseen(s[1..], seen);
        assert ([s[0]] + Unseen(s[1..], seen))[1..] == Unseen(s[1..], seen);
      }
    }
  }

  lemma {:induction false} DedupOfUnseen(s: seq<HistoryMatch>, seen: set<Url>)
    decreases |s|
    ensures Dedup(Unseen(s, seen)) == KeepFirstOfEachUrl(s, seen)
  {
    if s != [] {
      var u := UrlOf(s[0]);
      if u in seen {
        DedupOfUnseen(s[1..], seen);
      } else {
        var t := Unseen(s, seen);
        assert t == [s[0]] + Unseen(s[1..], seen);
        assert t[1..] == Unseen(s[1..], seen);
        WithoutUrlOfUnseen(s[1..], seen, u);
        DedupOfUnseen(s[1..], seen + {u});
      }
    }
  }

  lemma {:induction false} UnseenOfNothing(s: seq<HistoryMatch>)
    ensures Unseen(s, {}) == s
  {
    if s != [] {
      UnseenOfNothing(s[1..]);
    }
  }

  /** The dedup pass keeps exactly the first match of each URL, in the order of the list. */
  lemma DedupKeepsFirstOfEachUrl(s: seq<HistoryMatch>)
    ensures Dedup(s) == KeepFirstOfEachUrl(s, {})
  {
    UnseenOfNothing(s);
    DedupOfUnseen(s, {});
  }

  /** Best first: no match ranks above one before it. */
  predicate SortedByRank(s: seq<HistoryMatch>)
  {
    forall i, j :: 0 <= i < j < |s| ==> !CompareHistoryMatch(s[j], s[i])
  }

  /** `x` placed before the first match it ranks above. */
  function InsertByRank(x: HistoryMatch, s: seq<HistoryMatch>): (r: seq<HistoryMatch>)
    ensures multiset(r) == multiset(s) + multiset{x}
    ensures |r| == |s| + 1
  {
    if s == [] || CompareHistoryMatch(x, s[0]) then [x] + s
    else
      assert s == [s[0]] + s[1..];
      [s[0]] + InsertByRank(x, s[1..])
  }

  lemma {:induction false} InsertByRankSorted(x: HistoryMatch, s: seq<HistoryMatch>)
    requires SortedByRank(s)
    ensures SortedByRank(InsertByRank(x, s))
    ensures forall i :: 0 <= i < |InsertByRank(x, s)| ==> InsertByRank(x, s)[i] == x || InsertByRank(x, s)[i] in s
  {
    var r := InsertByRank(x, s);
    if s == [] {
      CompareIsStrict(x, x);
    } else if CompareHistoryMatch(x, s[0]) {
      forall j | 0 < j < |r|
        ensures !CompareHistoryMatch(r[j], x)
      {
        CompareIsStrict(x, s[0]);
        if j > 1 && CompareHistoryMatch(r[j], x) {
          CompareIsTransitive(r[j], x, s[0]);
        }
      }
    } else {
      InsertByRankSorted(x, s[1..]);
      var t := InsertByRank(x, s[1..]);
      assert r == [s[0]] + t;
      forall j | 0 < j < |r|
        ensures !CompareHistoryMatch(r[j], s[0])
      {
        assert r[j] == t[j - 1];
        if r[j] != x {
          assert r[j] in s[1..];
        }
      }
    }
  }

  /** Sorts by rank, best first; this stands for the standard library sort the pass calls. */
  method SortByRank(matches: seq<HistoryMatch>) returns (sorted: seq<HistoryMatch>)
    ensures SortedByRank(sorted) && multiset(sorted) == multiset(matches)
  {
    sorted := [];
    var i := 0;
    while i < |matches|
      invariant 0 <= i <= |matches|
      invariant SortedByRank(sorted) && multiset(sorted) == multiset(matches[..i])
    {
      InsertByRankSorted(matches[i], sorted);
      sorted := InsertByRank(matches[i], sorted);
      assert matches[..i + 1] == matches[..i] + [matches[i]];
      i := i + 1;
    }
    assert matches[..i] == matches;
  }

  /** The inner step of the dedup pass: erases every match after index `i` whose URL is that of match `i`. */
  method EraseLaterOfUrl(s: seq<HistoryMatch>, i: nat) returns (r: seq<HistoryMatch>)
    requires i < |s|
    ensures r == s[..i + 1] + WithoutUrl(s[i + 1..], UrlOf(s[i]))
  {
    r := s;
    var u := UrlOf(s[i]);
    ghost var tail := s[i + 1..];
    ghost var k := 0;
    var j := i + 1;
    while j < |r|
      invariant i < j <= |r|
      invariant r[..i + 1] == s[..i + 1]
      invariant 0 <= k <= |tail|
      invariant r[i + 1..j] == WithoutUrl(tail[..k], u) && r[j..] == tail[k..]
    {
      WithoutUrlSnoc(tail, k, u);
      assert r[j] == tail[k];
      if u == UrlOf(r[j]) {
        r := r[..j] + r[j + 1..];
      } else {
        j := j + 1;
      }
      k := k + 1;
    }
    assert tail[..k] == tail;
    assert r == r[..i + 1] + r[i + 1..j];
  }

  /** The dedup pass: for each match in turn, erases every later match with the same URL. */
  method RemoveLaterDuplicates(matches: seq<HistoryMatch>) returns (r: seq<HistoryMatch>)
    ensures r == Dedup(matches)
  {
    r := matches;
    var i := 0;
    while i < |r|
      invariant 0 <= i <= |r|
      invariant r[..i] + Dedup(r[i..]) == Dedup(matches)
    {
      ghost var before := r;
      r := EraseLaterOfUrl(r, i);
      assert before[i..] == [before[i]] + before[i + 1..];
      assert r[i + 1..] == WithoutUrl(before[i + 1..], UrlOf(before[i]));
      assert r[..i + 1] == before[..i] + [before[i]];
      assert r[..i + 1] + Dedup(r[i + 1..]) == before[..i] + Dedup(before[i..]);
      i := i + 1;
    }
    assert r[..i] == r;
  }

  /**
   * Sorts the matches best first, then removes every later match of a URL
   * that already appeared, so each URL stays once, at its best rank.
   */
  method SortMatches(matches: seq<HistoryMatch>) returns (r: seq<HistoryMatch>)
    ensures exists sorted :: SortedByRank(sorted) && multiset(sorted) == multiset(matches) && r == Dedup(sorted)
  {
    var sorted := SortByRank(matches);
    r := RemoveLaterDuplicates(sorted);
  }

  /**
   * A poor match: typed and visited no more than the limits, and last visited
   * before the recent threshold. The limits and the threshold (which comes
   * from the clock) are inputs.
   */
  predicate IsPoor(m: HistoryMatch, typedLimit: int, visitLimit: int, recentThreshold: int)
    ensures m.urlInfo.typedCount > typedLimit || m.urlInfo.visitCount > visitLimit ==> !IsPoor(m, typedLimit, visitLimit, recentThreshold)
    ensures m.urlInfo.lastVisit >= recentThreshold ==> !IsPoor(m, typedLimit, visitLimit, recentThreshold)
  {
    m.urlInfo.typedCount <= typedLimit && m.urlInfo.visitCount <= visitLimit && m.urlInfo.lastVisit < recentThreshold
  }

  /** The matches that are not poor, in order. */
  function WithoutPoor(s: seq<HistoryMatch>, typedLimit: int, visitLimit: int, recentThreshold: int): (r: seq<HistoryMatch>)
    ensures |r| <= |s|
  {
    if s == [] then []
    else if IsPoor(s[0], typedLimit, visitLimit, recentThreshold) then WithoutPoor(s[1..], typedLimit, visitLimit, recentThreshold)
    else [s[0]] + WithoutPoor(s[1..], typedLimit, visitLimit, recentThreshold)
  }

  lemma WithoutPoorSnoc(s: seq<HistoryMatch>, k: nat, typedLimit: int, visitLimit: int, recentThreshold: int)
    requires k < |s|
    ensures WithoutPoor(s[..k + 1], typedLimit, visitLimit, recentThreshold)
         == WithoutPoor(s[..k], typedLimit, visitLimit, recentThreshold) +
            (if IsPoor(s[k], typedLimit, visitLimit, recentThreshold) then [] else [s[k]])
  {
    if k > 0 {
      assert s[..k + 1][1..] == s[1..][..k];
      assert s[..k][1..] == s[1..][..k - 1];
      WithoutPoorSnoc(s[1..], k - 1, typedLimit, visitLimit, recentThreshold);
    } else {
      assert s[..1][1..] == [];
    }
  }

  /**
   * Culling removes exactly the poor matches: every survivor is a match of
   * the list that is not poor, and every match of the list that is not poor
   * survives as often as it occurred.
   */
  lemma {:induction false} WithoutPoorRemovesExactlyPoor(s: seq<HistoryMatch>, typedLimit: int, visitLimit: int,
                                                         recentThreshold: int)
    ensures var r := WithoutPoor(s, typedLimit, visitLimit, recentThreshold);
            forall x :: multiset(r)[x] == if IsPoor(x, typedLimit, visitLimit, recentThreshold) then 0 else multiset(s)[x]
  {
    if s != [] {
      WithoutPoorRemovesExactlyPoor(s[1..], typedLimit, visitLimit, recentThreshold);
      assert s == [s[0]] + s[1..];
      assert multiset(s) == multiset{s[0]} + multiset(s[1..]);
    }
  }

  /** Erases the poor matches, keeping the others in order. */
  method CullPoorMatches(matches: seq<HistoryMatch>, typedLimit: int, visitLimit: int, recentThreshold: int)
    returns (r: seq<HistoryMatch>)
    ensures r == WithoutPoor(matches, typedLimit, visitLimit, recentThreshold)
  {
    r := matches;
    ghost var k := 0;
    var i := 0;
    while i < |r|
      invariant 0 <= i <= |r| && 0 <= k <= |matches|
      invariant r[..i] == WithoutPoor(matches[..k], typedLimit, visitLimit, recentThreshold) && r[i..] == matches[k..]
    {
      WithoutPoorSnoc(matches, k, typedLimit, visitLimit, recentThreshold);
      assert r[i] == matches[k];
      if IsPoor(r[i], typedLimit, visitLimit, recentThreshold) {
        r := r[..i] + r[i + 1..];
      } else {
        i := i + 1;
      }
      k := k + 1;
    }
    assert matches[..k] == matches;
    assert r == r[..i];
  }

  /**
   * The list once `info` is sure to be in it: an entry already there for its
   * URL is rotated to the front when `promote`, otherwise left where it is;
   * a missing one is created and put at the front or the back.
   */
  function WithMatchPresent(info: UrlRow, inputLocation: nat, matchInScheme: bool, matches: seq<HistoryMatch>,
                            promote: bool): (r: seq<HistoryMatch>)
    ensures |r| > 0
    ensures promote ==> UrlOf(r[0]) == info.url
  {
    match FindUrl(matches, info.url, 0)
    case Some(i) => if promote then [matches[i]] + matches[..i] + matches[i + 1..] else matches
    case None =>
      var added := HistoryMatch(info, inputLocation, matchInScheme, true);
      if promote then [added] + matches else matches + [added]
  }

  /**
   * After the call the URL is present, nothing was lost, at most one entry
   * was added, and a promoted entry is first.
   */
  lemma WithMatchPresentHasUrl(info: UrlRow, inputLocation: nat, matchInScheme: bool, matches: seq<HistoryMatch>,
                               promote: bool)
    ensures var r := WithMatchPresent(info, inputLocation, matchInScheme, matches, promote);
            && |matches| <= |r| <= |matches| + 1
            && multiset(matches) <= multiset(r)
            && HasUrl(r, info.url)
            && (promote ==> UrlOf(r[0]) == info.url)
            && (HasUrl(matches, info.url) ==> multiset(r) == multiset(matches))
  {
    var r := WithMatchPresent(info, inputLocation, matchInScheme, matches, promote);
    match FindUrl(matches, info.url, 0)
    case Some(i) =>
      if promote {
        RotateToFrontKeeps(matches, i);
      }
      assert UrlOf(r[if promote then 0 else i]) == info.url;
    case None =>
      assert !HasUrl(matches, info.url);
      assert UrlOf(r[if promote then 0 else |matches|]) == info.url;
  }

  /** Rotating one entry to the front keeps every entry (std::rotate). */
  lemma RotateToFrontKeeps(s: seq<HistoryMatch>, i: nat)
    requires i < |s|
    ensures multiset([s[i]] + s[..i] + s[i + 1..]) == multiset(s)
  {
    assert s == s[..i] + ([s[i]] + s[i + 1..]);
    assert multiset(s) == multiset(s[..i]) + multiset([s[i]] + s[i + 1..]);
    assert multiset([s[i]] + s[i + 1..]) == multiset([s[i]]) + multiset(s[i + 1..]);
  }

  /** Makes sure `info` has an entry in the list (a linear search, then a rotate or an insertion). */
  method EnsureMatchPresent(info: UrlRow, inputLocation: nat, matchInScheme: bool, matches: seq<HistoryMatch>,
                            promote: bool) returns (r: seq<HistoryMatch>)
    ensures r == WithMatchPresent(info, inputLocation, matchInScheme, matches, promote)
  {
    var i := 0;
    while i < |matches|
      invariant 0 <= i <= |matches|
      invariant FindUrl(matches, info.url, 0) == FindUrl(matches, info.url, i)
    {
      if UrlOf(matches[i]) == info.url {
        if promote {
          r := [matches[i]] + matches[..i] + matches[i + 1..];
        } else {
          r := matches;
        }
        return;
      }
      i := i + 1;
    }
    var added := HistoryMatch(info, inputLocation, matchInScheme, true);
    if promote {
      r := [added] + matches;
    } else {
      r := matches + [added];
    }
  }

  // ---------------------------------------------------------------------------
  // Redirect culling

  /** The first index at or after `from` whose URL is one of `remove`, if any. */
  function FindAnyUrl(s: seq<HistoryMatch>, remove: seq<Url>, from: nat): (r: Option<nat>)
    decreases |s| - from
    ensures r.Some? ==> from <= r.value < |s| && UrlOf(s[r.value]) in remove
  {
    if from >= |s| then None
    else if UrlOf(s[from]) in remove then Some(from)
    else FindAnyUrl(s, remove, from + 1)
  }

  /** The search finds the first match of `remove`: every index it passes over has some other URL. */
  lemma {:induction false} FindAnyUrlIsFirst(s: seq<HistoryMatch>, remove: seq<Url>, from: nat, i: nat)
    requires from <= i < |s| && UrlOf(s[i]) in remove
    decreases i - from
    ensures FindAnyUrl(s, remove, from).Some? && FindAnyUrl(s, remove, from).value <= i
  {
    if UrlOf(s[from]) !in remove {
      FindAnyUrlIsFirst(s, remove, from + 1, i);
    }
  }

  /** The matches whose URL is not one of `remove`, in order. */
  function WithoutAny(s: seq<HistoryMatch>, remove: seq<Url>): (r: seq<HistoryMatch>)
    ensures |r| <= |s|
  {
    if s == [] then []
    else if UrlOf(s[0]) in remove then WithoutAny(s[1..], remove)
    else [s[0]] + WithoutAny(s[1..], remove)
  }

  lemma {:induction false} WithoutAnyAppend(a: seq<HistoryMatch>, b: seq<HistoryMatch>, remove: seq<Url>)
    ensures WithoutAny(a + b, remove) == WithoutAny(a, remove) + WithoutAny(b, remove)
  {
    if a != [] {
      assert (a + b)[1..] == a[1..] + b;
      WithoutAnyAppend(a[1..], b, remove);
    } else {
      assert a + b == b;
    }
  }

  lemma {:induction false} WithoutAnyMembers(s: seq<HistoryMatch>, remove: seq<Url>)
    ensures forall x :: x in WithoutAny(s, remove) ==> x in s && UrlOf(x) !in remove
  {
    if s != [] {
      WithoutAnyMembers(s[1..], remove);
      assert s == [s[0]] + s[1..];
    }
  }

  /**
   * The list with the first match whose URL is one of `remove` kept and every
   * later such match erased; unchanged when there is none.
   */
  function RemoveSubsequent(s: seq<HistoryMatch>, remove: seq<Url>): (r: seq<HistoryMatch>)
    ensures |r| <= |s|
    ensures match FindAnyUrl(s, remove, 0)
            case None => r == s
            case Some(first) => first < |r| && r[..first + 1] == s[..first + 1] && UrlOf(r[first]) in remove
  {
    match FindAnyUrl(s, remove, 0)
    case None => s
    case Some(first) => s[..first + 1] + WithoutAny(s[first + 1..], remove)
  }

  /** In a prefix of the list, the search finds the same match if it lies in the prefix, and none otherwise. */
  lemma {:induction false} FindAnyUrlInPrefix(s: seq<HistoryMatch>, remove: seq<Url>, m: nat, from: nat)
    requires from <= m <= |s|
    decreases m - from
    ensures FindAnyUrl(s[..m], remove, from) ==
            match FindAnyUrl(s, remove, from)
            case Some(f) => if f < m then Some(f) else None
            case None => None
  {
    if from < m {
      assert s[..m][from] == s[from];
      FindAnyUrlInPrefix(s, remove, m, from + 1);
    }
  }

  /** The kept list of a prefix of `s`: the prefix itself when the first match of `remove` lies beyond it. */
  lemma RemoveSubsequentOfPrefix(s: seq<HistoryMatch>, remove: seq<Url>, m: nat)
    requires m <= |s|
    ensures match FindAnyUrl(s, remove, 0)
            case Some(first) =>
              RemoveSubsequent(s[..m], remove) ==
                if first < m then s[..first + 1] + WithoutAny(s[first + 1..m], remove) else s[..m]
            case None => RemoveSubsequent(s[..m], remove) == s[..m]
  {
    FindAnyUrlInPrefix(s, remove, m, 0);
    match FindAnyUrl(s, remove, 0)
    case Some(first) =>
      if first < m {
        var p := s[..m];
        assert p[..first + 1] == s[..first + 1];
        assert p[first + 1..] == s[first + 1..m];
      }
    case None =>
  }

  /** Filtering a suffix of the list is filtering its two parts, split at any point. */
  lemma WithoutAnySplitAt(s: seq<HistoryMatch>, remove: seq<Url>, from: nat, at: nat)
    requires from <= at <= |s|
    ensures WithoutAny(s[from..], remove) == WithoutAny(s[from..at], remove) + WithoutAny(s[at..], remove)
  {
    assert s[from..] == s[from..at] + s[at..];
    WithoutAnyAppend(s[from..at], s[at..], remove);
  }

  /**
   * Past a match of `remove`, no more matches survive than there were: the
   * kept list minus the kept prefix through that match is shorter than the
   * rest of the list.
   */
  lemma RemoveSubsequentShrinksTail(s: seq<HistoryMatch>, remove: seq<Url>, source: nat)
    requires source < |s| && UrlOf(s[source]) in remove
    ensures FindAnyUrl(s, remove, 0).Some? && FindAnyUrl(s, remove, 0).value <= source
    ensures |RemoveSubsequent(s, remove)| - |RemoveSubsequent(s[..source + 1], remove)| < |s| - source
  {
    FindAnyUrlIsFirst(s, remove, 0, source);
    var first := FindAnyUrl(s, remove, 0).value;
    RemoveSubsequentOfPrefix(s, remove, source + 1);
    WithoutAnySplitAt(s, remove, first + 1, source + 1);
    assert |RemoveSubsequent(s, remove)| == first + 1 + |WithoutAny(s[first + 1..], remove)|;
  }

  /** Filtering one more match of a slice adds that match unless its URL is one of `remove`. */
  lemma WithoutAnyGrow(s: seq<HistoryMatch>, remove: seq<Url>, from: nat, to: nat)
    requires from <= to < |s|
    ensures WithoutAny(s[from..to + 1], remove) ==
            WithoutAny(s[from..to], remove) + (if UrlOf(s[to]) in remove then [] else [s[to]])
  {
    assert s[from..to + 1] == s[from..to] + [s[to]];
    WithoutAnyAppend(s[from..to], [s[to]], remove);
    assert [s[to]][1..] == [];
  }

  /**
   * One step of the erasing scan: `r` is the kept head of `matches`, the
   * filtered part scanned so far, and the unscanned tail; erasing or passing
   * the match at `j` keeps that shape one match further on.
   */
  lemma EraseStep(matches: seq<HistoryMatch>, remove: seq<Url>, r: seq<HistoryMatch>, first: nat, j: nat, k: nat)
    requires first < j < |r| && first < k < |matches|
    requires r[..first + 1] == matches[..first + 1]
    requires r[first + 1..j] == WithoutAny(matches[first + 1..k], remove) && r[j..] == matches[k..]
    ensures r[j] == matches[k]
    ensures |WithoutAny(matches[first + 1..k + 1], remove)| ==
            |WithoutAny(matches[first + 1..k], remove)| + (if UrlOf(r[j]) in remove then 0 else 1)
    ensures UrlOf(r[j]) in remove ==>
              var r' := r[..j] + r[j + 1..];
              r'[..first + 1] == matches[..first + 1] &&
              r'[first + 1..j] == WithoutAny(matches[first + 1..k + 1], remove) && r'[j..] == matches[k + 1..]
    ensures UrlOf(r[j]) !in remove ==>
              r[first + 1..j + 1] == WithoutAny(matches[first + 1..k + 1], remove) && r[j + 1..] == matches[k + 1..]
  {
    assert r[j] == r[j..][0] == matches[k..][0];
    WithoutAnyGrow(matches, remove, first + 1, k);
    if UrlOf(r[j]) in remove {
      var r' := r[..j] + r[j + 1..];
      assert r'[..first + 1] == r[..first + 1];
      assert r'[first + 1..j] == r[first + 1..j];
      assert r'[j..] == r[j + 1..] == r[j..][1..];
      assert matches[k + 1..] == matches[k..][1..];
    } else {
      assert r[first + 1..j + 1] == r[first + 1..j] + [r[j]];
      assert r[j + 1..] == r[j..][1..];
      assert matches[k + 1..] == matches[k..][1..];
    }
  }

  /** Filtering a longer slice from the same start keeps at least as many matches. */
  lemma WithoutAnyMonotone(s: seq<HistoryMatch>, remove: seq<Url>, from: nat, mid: nat, to: nat)
    requires from <= mid <= to <= |s|
    ensures |WithoutAny(s[from..mid], remove)| <= |WithoutAny(s[from..to], remove)|
  {
    assert s[from..to] == s[from..mid] + s[mid..to];
    WithoutAnyAppend(s[from..mid], s[mid..to], remove);
  }

  /**
   * The index after the source while the scan stands at `matches[k]` and at
   * `r[j]`: before the scan reaches the source, the source is `source1 - k`
   * places ahead of `j`; once past it, its place is fixed.
   */
  ghost function ScanNext(matches: seq<HistoryMatch>, remove: seq<Url>, first: nat, source1: nat, j: nat, k: nat): int
    requires first < k <= |matches|
  {
    if k <= source1 then j + (source1 - k)
    else if source1 <= first + 1 then source1
    else first + 1 + |WithoutAny(matches[first + 1..source1], remove)|
  }

  /** Erasing at `j` moves the index after the source back by one exactly when `j` lies before it. */
  lemma ScanNextStep(matches: seq<HistoryMatch>, remove: seq<Url>, first: nat, source1: nat, j: nat, k: nat)
    requires first < k < |matches|
    requires j == first + 1 + |WithoutAny(matches[first + 1..k], remove)|
    ensures var erased := UrlOf(matches[k]) in remove;
            var n := ScanNext(matches, remove, first, source1, j, k);
            ScanNext(matches, remove, first, source1, if erased then j else j + 1, k + 1) ==
              if erased && j < n then n - 1 else n
  {
    WithoutAnyGrow(matches, remove, first + 1, k);
    if first + 1 < source1 <= k {
      WithoutAnyMonotone(matches, remove, first + 1, source1, k);
    }
  }

  /** The position of the first match whose URL is one of `remove` (std::find_first_of). */
  method FindFirstOf(matches: seq<HistoryMatch>, remove: seq<Url>) returns (first: nat)
    ensures FindAnyUrl(matches, remove, 0) == if first < |matches| then Some(first) else None
    ensures first <= |matches|
  {
    first := 0;
    while first < |matches| && UrlOf(matches[first]) !in remove
      invariant 0 <= first <= |matches|
      invariant FindAnyUrl(matches, remove, 0) == FindAnyUrl(matches, remove, first)
    {
      first := first + 1;
    }
  }

  /**
   * Keeps the first match whose URL is in `remove` and erases every later one.
   * The result names the position in the new list of the match that followed
   * `sourceIndex`: one past it, less one for each match erased at or before it.
   * The caller guarantees that some URL of `remove` is in the list.
   */
  method RemoveSubsequentMatchesOf(matches: seq<HistoryMatch>, sourceIndex: nat, remove: seq<Url>)
    returns (r: seq<HistoryMatch>, nextIndex: nat)
    requires FindAnyUrl(matches, remove, 0).Some?
    ensures r == RemoveSubsequent(matches, remove)
    ensures var m := if sourceIndex + 1 < |matches| then sourceIndex + 1 else |matches|;
            nextIndex == |RemoveSubsequent(matches[..m], remove)| + (sourceIndex + 1 - m)
  {
    r := matches;
    var first := FindFirstOf(matches, remove);
    nextIndex := sourceIndex + 1;
    var j := first + 1;
    ghost var k := first + 1;
    while j < |r|
      invariant first < j <= |r| && first < k <= |matches|
      invariant r[..first + 1] == matches[..first + 1]
      invariant r[first + 1..j] == WithoutAny(matches[first + 1..k], remove) && r[j..] == matches[k..]
      invariant j == first + 1 + |WithoutAny(matches[first + 1..k], remove)|
      invariant nextIndex == ScanNext(matches, remove, first, sourceIndex + 1, j, k)
    {
      EraseStep(matches, remove, r, first, j, k);
      ScanNextStep(matches, remove, first, sourceIndex + 1, j, k);
      if UrlOf(r[j]) in remove {
        r := r[..j] + r[j + 1..];
        if j < nextIndex {
          nextIndex := nextIndex - 1;
        }
      } else {
        j := j + 1;
      }
      k := k + 1;
    }
    FinishRemoveSubsequent(matches, remove, r, first, j, k, sourceIndex, nextIndex);
  }

  /** When the scan has consumed the list, its state is the kept list and the index after the source. */
  lemma FinishRemoveSubsequent(matches: seq<HistoryMatch>, remove: seq<Url>, r: seq<HistoryMatch>,
                               first: nat, j: nat, k: nat, sourceIndex: nat, nextIndex: nat)
    requires FindAnyUrl(matches, remove, 0) == Some(first)
    requires j == |r| && k == |matches| && first < j
    requires r[..first + 1] == matches[..first + 1]
    requires r[first + 1..j] == WithoutAny(matches[first + 1..k], remove)
    requires j == first + 1 + |WithoutAny(matches[first + 1..k], remove)|
    requires nextIndex == ScanNext(matches, remove, first, sourceIndex + 1, j, k)
    ensures r == RemoveSubsequent(matches, remove)
    ensures var m := if sourceIndex + 1 < |matches| then sourceIndex + 1 else |matches|;
            nextIndex == |RemoveSubsequent(matches[..m], remove)| + (sourceIndex + 1 - m)
  {
    assert matches[first + 1..k] == matches[first + 1..];
    assert r == r[..first + 1] + r[first + 1..j];
    RemoveSubsequentOfPrefix(matches, remove, if sourceIndex + 1 < |matches| then sourceIndex + 1 else |matches|);
  }

  /**
   * Walks the top `maxResults` matches; for each with redirects, keeps only
   * the best-ranked match among the redirect chain and the match itself.
   * Then cuts the list to `maxResults`. Redirect lists come from the history
   * database, here the function `redirectsOf`.
   */
  method CullRedirects(matches: seq<HistoryMatch>, maxResults: nat, redirectsOf: Url -> seq<Url>)
    returns (r: seq<HistoryMatch>)
    ensures |r| <= maxResults && |r| <= |matches|
    ensures forall x :: x in r ==> x in matches
    ensures |matches| > 0 && maxResults > 0 ==> |r| > 0 && r[0] == matches[0]
  {
    r := matches;
    var source := 0;
    while source < |r| && source < maxResults
      invariant 0 <= source
      invariant |r| <= |matches|
      invariant forall x :: x in r ==> x in matches
      invariant |matches| > 0 ==> |r| > 0 && r[0] == matches[0]
      decreases |r| - source
    {
      var url := UrlOf(r[source]);
      var redirects := redirectsOf(url);
      if |redirects| > 0 {
        redirects := redirects + [url];
        RemoveSubsequentShrinksTail(r, redirects, source);
        var first := FindAnyUrl(r, redirects, 0).value;
        WithoutAnyMembers(r[first + 1..], redirects);
        ghost var before := r;
        r, source := RemoveSubsequentMatchesOf(r, source, redirects);
        assert r == before[..first + 1] + WithoutAny(before[first + 1..], redirects);
        assert r[0] == before[0];
      } else {
        source := source + 1;
      }
    }
    if |r| > maxResults {
      r := r[..maxResults];
    }
  }

  // ---------------------------------------------------------------------------
  // Prefixes

  /** A scheme-and-host prefix that inline completion may skip, and how many URL components it spans. */
  datatype Prefix = Prefix(prefix: string, numComponents: int)

  /** The prefixes the provider completes after; the empty one catches matches inside the scheme. */
  function GetPrefixes(): (r: seq<Prefix>)
    ensures Prefix("", 0) in r
    ensures forall i :: 0 <= i < |r| ==> 0 <= r[i].numComponents <= 2
  {
    [Prefix("https://www.", 2), Prefix("http://www.", 2), Prefix("ftp://ftp.", 2), Prefix("ftp://www.", 2),
     Prefix("https://", 1), Prefix("http://", 1), Prefix("ftp://", 1), Prefix("", 0)]
  }

  /** `text` begins with the prefix followed by `suffix`. */
  predicate PrefixMatches(p: Prefix, text: string, suffix: string)
  {
    |p.prefix + suffix| <= |text| && text[..|p.prefix + suffix|] == p.prefix + suffix
  }

  /**
   * The prefix spanning the most components among those that, followed by
   * `suffix`, begin the URL's text; on a tie the earliest one. None when no
   * prefix fits.
   */
  method BestPrefix(prefixes: seq<Prefix>, text: string, suffix: string) returns (best: Option<nat>)
    ensures best.None? <==> forall j :: 0 <= j < |prefixes| ==> !PrefixMatches(prefixes[j], text, suffix)
    ensures best.Some? ==>
              var b := best.value;
              && b < |prefixes| && PrefixMatches(prefixes[b], text, suffix)
              && (forall j :: 0 <= j < |prefixes| && PrefixMatches(prefixes[j], text, suffix) ==>
                    prefixes[j].numComponents <= prefixes[b].numComponents)
              && (forall j :: 0 <= j < b && PrefixMatches(prefixes[j], text, suffix) ==>
                    prefixes[j].numComponents < prefixes[b].numComponents)
  {
    best := None;
    var i := 0;
    while i < |prefixes|
      invariant 0 <= i <= |prefixes|
      invariant best.None? ==> forall j :: 0 <= j < i ==> !PrefixMatches(prefixes[j], text, suffix)
      invariant best.Some? ==>
                  var b := best.value;
                  && b < i && PrefixMatches(prefixes[b], text, suffix)
                  && (forall j :: 0 <= j < i && PrefixMatches(prefixes[j], text, suffix) ==>
                        prefixes[j].numComponents <= prefixes[b].numComponents)
                  && (forall j :: 0 <= j < b && PrefixMatches(prefixes[j], text, suffix) ==>
                        prefixes[j].numComponents < prefixes[b].numComponents)
    {
      var p := prefixes[i];
      if best.None? || p.numComponents > prefixes[best.value].numComponents {
        var prefixWithSuffix := p.prefix + suffix;
        if |text| >= |prefixWithSuffix| && text[..|prefixWithSuffix|] == prefixWithSuffix {
          best := Some(i);
        }
      }
      i := i + 1;
    }
  }

  /** With the provider's own prefixes, some prefix always fits a URL whose text begins with the suffix. */
  lemma GetPrefixesCatchAll(text: string, suffix: string)
    requires |suffix| <= |text| && text[..|suffix|] == suffix
    ensures exists j :: 0 <= j < |GetPrefixes()| && PrefixMatches(GetPrefixes()[j], text, suffix)
  {
    assert GetPrefixes()[7] == Prefix("", 0);
    assert "" + suffix == suffix;
  }

  // ---------------------------------------------------------------------------
  // The provider's result set

  /** A classified run of the description, starting at `offset`. */
  datatype Classification = Classification(offset: nat, style: nat)

  /** The parts of an autocomplete result that deleting a match touches. */
  datatype AutocompleteMatch = AutocompleteMatch(destinationUrl: string, isHistoryWhatYouTypedMatch: bool,
                                                 deletable: bool, description: string,
                                                 descriptionClass: seq<Classification>)

  /** The first result at or after `from` whose destination is `url`, if any. */
  function FindDestination(ms: seq<AutocompleteMatch>, url: string, from: nat): (r: Option<nat>)
    decreases |ms| - from
    ensures r.Some? ==> from <= r.value < |ms| && ms[r.value].destinationUrl == url
    ensures forall i :: from <= i < |ms| && (r.None? || i < r.value) ==> ms[i].destinationUrl != url
  {
    if from >= |ms| then None
    else if ms[from].destinationUrl == url then Some(from)
    else FindDestination(ms, url, from + 1)
  }

  /**
   * The results once `url` is deleted: its first result is erased, except the
   * what-you-typed result, which stays but loses its description and its
   * deletability.
   */
  function AfterDelete(ms: seq<AutocompleteMatch>, url: string): (r: seq<AutocompleteMatch>)
    ensures |ms| - 1 <= |r| <= |ms|
    ensures |r| < |ms| ==> exists i :: 0 <= i < |ms| && ms[i].destinationUrl == url && !ms[i].isHistoryWhatYouTypedMatch
  {
    match FindDestination(ms, url, 0)
    case None => ms
    case Some(i) =>
      if ms[i].isHistoryWhatYouTypedMatch then
        ms[i := ms[i].(deletable := false, description := "", descriptionClass := [])]
      else ms[..i] + ms[i + 1..]
  }

  /**
   * Deleting removes the URL's first result or, for the what-you-typed
   * result, keeps it in place as undeletable and without a description;
   * every other result is kept.
   */
  lemma AfterDeleteEffect(ms: seq<AutocompleteMatch>, url: string)
    ensures var r := AfterDelete(ms, url);
            match FindDestination(ms, url, 0)
            case None => r == ms
            case Some(i) =>
              if ms[i].isHistoryWhatYouTypedMatch then
                && |r| == |ms| && r[i].destinationUrl == url && r[i].isHistoryWhatYouTypedMatch
                && !r[i].deletable && r[i].description == "" && r[i].descriptionClass == []
                && (forall j :: 0 <= j < |ms| && j != i ==> r[j] == ms[j])
              else
                && |r| == |ms| - 1
                && multiset(r) + multiset{ms[i]} == multiset(ms)
                && (forall j :: 0 <= j < i ==> r[j].destinationUrl != url)
  {
    match FindDestination(ms, url, 0)
    case None =>
    case Some(i) =>
      if !ms[i].isHistoryWhatYouTypedMatch {
        var r := AfterDelete(ms, url);
        assert ms == ms[..i] + [ms[i]] + ms[i + 1..];
        assert r == ms[..i] + ms[i + 1..];
      }
  }

  /** The provider's current result set; `done` is set once the query has finished. */
  class HistoryUrlProvider {
    var matches: seq<AutocompleteMatch>
    var done: bool

    constructor ()
      ensures matches == [] && done
    {
      matches := [];
      done := true;
    }

    /**
     * Deletes `url` from the result set. `canDelete` stands for the history
     * service being there and the URL being valid; without it nothing is
     * done. Deleting the row from the history database is outside the model.
     */
    method DeleteMatch(url: string, canDelete: bool)
      requires done
      modifies this
      ensures done
      ensures matches == if canDelete then AfterDelete(old(matches), url) else old(matches)
    {
      if !canDelete {
        return;
      }
      var i := 0;
      while i < |matches|
        invariant 0 <= i <= |matches| && matches == old(matches) && done
        invariant FindDestination(matches, url, 0) == FindDestination(matches, url, i)
      {
        if matches[i].destinationUrl == url {
          if matches[i].isHistoryWhatYouTypedMatch {
            matches := matches[i := matches[i].(deletable := false, description := "", descriptionClass := [])];
          } else {
            matches := matches[..i] + matches[i + 1..];
          }
          return;
        }
        i := i + 1;
      }
    }
  }
}
