/**
 * The toolbar popup (popup.js). Its grouping, filtering and context-menu
 * selection are the same code as the overview's and are modelled once, in
 * TabsOverview; this module holds what only the popup's rendering adds:
 * the tab-group colours, the search highlight and the shortened URL.
 */
module TabsPopup {
  import opened Util

  const Grey := "#5f6368"

  /** The colour table of `getGroupColor`, in its declared order. */
  const Colors: seq<(string, string)> := [
    ("grey", Grey), ("blue", "#1a73e8"), ("red", "#d93025"),
    ("yellow", "#f9ab00"), ("green", "#188038"), ("pink", "#d01884"),
    ("purple", "#9334e6"), ("cyan", "#007b83"), ("orange", "#e8710a")
  ]

  /**
   * `getGroupColor`: the colour of a known Chrome group colour name and
   * grey's colour for any other name. Every table value is a non-empty
   * string, so the `||` fallback fires only for unknown names.
   */
  function GroupColor(name: string): (r: string)
    ensures (forall i :: 0 <= i < |Colors| ==> Colors[i].0 != name) ==> r == Grey
    ensures forall i :: 0 <= i < |Colors| && Colors[i].0 == name ==> r == Colors[i].1
  {
    match Lookup(Colors, name)
    case Some(c) => if c != "" then c else Grey
    case None => Grey
  }

  // ---------------------------------------------------------------------
  // highlightSearch
  // ---------------------------------------------------------------------

  const Open := "<span class=\"highlight\">"
  const Close := "</span>"

  /**
   * The global, case-insensitive replace: scanning from the left, every
   * occurrence of the (already lower-case) query is wrapped in the
   * highlight span and scanning resumes after it.
   */
  function Highlight(text: string, query: string): (r: string)
    requires |query| > 0
    ensures |r| >= |text|
    ensures |text| < |query| ==> r == text
    decreases |text|
  {
    if |text| < |query| then text
    else if Lower(text[..|query|]) == query then Open + text[..|query|] + Close + Highlight(text[|query|..], query)
    else [text[0]] + Highlight(text[1..], query)
  }

  /** `highlightSearch`: the text unchanged for an empty query, otherwise highlighted. */
  function HighlightSearch(text: string, query: string): (r: string)
    ensures query == "" ==> r == text
  {
    if query == "" then text else Highlight(text, query)
  }

  /** The text with the highlight markup taken out. */
  function Unmark(s: string): string
    decreases |s|
  {
    if |s| == 0 then []
    else if StartsWith(s, Open) then Unmark(s[|Open|..])
    else if StartsWith(s, Close) then Unmark(s[|Close|..])
    else [s[0]] + Unmark(s[1..])
  }

  /** A prefix without '<' cannot start any markup and passes through. */
  lemma {:induction false} UnmarkPlain(a: string, b: string)
    requires '<' !in a
    ensures Unmark(a + b) == a + Unmark(b)
  {
    if |a| > 0 {
      assert (a + b)[0] == a[0] != '<';
      assert Open[0] == '<' && Close[0] == '<';
      assert !StartsWith(a + b, Open) && !StartsWith(a + b, Close);
      assert (a + b)[1..] == a[1..] + b;
      assert '<' !in a[1..];
      UnmarkPlain(a[1..], b);
    } else {
      assert a + b == b;
    }
  }

  /** A wrapped match unmarks to the match itself. */
  lemma UnmarkWrapped(m: string, tail: string)
    requires '<' !in m
    ensures Unmark(Open + m + Close + tail) == m + Unmark(tail)
  {
    assert Open + m + Close + tail == Open + (m + (Close + tail));
    UnmarkOpen(m + (Close + tail));
    UnmarkPlain(m, Close + tail);
    UnmarkClose(tail);
  }

  lemma UnmarkOpen(rest: string)
    ensures Unmark(Open + rest) == Unmark(rest)
  {
    var s := Open + rest;
    assert s[..|Open|] == Open;
    assert s[|Open|..] == rest;
  }

  lemma UnmarkClose(rest: string)
    ensures Unmark(Close + rest) == Unmark(rest)
  {
    var s := Close + rest;
    assert s[1] == '/' && Open[1] == 's';
    assert !StartsWith(s, Open);
    assert s[..|Close|] == Close;
    assert s[|Close|..] == rest;
  }

  /** A character other than '<' in front unmarks to itself. */
  lemma UnmarkChar(c: char, tail: string)
    requires c != '<'
    ensures Unmark([c] + tail) == [c] + Unmark(tail)
  {
    UnmarkPlain([c], tail);
  }

  /**
   * Highlighting only adds markup: on escaped text (no '<'), taking the
   * markup out again gives back the text.
   */
  lemma {:induction false} HighlightUnmark(text: string, query: string)
    requires |query| > 0 && '<' !in text
    ensures Unmark(HighlightSearch(text, query)) == text
    decreases |text|
  {
    if |text| >= |query| {
      if Lower(text[..|query|]) == query {
        var rest := text[|query|..];
        assert '<' !in text[..|query|] && '<' !in rest;
        HighlightUnmark(rest, query);
        UnmarkWrapped(text[..|query|], Highlight(rest, query));
        assert text[..|query|] + rest == text;
      } else {
        assert '<' !in text[1..];
        HighlightUnmark(text[1..], query);
        UnmarkChar(text[0], Highlight(text[1..], query));
        assert [text[0]] + text[1..] == text;
      }
    } else {
      UnmarkPlain(text, []);
      assert text + [] == text;
    }
  }

  /** The query occurs, ignoring case, at position i of the text. */
  predicate MatchAt(text: string, i: nat, query: string) {
    i + |query| <= |text| && Lower(text[i..i + |query|]) == query
  }

  /** Text with no case-insensitive occurrence of the query is left as it is. */
  lemma {:induction false} HighlightNoMatch(text: string, query: string)
    requires |query| > 0
    requires forall i: nat :: i <= |text| ==> !MatchAt(text, i, query)
    ensures HighlightSearch(text, query) == text
    decreases |text|
  {
    if |text| >= |query| {
      assert !MatchAt(text, 0, query);
      assert text[0..|query|] == text[..|query|];
      forall i: nat | i <= |text[1..]| ensures !MatchAt(text[1..], i, query) {
        assert !MatchAt(text, i + 1, query);
        if i + |query| <= |text[1..]| {
          assert text[1..][i..i + |query|] == text[i + 1..i + 1 + |query|];
        }
      }
      HighlightNoMatch(text[1..], query);
      assert [text[0]] + text[1..] == text;
    }
  }

  /** A match at the start is wrapped in the highlight span, and the scan resumes after it. */
  lemma HighlightWraps(text: string, query: string)
    requires |query| > 0 && MatchAt(text, 0, query)
    ensures HighlightSearch(text, query)
            == Open + text[..|query|] + Close + HighlightSearch(text[|query|..], query)
  {
    assert text[0..|query|] == text[..|query|];
  }

  /** Where no match starts, the character is kept as it is and the scan moves on by one. */
  lemma HighlightSkips(text: string, query: string)
    requires |query| > 0 && |text| > 0 && !MatchAt(text, 0, query)
    ensures HighlightSearch(text, query) == [text[0]] + HighlightSearch(text[1..], query)
  {
    if |text| >= |query| {
      assert text[0..|query|] == text[..|query|];
    } else {
      assert [text[0]] + text[1..] == text;
    }
  }

  /** Text without '<' holds no opening span. */
  lemma {:induction false} NoOpenIn(s: string)
    requires '<' !in s
    ensures !Contains(s, Open)
    decreases |s|
  {
    if |s| > 0 {
      assert Open[0] == '<' && s[0] != '<';
      assert '<' !in s[1..];
      NoOpenIn(s[1..]);
    }
  }

  /** A match lies in the text exactly when it starts here or somewhere in the rest. */
  lemma MatchShift(text: string, query: string)
    requires |text| > 0
    ensures (exists i: nat :: i <= |text| && MatchAt(text, i, query))
            <==> MatchAt(text, 0, query) || exists i: nat :: i <= |text[1..]| && MatchAt(text[1..], i, query)
  {
    forall i: nat | i <= |text[1..]|
      ensures MatchAt(text[1..], i, query) <==> MatchAt(text, i + 1, query)
    {
      if i + |query| <= |text[1..]| {
        assert text[1..][i..i + |query|] == text[i + 1..i + 1 + |query|];
      }
    }
    if exists i: nat :: i <= |text| && MatchAt(text, i, query) {
      var i: nat :| i <= |text| && MatchAt(text, i, query);
      if i > 0 {
        assert MatchAt(text[1..], i - 1, query);
      }
    }
  }

  /** A character other than '<' in front neither makes nor hides an opening span. */
  lemma OpenAfterChar(c: char, tail: string)
    requires c != '<'
    ensures Contains([c] + tail, Open) <==> Contains(tail, Open)
  {
    var r := [c] + tail;
    assert r[1..] == tail;
    assert Open[0] == '<' && r[0] != '<';
  }

  /**
   * On escaped text (no '<'), a highlight span appears exactly when the
   * query occurs in the text, ignoring case.
   */
  lemma {:induction false} HighlightMarksMatch(text: string, query: string)
    requires |query| > 0 && '<' !in text
    ensures Contains(HighlightSearch(text, query), Open) <==> exists i: nat :: i <= |text| && MatchAt(text, i, query)
    decreases |text|
  {
    if |text| < |query| {
      NoOpenIn(text);
    } else if MatchAt(text, 0, query) {
      HighlightWraps(text, query);
      var rest := text[..|query|] + Close + HighlightSearch(text[|query|..], query);
      assert Open + text[..|query|] + Close + HighlightSearch(text[|query|..], query) == Open + rest;
      ContainsHead(Open, rest);
    } else {
      HighlightSkips(text, query);
      OpenAfterChar(text[0], HighlightSearch(text[1..], query));
      assert '<' !in text[1..];
      HighlightMarksMatch(text[1..], query);
      MatchShift(text, query);
    }
  }

  /** The length `slice(0, n)` keeps. */
  function Cut(n: nat, len: nat): (r: nat)
    ensures r <= n && r <= len && (r == n || r == len)
  {
    if len < n then len else n
  }

  // ---------------------------------------------------------------------
  // formatUrl
  // ---------------------------------------------------------------------

  /**
   * `formatUrl`: host name and the first 30 characters of the path, with
   * "..." when the path is longer; an unparsable URL is cut to its first
   * 40 characters. `parse` is `new URL`, giving the host name and path.
   */
  function FormatUrl(url: string, parse: string -> Option<(string, string)>): (r: string)
    ensures parse(url).None? ==> |r| == Cut(40, |url|) && r == url[..|r|]
    ensures parse(url).Some? ==>
              var host := parse(url).value.0;
              var path := parse(url).value.1;
              StartsWith(r, host)
              && (|path| <= 30 ==> r == host + path)
              && (|path| > 30 ==> |r| == |host| + 33 && r == host + path[..30] + "...")
  {
    match parse(url)
    case None => url[..Cut(40, |url|)]
    case Some((host, path)) =>
      host + path[..Cut(30, |path|)] + (if |path| > 30 then "..." else "")
  }
}
