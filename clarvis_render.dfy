/**
 * Rendering helpers of the browser client (clarvis/public/js/render.js):
 * HTML escaping, the shortened project path and the relative time a session
 * list shows, and the message view, which appends only the messages not yet
 * on screen. The page is reduced to the list of rendered message elements;
 * the markdown renderer (markdown.js) is a parameter.
 */
module ClarvisRender {
  import opened Util
  import St = ClarvisState

  /** `str.replace(/c/g, rep)`: every occurrence of one character replaced by a string. */
  function ReplaceChar(s: string, c: char, rep: string): (r: string)
    ensures c !in rep ==> c !in r
  {
    if |s| == 0 then ""
    else (if s[0] == c then rep else [s[0]]) + ReplaceChar(s[1..], c, rep)
  }

  lemma {:induction false} ReplaceCharAppend(a: string, b: string, c: char, rep: string)
    ensures ReplaceChar(a + b, c, rep) == ReplaceChar(a, c, rep) + ReplaceChar(b, c, rep)
  {
    if |a| > 0 {
      assert (a + b)[1..] == a[1..] + b;
      ReplaceCharAppend(a[1..], b, c, rep);
    } else {
      assert a + b == b;
    }
  }

  lemma {:induction false} ReplaceCharAbsent(s: string, c: char, rep: string)
    requires c !in s
    ensures ReplaceChar(s, c, rep) == s
  {
    if |s| > 0 {
      ReplaceCharAbsent(s[1..], c, rep);
      assert [s[0]] + s[1..] == s;
    }
  }

  const Amp := "&amp;"
  const Lt := "&lt;"
  const Gt := "&gt;"
  const Quot := "&quot;"

  /** The body of `escapeHtml`: '&' first, then '<', '>' and '"', one global replacement each. */
  function FourPasses(s: string): string
  {
    ReplaceChar(ReplaceChar(ReplaceChar(ReplaceChar(s, '&', Amp), '<', Lt), '>', Gt), '"', Quot)
  }

  /** The entity one character stands for in escaped text. */
  function EscapeChar(c: char): (r: string)
    ensures |r| >= 1 && '<' !in r && '>' !in r && '"' !in r
    ensures c != '&' && c != '<' && c != '>' && c != '"' ==> r == [c]
  {
    if c == '&' then Amp
    else if c == '<' then Lt
    else if c == '>' then Gt
    else if c == '"' then Quot
    else [c]
  }

  /** The reference escaping: each character replaced by its entity, independently. */
  function EscapeEach(s: string): (r: string)
    ensures '<' !in r && '>' !in r && '"' !in r
  {
    if |s| == 0 then "" else EscapeChar(s[0]) + EscapeEach(s[1..])
  }

  /** One character through the four passes: no pass touches the entity an earlier pass wrote. */
  lemma EscapeOne(c: char)
    ensures FourPasses([c]) == EscapeChar(c)
  {
    assert [c][1..] == [];
    var a := ReplaceChar([c], '&', Amp);
    assert a == (if c == '&' then Amp else [c]) + ReplaceChar([], '&', Amp);
    var b := ReplaceChar(a, '<', Lt);
    if c == '<' {
      assert b == Lt + ReplaceChar([], '<', Lt);
    } else {
      ReplaceCharAbsent(a, '<', Lt);
    }
    var d := ReplaceChar(b, '>', Gt);
    if c == '>' {
      assert d == Gt + ReplaceChar([], '>', Gt);
    } else {
      ReplaceCharAbsent(b, '>', Gt);
    }
    var e := ReplaceChar(d, '"', Quot);
    if c == '"' {
      assert e == Quot + ReplaceChar([], '"', Quot);
    } else {
      ReplaceCharAbsent(d, '"', Quot);
    }
  }

  /** Escaping '&' first makes the four passes equal to escaping each character once: nothing is escaped twice. */
  lemma {:induction false} FourPassesEach(s: string)
    ensures FourPasses(s) == EscapeEach(s)
  {
    if |s| > 0 {
      var h, t := [s[0]], s[1..];
      assert s == h + t;
      ReplaceCharAppend(h, t, '&', Amp);
      var a1, a2 := ReplaceChar(h, '&', Amp), ReplaceChar(t, '&', Amp);
      ReplaceCharAppend(a1, a2, '<', Lt);
      var b1, b2 := ReplaceChar(a1, '<', Lt), ReplaceChar(a2, '<', Lt);
      ReplaceCharAppend(b1, b2, '>', Gt);
      var d1, d2 := ReplaceChar(b1, '>', Gt), ReplaceChar(b2, '>', Gt);
      ReplaceCharAppend(d1, d2, '"', Quot);
      EscapeOne(s[0]);
      FourPassesEach(t);
    }
  }

  /**
   * `escapeHtml`: the four passes escape every character once, so the
   * text shown is the text given, with no '<', '>' or '"' left to open a tag
   * or close an attribute.
   */
  function EscapeHtml(s: string): (r: string)
    ensures r == EscapeEach(s)
    ensures '<' !in r && '>' !in r && '"' !in r
  {
    FourPassesEach(s);
    FourPasses(s)
  }

  /** Escaped text holds no '<', '>' or '"', and text without special characters is left as it is. */
  lemma EscapeHtmlSafe(s: string)
    ensures '<' !in EscapeHtml(s) && '>' !in EscapeHtml(s) && '"' !in EscapeHtml(s)
    ensures (forall i :: 0 <= i < |s| ==> s[i] != '&' && s[i] != '<' && s[i] != '>' && s[i] != '"')
            ==> EscapeHtml(s) == s
  {
    if forall i :: 0 <= i < |s| ==> s[i] != '&' && s[i] != '<' && s[i] != '>' && s[i] != '"' {
      EscapeEachPlain(s);
    }
  }

  lemma {:induction false} EscapeEachPlain(s: string)
    requires forall i :: 0 <= i < |s| ==> s[i] != '&' && s[i] != '<' && s[i] != '>' && s[i] != '"'
    ensures EscapeEach(s) == s
  {
    if |s| > 0 {
      EscapeEachPlain(s[1..]);
      assert [s[0]] + s[1..] == s;
    }
  }

  /** `parts.filter(Boolean)` for strings: the non-empty ones, in order. */
  function NonEmpty(parts: seq<string>): (r: seq<string>)
    ensures forall p :: p in r <==> p in parts && p != ""
    ensures |r| <= |parts|
  {
    if |parts| == 0 then []
    else if parts[0] == "" then NonEmpty(parts[1..])
    else [parts[0]] + NonEmpty(parts[1..])
  }

  const Unknown := "Unknown"
  const Ellipsis := "..."

  /** `shortenPath`: 'Unknown' for no path, the path itself up to two segments, else '.../' and the last two. */
  function ShortenPath(path: string): (r: string)
    ensures path == "" ==> r == Unknown
    ensures |NonEmpty(Split(path, '/'))| <= 2 ==> path == "" || r == path
    ensures |NonEmpty(Split(path, '/'))| > 2 ==>
              var parts := NonEmpty(Split(path, '/'));
              r == Ellipsis + "/" + parts[|parts| - 2] + "/" + parts[|parts| - 1]
  {
    if path == "" then Unknown
    else
      var parts := NonEmpty(Split(path, '/'));
      if |parts| <= 2 then path
      else Ellipsis + "/" + parts[|parts| - 2] + "/" + parts[|parts| - 1]
  }

  /** The segments of `a/b/c` with no '/' inside a, b or c. */
  lemma ThreeSegments(a: string, b: string, c: string)
    requires a != "" && b != "" && c != "" && '/' !in a && '/' !in b && '/' !in c
    ensures NonEmpty(Split(a + "/" + b + "/" + c, '/')) == [a, b, c]
  {
    var x := b + ['/'] + c;
    SplitNoSeparator(c, '/');
    SplitCons(b, '/', c);
    assert Split(x, '/') == [b, c];
    SplitCons(a, '/', x);
    assert a + "/" + b + "/" + c == a + ['/'] + x;
    assert Split(a + "/" + b + "/" + c, '/') == [a, b, c];
    NonEmptyThree(a, b, c);
  }

  lemma NonEmptyThree(a: string, b: string, c: string)
    requires a != "" && b != "" && c != ""
    ensures NonEmpty([a, b, c]) == [a, b, c]
  {
    assert [c][1..] == [];
    assert NonEmpty([c]) == [c] + NonEmpty([]);
    assert [b, c][1..] == [c];
    assert NonEmpty([b, c]) == [b] + NonEmpty([c]);
    assert [a, b, c][1..] == [b, c];
    assert NonEmpty([a, b, c]) == [a] + NonEmpty([b, c]);
  }

  /** A shortened path is shortened to itself: its two segments are kept behind '.../'. */
  lemma ShortenPathIdempotent(path: string)
    ensures ShortenPath(ShortenPath(path)) == ShortenPath(path)
  {
    if path != "" {
      var parts := NonEmpty(Split(path, '/'));
      if |parts| > 2 {
        var b, c := parts[|parts| - 2], parts[|parts| - 1];
        assert b in parts && c in parts;
        SplitPartsNoSlash(path);
        ThreeSegments(Ellipsis, b, c);
      }
    } else {
      SplitNoSeparator(Unknown, '/');
      assert NonEmpty([Unknown]) == [Unknown];
    }
  }

  /** No piece of a split contains the separator. */
  lemma {:induction false} SplitPartsNoSlash(path: string)
    ensures forall p :: p in Split(path, '/') ==> '/' !in p
  {
    if |path| > 0 {
      SplitPartsNoSlash(path[1..]);
      var rest := Split(path[1..], '/');
      if path[0] != '/' {
        assert forall p :: p in rest[1..] ==> p in rest;
        assert '/' !in [path[0]] + rest[0];
      }
    }
  }

  const MinuteS := 60
  const HourS := 3600
  const DayS := 86400

  /**
   * `timeAgo(timestamp)` at the instant `now` (`Date.now()`): '' for a missing
   * timestamp (0), 'now' under a minute (a timestamp in the future included),
   * then whole minutes, hours or days, rounded down.
   */
  function TimeAgo(timestamp: int, now: int): (r: string)
    ensures r == "" <==> timestamp == 0
    ensures timestamp != 0 ==> (r == "now" <==> now - timestamp < 60000)
    ensures timestamp != 0 && now - timestamp >= 60000 ==>
              |r| >= 2 && r[|r| - 1] == (if now - timestamp < 3600000 then 'm' else if now - timestamp < 86400000 then 'h' else 'd')
  {
    if timestamp == 0 then ""
    else
      var seconds := (now - timestamp) / 1000;   // Math.floor: Dafny's `/` floors for a positive divisor
      assert seconds < MinuteS <==> now - timestamp < 60000;
      assert seconds < HourS <==> now - timestamp < 3600000;
      assert seconds < DayS <==> now - timestamp < 86400000;
      if seconds < MinuteS then "now"
      else
        var (count, unit) := if seconds < HourS then (seconds / 60, 'm')
                             else if seconds < DayS then (seconds / 3600, 'h')
                             else (seconds / 86400, 'd');
        var text := Decimal(count) + [unit];
        assert text[|text| - 1] == unit && "now"[2] == 'w';
        text
  }

  /** An elapsed time of `m` whole minutes and less than an hour shows as `<m>m`. */
  lemma TimeAgoMinutes(timestamp: int, now: int, m: nat)
    requires timestamp != 0 && 1 <= m < 60
    requires 60000 * m <= now - timestamp < 60000 * (m + 1)
    ensures TimeAgo(timestamp, now) == Decimal(m) + "m"
  {
    var seconds := (now - timestamp) / 1000;
    assert 60 * m <= seconds < 60 * (m + 1);
    assert seconds / 60 == m;
  }

  /** An elapsed time of `h` whole hours and less than a day shows as `<h>h`. */
  lemma TimeAgoHours(timestamp: int, now: int, h: nat)
    requires timestamp != 0 && 1 <= h < 24
    requires 3600000 * h <= now - timestamp < 3600000 * (h + 1)
    ensures TimeAgo(timestamp, now) == Decimal(h) + "h"
  {
    var seconds := (now - timestamp) / 1000;
    assert 3600 * h <= seconds < 3600 * (h + 1);
    assert seconds / 3600 == h;
  }

  /** Under a minute, or a timestamp ahead of the clock, shows as 'now'; a day or more shows whole days. */
  lemma TimeAgoBounds(timestamp: int, now: int)
    requires timestamp != 0
    ensures now - timestamp < 60000 ==> TimeAgo(timestamp, now) == "now"
    ensures now - timestamp >= 86400000 ==>
              TimeAgo(timestamp, now) == Decimal((now - timestamp) / 1000 / 86400) + "d"
  {
    var seconds := (now - timestamp) / 1000;
    if now - timestamp < 60000 {
      assert seconds < 60;
    }
    if now - timestamp >= 86400000 {
      assert seconds >= 86400;
    }
  }

  /** A message element on the page: its class and its inner HTML. */
  datatype Element = Element(role: string, html: string)

  /** The element for one message: markdown for the assistant, escaped text otherwise. */
  function Rendered(m: St.ChatMessage, markdown: string -> string): (e: Element)
    ensures e.role == m.role
    ensures m.role != "assistant" ==> '<' !in e.html
  {
    Element(m.role, if m.role == "assistant" then markdown(m.content) else EscapeHtml(m.content))
  }

  /** The elements for a list of messages, in order. */
  function RenderedAll(ms: seq<St.ChatMessage>, markdown: string -> string): (r: seq<Element>)
    ensures |r| == |ms|
  {
    if |ms| == 0 then [] else RenderedAll(ms[..|ms| - 1], markdown) + [Rendered(ms[|ms| - 1], markdown)]
  }

  lemma {:induction false} RenderedAllAppend(a: seq<St.ChatMessage>, b: seq<St.ChatMessage>, markdown: string -> string)
    ensures RenderedAll(a + b, markdown) == RenderedAll(a, markdown) + RenderedAll(b, markdown)
  {
    if |b| > 0 {
      assert (a + b)[..|a + b| - 1] == a + b[..|b| - 1];
      RenderedAllAppend(a, b[..|b| - 1], markdown);
    } else {
      assert a + b == a;
    }
  }

  /** The `#messages` container: the message elements on the page. */
  class MessageView {
    var elements: seq<Element>

    constructor()
      ensures elements == []
    {
      elements := [];
    }

    /**
     * `renderMessages`: with no active session the elements are removed;
     * otherwise the messages past the number already on the page are
     * appended, and the ones on the page are left as they are.
     */
    method RenderMessages(active: Option<string>, messages: seq<St.ChatMessage>, markdown: string -> string)
      modifies this
      ensures active.None? ==> elements == []
      ensures active.Some? && |old(elements)| <= |messages| ==>
                elements == old(elements) + RenderedAll(messages[|old(elements)|..], markdown)
      ensures active.Some? && |old(elements)| > |messages| ==> elements == old(elements)
    {
      if active.None? {
        elements := [];
        return;
      }
      var existing := |elements|;
      if existing > |messages| {
        return;
      }
      var unseen := messages[existing..];
      ghost var start := elements;
      for i := 0 to |unseen|
        invariant elements == start + RenderedAll(unseen[..i], markdown)
      {
        var e := Rendered(unseen[i], markdown);
        assert unseen[..i + 1][..i] == unseen[..i] && unseen[..i + 1][i] == unseen[i];
        assert RenderedAll(unseen[..i + 1], markdown) == RenderedAll(unseen[..i], markdown) + [e];
        elements := elements + [e];
      }
      assert unseen[..|unseen|] == unseen;
    }
  }

  /** A page showing exactly the earlier messages shows all of them after the render, each once. */
  lemma RenderCatchesUp(shown: seq<St.ChatMessage>, added: seq<St.ChatMessage>, markdown: string -> string)
    ensures RenderedAll(shown, markdown) + RenderedAll((shown + added)[|shown|..], markdown)
            == RenderedAll(shown + added, markdown)
  {
    assert (shown + added)[|shown|..] == added;
    RenderedAllAppend(shown, added, markdown);
  }

  /** Rendering twice with the same messages adds nothing the second time. */
  method RenderTwice(id: string, messages: seq<St.ChatMessage>, markdown: string -> string)
    returns (first: seq<Element>, second: seq<Element>)
    ensures first == RenderedAll(messages, markdown) && second == first
  {
    var view := new MessageView();
    view.RenderMessages(Some(id), messages, markdown);
    assert messages[0..] == messages;
    first := view.elements;
    view.RenderMessages(Some(id), messages, markdown);
    assert messages[|messages|..] == [];
    second := view.elements;
  }
}
