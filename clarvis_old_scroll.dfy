/**
 * The earlier Clarvis client's virtual scrolling (clarvis-old/public/js/virtual-scroll.js):
 * only the newest hundred messages of a long conversation are rendered, and a
 * banner says how many older ones are hidden.
 */
module ClarvisOldScroll {
  import opened Util

  const MaxVisibleMessages := 100

  /** The messages `getVisibleMessages` renders and the count of those it hides. */
  datatype Window<T> = Window(visible: seq<T>, hiddenCount: nat)

  /** `getVisibleMessages`: everything when there are at most 100, else the last 100. */
  function GetVisibleMessages<T>(messages: seq<T>): (r: Window<T>)
    ensures |messages| <= MaxVisibleMessages ==> r.visible == messages && r.hiddenCount == 0
    ensures |messages| > MaxVisibleMessages ==>
              |r.visible| == MaxVisibleMessages && r.hiddenCount == |messages| - MaxVisibleMessages
    ensures r.hiddenCount + |r.visible| == |messages|
  {
    if |messages| <= MaxVisibleMessages then Window(messages, 0)
    else Window(messages[|messages| - MaxVisibleMessages..], |messages| - MaxVisibleMessages)
  }

  /** The hidden messages followed by the visible ones are the whole conversation, and the visible ones are the newest. */
  lemma HiddenThenVisible<T>(messages: seq<T>)
    ensures var w := GetVisibleMessages(messages);
            messages[..w.hiddenCount] + w.visible == messages
            && forall i :: 0 <= i < |w.visible| ==> w.visible[i] == messages[w.hiddenCount + i]
  {
    var w := GetVisibleMessages(messages);
    assert messages[..w.hiddenCount] + messages[w.hiddenCount..] == messages;
  }

  /** One more message moves the window by one: the oldest visible message is hidden once the window is full. */
  lemma {:induction false} OneMoreMessage<T>(messages: seq<T>, m: T)
    ensures var before := GetVisibleMessages(messages);
            var after := GetVisibleMessages(messages + [m]);
            after.visible[|after.visible| - 1] == m
            && (|messages| < MaxVisibleMessages ==> after.visible == before.visible + [m] && after.hiddenCount == 0)
            && (|messages| >= MaxVisibleMessages ==>
                  after.visible == before.visible[1..] + [m] && after.hiddenCount == before.hiddenCount + 1)
  {
    var n := |messages|;
    var after := GetVisibleMessages(messages + [m]);
    if n >= MaxVisibleMessages {
      var before := GetVisibleMessages(messages);
      assert before.visible == messages[n - MaxVisibleMessages..];
      assert after.visible == (messages + [m])[n + 1 - MaxVisibleMessages..];
      assert after.visible == before.visible[1..] + [m];
    }
  }

  const BannerHead := "\n    <div class=\"load-more-banner\">\n      <span>"
  const BannerTail := " older messages hidden</span>\n      <button class=\"load-more-btn btn-small\">Load more</button>\n    </div>\n  "

  /** `renderLoadMoreBanner`: nothing when no message is hidden, else a banner with the count. */
  function RenderLoadMoreBanner(hiddenCount: int): (r: string)
    ensures r == "" <==> hiddenCount == 0
    ensures hiddenCount != 0 ==> Contains(r, IntDecimal(hiddenCount) + BannerTail)
  {
    if hiddenCount == 0 then ""
    else
      var text := IntDecimal(hiddenCount) + BannerTail;
      ContainsHead(text, []);
      assert text + [] == text;
      ContainsAfter(BannerHead, text, text);
      assert BannerHead + text == BannerHead + IntDecimal(hiddenCount) + BannerTail;
      BannerHead + text
  }

  /** A banner is shown exactly when the conversation is longer than the window. */
  lemma BannerExactlyWhenHidden<T>(messages: seq<T>)
    ensures RenderLoadMoreBanner(GetVisibleMessages(messages).hiddenCount) != "" <==> |messages| > MaxVisibleMessages
  {
  }
}
