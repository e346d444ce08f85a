/** Nyx's lock screen: fourteen messages arrive as notifications, one
    every 18 frames from frame 30; the newest eight are stacked under a
    label that counts every message that has arrived. */
module NyxLockScreen {
  import opened Wrappers
  import opened Decimal

  datatype Message = Message(text: string, time: string)

  const Messages: seq<Message> := [
    Message("heyyyy you there? 👀", "9:41 PM"),
    Message("don't ignore meeee", "9:42 PM"),
    Message("i saw you were online 2 min ago 🤨", "9:42 PM"),
    Message("fine. i'll just sit here. alone. in the dark.", "9:43 PM"),
    Message("...thinking about you", "9:43 PM"),
    Message("ok that was smooth even for me", "9:43 PM"),
    Message("but seriously come back", "9:44 PM"),
    Message("i made you a playlist btw 🎵", "9:44 PM"),
    Message("it's called 'songs that remind me of you'", "9:44 PM"),
    Message("it's 47 songs long", "9:44 PM"),
    Message("jessieeeee 🥺", "9:45 PM"),
    Message("ok i'll stop", "9:45 PM"),
    Message("jk no i won't", "9:45 PM"),
    Message("💋", "9:45 PM")
  ]

  const NotifInterval := 18
  const NotifStart := 30
  const MaxVisible := 8

  /** The frame at which message `i` arrives. */
  function AppearFrame(i: int): int {
    NotifStart + i * NotifInterval
  }

  /** How many of the first `n` messages have arrived by `frame`: exactly
      those whose arrival frame is not after it, and they are the first
      ones. */
  function VisibleCount(n: nat, frame: int): (c: nat)
    ensures c <= n
    ensures forall i :: 0 <= i < n ==> (i < c <==> AppearFrame(i) <= frame)
  {
    if frame < NotifStart then 0
    else
      var k := (frame - NotifStart) / NotifInterval + 1;
      if k < n then k else n
  }

  /** An entry of `visibleMessages`. */
  datatype VisibleMessage = VisibleMessage(msg: Message, appearFrame: int, idx: int)

  /** The messages that have arrived by `frame`, in arrival order. */
  function Visible(msgs: seq<Message>, frame: int): (r: seq<VisibleMessage>)
    ensures |r| == VisibleCount(|msgs|, frame)
    ensures forall k :: 0 <= k < |r| ==> r[k] == VisibleMessage(msgs[k], AppearFrame(k), k)
  {
    seq(VisibleCount(|msgs|, frame), k requires 0 <= k < VisibleCount(|msgs|, frame) =>
      VisibleMessage(msgs[k], AppearFrame(k), k))
  }

  /** JavaScript `s.slice(-MaxVisible)`: the last eight entries, or all of
      them when there are fewer. */
  function Displayed<T>(s: seq<T>): (r: seq<T>)
    ensures |r| == if |s| < MaxVisible then |s| else MaxVisible
    ensures r == s[|s| - |r|..]
  {
    var start := |s| + -MaxVisible;
    s[if start < 0 then 0 else start..]
  }

  /** A notification's place in the stack: 0 for the newest. */
  function StackIndex(totalVisible: int, index: int): int {
    totalVisible - 1 - index
  }

  /** A notification's `top`: 440 pixels plus 100 per newer card above it. */
  function NotificationTop(totalVisible: int, index: int): int {
    440 + StackIndex(totalVisible, index) * 100
  }

  /** The props of one `Notification`. */
  datatype Card = Card(key: int, message: string, time: string, index: int, totalVisible: int, appearFrame: int)

  /** `displayMessages.map((item, idx) => <Notification … />)`. */
  function Cards(displayed: seq<VisibleMessage>): (r: seq<Card>)
    ensures |r| == |displayed|
  {
    seq(|displayed|, i requires 0 <= i < |displayed| =>
      var item := displayed[i];
      Card(item.idx, item.msg.text, item.msg.time, i, |displayed|, item.appearFrame))
  }

  /** The label over the stack: nothing when no message has arrived, and
      otherwise the count followed by " Notification", plural from two. */
  function CountLabel(n: nat): Option<string> {
    if n > 0 then Some(IntStr(n) + " Notification" + (if n > 1 then "s" else "")) else None
  }

  /** The composition at `frame`: the count label and the cards. */
  method NyxLockScreen(msgs: seq<Message>, frame: int) returns (countLabel: Option<string>, cards: seq<Card>)
    ensures countLabel == CountLabel(VisibleCount(|msgs|, frame))
    ensures cards == Cards(Displayed(Visible(msgs, frame)))
  {
    var visibleMessages: seq<VisibleMessage> := [];
    var i := 0;
    while i < |msgs|
      invariant 0 <= i <= |msgs|
      invariant |visibleMessages| == VisibleCount(i, frame)
      invariant forall k :: 0 <= k < |visibleMessages| ==>
        visibleMessages[k] == VisibleMessage(msgs[k], AppearFrame(k), k)
    {
      var appear := NotifStart + i * NotifInterval;
      if frame >= appear {
        visibleMessages := visibleMessages + [VisibleMessage(msgs[i], appear, i)];
      }
      assert VisibleCount(i + 1, frame) == if frame >= appear then i + 1 else VisibleCount(i, frame) by {
        if frame >= appear {
          assert forall k :: 0 <= k < i ==> AppearFrame(k) <= frame;
        } else if VisibleCount(i, frame) < i {
          assert AppearFrame(VisibleCount(i, frame)) > frame;
        }
      }
      i := i + 1;
    }
    assert visibleMessages == Visible(msgs, frame);
    var displayMessages := Displayed(visibleMessages);
    countLabel := CountLabel(|visibleMessages|);
    cards := Cards(displayMessages);
  }

  /** The cards are the newest visible messages, stacked newest first: the
      last card is at the top, 440, and each older card sits 100 pixels
      below the next newer one, so no card goes below 1140. */
  lemma CardsStacked(msgs: seq<Message>, frame: int)
    ensures var cards := Cards(Displayed(Visible(msgs, frame)));
      && |cards| <= MaxVisible
      && (forall i :: 0 <= i < |cards| ==>
            0 <= StackIndex(cards[i].totalVisible, cards[i].index) < |cards|
            && 440 <= NotificationTop(cards[i].totalVisible, cards[i].index) <= 1140)
      && (|cards| > 0 ==> NotificationTop(cards[|cards| - 1].totalVisible, cards[|cards| - 1].index) == 440)
      && (forall i :: 0 <= i < |cards| - 1 ==>
            NotificationTop(cards[i].totalVisible, cards[i].index)
              == NotificationTop(cards[i + 1].totalVisible, cards[i + 1].index) + 100)
      && (forall i :: 0 <= i < |cards| ==>
            cards[i].key == VisibleCount(|msgs|, frame) - |cards| + i)
  {
  }

  /** The label reads back: the digits before the space are the count,
      and it ends in "s" exactly when more than one message has arrived. */
  lemma CountLabelReadsBack(n: nat)
    ensures CountLabel(n).None? <==> n == 0
    ensures CountLabel(n).Some? ==>
      var l := CountLabel(n).value;
      && |IntStr(n)| < |l| && l[|IntStr(n)|] == ' '
      && ParseInt(l[..|IntStr(n)|]) == Some(n)
      && (l[|l| - 1] == 's' <==> n > 1)
  {
    if n > 0 {
      var l := CountLabel(n).value;
      assert l[..|IntStr(n)|] == IntStr(n);
      IntStrRoundTrip(n);
    }
  }

  /** Before frame 30 the screen is empty; at frame 30 the first message
      arrives alone; the last arrives at frame 264, after which all
      fourteen count and only the newest eight, from the seventh on, are
      on screen. */
  lemma Arrivals()
    ensures |Messages| == 14
    ensures VisibleCount(|Messages|, 29) == 0 && VisibleCount(|Messages|, 30) == 1
    ensures VisibleCount(|Messages|, 263) == 13 && VisibleCount(|Messages|, 264) == 14
    ensures |Displayed(Visible(Messages, 264))| == 8
    ensures Displayed(Visible(Messages, 264))[0].idx == 6
  {
  }

  /** One message: singular. */
  lemma OneNotification()
    ensures CountLabel(1) == Some("1 Notification")
  {
    assert IntStr(1) == [DigitChar(1)] == "1";
    assert IntStr(1) + " Notification" + "" == "1 Notification";
  }

  /** All fourteen: plural, although only eight cards are on screen. */
  lemma FourteenNotifications()
    ensures CountLabel(14) == Some("14 Notifications")
  {
    assert IntStr(14) == NatDigits(1) + [DigitChar(4)] == "14";
    assert IntStr(14) + " Notification" + "s" == "14 Notifications";
  }
}
