/** The Pika "AI Self" demo: a title card, a chat that plays a typing
    indicator, a first message, a photo and six more messages one after
    another, and an end card. Durations are in frames at 24 fps. */
module PikaDemo {
  import opened Schedule

  const TitleDuration := 72
  const TypingDuration := 36
  const ImageDuration := 48
  const EndCardDuration := 48

  /** A chat message: who sends it and how long it stays on screen. */
  datatype Message = Message(isUser: bool, duration: int)

  /** `MESSAGES`; the photo is shown after the first one. */
  const Messages: seq<Message> := [
    Message(false, 79),
    Message(true, 48),
    Message(false, 74),
    Message(true, 46),
    Message(false, 96),
    Message(false, 67),
    Message(true, 32)
  ]

  function Durations(msgs: seq<Message>): (r: seq<int>)
    ensures |r| == |msgs|
  {
    seq(|msgs|, i requires 0 <= i < |msgs| => msgs[i].duration)
  }

  /** `CHAT_DURATION = TYPING_DURATION + MESSAGES[0].duration +
      IMAGE_DURATION + MESSAGES.slice(1).reduce((sum, m) => sum +
      m.duration, 0)`. */
  function ChatDuration(msgs: seq<Message>): int
    requires |msgs| >= 1
  {
    TypingDuration + msgs[0].duration + ImageDuration + Sum(Durations(msgs[1..]))
  }

  /** The chat's items in playing order: the typing indicator, the first
      message, the photo, then the remaining messages. */
  function ChatItems(msgs: seq<Message>): (r: seq<int>)
    requires |msgs| >= 1
    ensures |r| == |msgs| + 2
  {
    [TypingDuration, msgs[0].duration, ImageDuration] + Durations(msgs[1..])
  }

  /** CHAT_DURATION is exactly the length of the chat's items played back
      to back. */
  lemma ChatDurationIsItems(msgs: seq<Message>)
    requires |msgs| >= 1
    ensures ChatDuration(msgs) == Sum(ChatItems(msgs))
  {
    var head := [TypingDuration, msgs[0].duration, ImageDuration];
    SumThree(TypingDuration, msgs[0].duration, ImageDuration);
    SumAppend(head, Durations(msgs[1..]));
  }

  lemma SumThree(a: int, b: int, c: int)
    ensures Sum([a, b, c]) == a + b + c
  {
    SumPair(b, c);
    assert [a, b, c][1..] == [b, c];
    assert Sum([a, b, c]) == a + Sum([b, c]);
  }

  lemma SumPair(a: int, b: int)
    ensures Sum([a, b]) == a + b
  {
    assert [a, b][1..] == [b];
    assert Sum([a, b]) == a + Sum([b]);
    assert [b][1..] == [];
    assert Sum([b]) == b + Sum([]);
  }

  /** What `ChatLayer` computes before it renders. */
  datatype ChatTiming = ChatTiming(typingStart: int, message0Start: int, imageStart: int,
                                   messageStarts: seq<int>, end: int)

  /** `ChatLayer`'s counter: the typing indicator at 0, the first message
      after it, the photo after that, and each remaining message pushed to
      `messageStarts` at the counter's value before it advances. */
  method ChatLayer(msgs: seq<Message>) returns (t: ChatTiming)
    requires |msgs| >= 1
    ensures t.typingStart == 0 && t.message0Start == TypingDuration
    ensures t.imageStart == TypingDuration + msgs[0].duration
    ensures |t.messageStarts| == |msgs| - 1
    ensures forall k :: 0 <= k < |msgs| - 1 ==> t.messageStarts[k] == Starts(ChatItems(msgs))[k + 3]
    ensures t.end == ChatDuration(msgs)
  {
    var items := ChatItems(msgs);
    var currentFrame := 0;
    var typingStart := currentFrame;
    currentFrame := currentFrame + TypingDuration;
    var message0Start := currentFrame;
    currentFrame := currentFrame + msgs[0].duration;
    var imageStart := currentFrame;
    currentFrame := currentFrame + ImageDuration;
    assert currentFrame == Sum(items[..3]) by {
      assert items[..3] == [TypingDuration, msgs[0].duration, ImageDuration];
      SumThree(TypingDuration, msgs[0].duration, ImageDuration);
    }
    var remainingMessages := msgs[1..];
    var messageStarts := [];
    var k := 0;
    while k < |remainingMessages|
      invariant 0 <= k <= |remainingMessages|
      invariant currentFrame == Sum(items[..k + 3])
      invariant |messageStarts| == k
      invariant forall m :: 0 <= m < k ==> messageStarts[m] == Starts(items)[m + 3]
    {
      messageStarts := messageStarts + [currentFrame];
      currentFrame := currentFrame + remainingMessages[k].duration;
      SumTake(items, k + 3);
      k := k + 1;
    }
    assert items[..|items|] == items;
    ChatDurationIsItems(msgs);
    t := ChatTiming(typingStart, message0Start, imageStart, messageStarts, currentFrame);
  }

  /** The chat's items follow one another with neither gap nor overlap,
      the last one ends at CHAT_DURATION, and with positive durations the
      remaining messages start strictly one after another. */
  lemma ChatBackToBack(msgs: seq<Message>)
    requires |msgs| >= 1
    ensures Starts(ChatItems(msgs))[1] == TypingDuration
    ensures Starts(ChatItems(msgs))[2] == TypingDuration + msgs[0].duration
    ensures forall i :: 0 <= i < |msgs| + 1 ==>
      Starts(ChatItems(msgs))[i] + ChatItems(msgs)[i] == Starts(ChatItems(msgs))[i + 1]
    ensures Starts(ChatItems(msgs))[|msgs| + 1] + ChatItems(msgs)[|msgs| + 1] == ChatDuration(msgs)
    ensures Positive(Durations(msgs)) ==>
      forall k, m :: 3 <= k < m < |msgs| + 2 ==> Starts(ChatItems(msgs))[k] < Starts(ChatItems(msgs))[m]
  {
    var items := ChatItems(msgs);
    Tiling(items);
    ChatDurationIsItems(msgs);
    if Positive(Durations(msgs)) {
      assert Positive(items) by {
        forall i | 0 <= i < |items| ensures items[i] > 0 {
          if i == 1 {
            assert Durations(msgs)[0] > 0;
          } else if i >= 3 {
            assert Durations(msgs)[i - 2] > 0;
          }
        }
      }
      forall k, m | 3 <= k < m < |msgs| + 2 ensures Starts(items)[k] < Starts(items)[m] {
        StartsIncrease(items, k, m);
      }
    }
  }

  /** For the messages as given the chat lasts 526 frames: the photo comes
      in at frame 115 and the last message ends at 526. */
  lemma ChatFigures()
    ensures ChatDuration(Messages) == 526
    ensures Starts(ChatItems(Messages))[2] == 115
  {
    assert Durations(Messages[1..]) == [48, 74, 46, 96, 67, 32];
    ChatBackToBack(Messages);
  }

  /** The three top-level Sequences of `PikaAISelfDemo`, as (from,
      durationInFrames): title card, chat, end card. */
  function DemoSequences(msgs: seq<Message>): seq<(int, int)>
    requires |msgs| >= 1
  {
    var chatStart := TitleDuration;
    var endCardStart := chatStart + ChatDuration(msgs);
    [(0, TitleDuration), (chatStart, ChatDuration(msgs)), (endCardStart, EndCardDuration)]
  }

  /** Title card, chat and end card follow one another; for the messages as
      given the demo ends at frame 646, the length registered for the
      composition in src/index.tsx. */
  lemma DemoBackToBack(msgs: seq<Message>)
    requires |msgs| >= 1
    ensures forall i :: 0 <= i < 3 ==>
      DemoSequences(msgs)[i].0 == Starts([TitleDuration, ChatDuration(msgs), EndCardDuration])[i]
    ensures msgs == Messages ==> DemoSequences(msgs)[2].0 + DemoSequences(msgs)[2].1 == 646
  {
    var d := [TitleDuration, ChatDuration(msgs), EndCardDuration];
    assert d[..0] == [] && d[..1] == [TitleDuration] && d[..2] == [TitleDuration, ChatDuration(msgs)];
    SumPair(TitleDuration, ChatDuration(msgs));
    assert Sum(d[..1]) == TitleDuration by {
      assert [TitleDuration][1..] == [];
    }
    if msgs == Messages {
      ChatFigures();
    }
  }
}
