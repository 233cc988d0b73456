/** The frames of one id among the texts that cross a duplex. */
module Wire {
  import opened Basics
  import opened FrameCodec
  import D = MemoryDuplexes
  import V = ServerMux

  function Suffix<T>(after: seq<T>, before: seq<T>): seq<T> {
    if |before| <= |after| then after[|before|..] else []
  }

  function Frames(log: seq<V.Outgoing>): seq<Frame> {
    seq(|log|, i requires 0 <= i < |log| => log[i].frame)
  }

  function Of(frames: seq<Frame>, id: string): seq<Frame> {
    if frames == [] then []
    else
      var last := frames[|frames| - 1];
      Of(frames[..|frames| - 1], id) + (if Bears(last, id) then [last] else [])
  }

  function Texts(letters: seq<D.Letter<Frame>>): seq<Frame> {
    seq(|letters|, i requires 0 <= i < |letters| => letters[i].text)
  }

  /** The frames for `id` among these letters. */
  function For(letters: seq<D.Letter<Frame>>, id: string): seq<Frame> {
    Of(Texts(letters), id)
  }

  lemma OfSnoc(frames: seq<Frame>, last: Frame, id: string)
    ensures Of(frames + [last], id) == Of(frames, id) + (if Bears(last, id) then [last] else [])
  {
    assert (frames + [last])[..|frames|] == frames;
  }

  lemma {:induction false} OfSplit(a: seq<Frame>, b: seq<Frame>, id: string)
    ensures Of(a + b, id) == Of(a, id) + Of(b, id)
  {
    if b == [] {
      assert a + b == a;
    } else {
      var n := |b| - 1;
      assert (a + b)[..|a| + n] == a + b[..n];
      OfSplit(a, b[..n], id);
    }
  }

  lemma ForSnoc(letters: seq<D.Letter<Frame>>, last: D.Letter<Frame>, id: string)
    ensures For(letters + [last], id) == For(letters, id) + (if Bears(last.text, id) then [last.text] else [])
  {
    assert Texts(letters + [last]) == Texts(letters) + [last.text];
    OfSnoc(Texts(letters), last.text, id);
  }

  /** What was received for an id is a prefix of what was sent for it. */
  lemma ReceivedPrefix(p: D.Pipe<Frame>, side: D.Side, id: string)
    requires D.GoodInbox(p, side)
    ensures For(D.At(p, side).received, id) <= For(D.At(p, side).sent, id)
  {
    var inbox := D.At(p, side);
    assert Texts(inbox.sent) == Texts(inbox.received) + Texts(inbox.queue);
    OfSplit(Texts(inbox.received), Texts(inbox.queue), id);
  }
}
