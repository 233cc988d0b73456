/**
 * All calls of one end against everything that end has received: what each
 * event of the end keeps, and what each letter it takes in changes.
 */
module Ends {
  import opened Basics
  import opened FrameCodec
  import opened Streams
  import opened Wire
  import S = Sessions
  import D = MemoryDuplexes
  import C = ClientMux
  import CC = ClientCalls
  import V = ServerMux
  import SC = ServerCalls

  // ---- The client ----

  /** Every call's output iterator against the frames received for its id. */
  ghost predicate OutsOk(l: C.Link, received: seq<D.Letter<Frame>>) {
    forall k :: 0 <= k < |l.calls| ==> OutOk(l.calls[k], For(received, l.calls[k].id))
  }

  lemma OutsClose(l: C.Link, received: seq<D.Letter<Frame>>)
    requires OutsOk(l, received)
    ensures OutsOk(C.Close(l), received)
  {
    var r := C.Close(l);
    forall k | 0 <= k < |r.calls| ensures OutOk(r.calls[k], For(received, r.calls[k].id)) {
      assert OutOk(l.calls[k], For(received, l.calls[k].id));
      FailedSameOut(l.calls[k], CC.ByClose);
    }
  }

  lemma OutsApply(l: C.Link, k: nat, e: CC.Effect, received: seq<D.Letter<Frame>>)
    requires k < |l.calls| && OutOk(e.call, For(received, e.call.id)) && e.call.id == l.calls[k].id
    requires forall j :: 0 <= j < |l.calls| && j != k ==> OutOk(l.calls[j], For(received, l.calls[j].id))
    ensures OutsOk(C.Apply(l, k, e), received)
  {
    var r := C.Apply(l, k, e.(close := false));
    assert OutsOk(r, received);
    OutsClose(r, received);
  }

  /** An event of the client's own leaves what its iterators were given. */
  lemma OutsStep(l: C.Link, e: C.Event, received: seq<D.Letter<Frame>>)
    requires OutsOk(l, received) && !e.Arrives?
    requires For(received, Decimal(l.nextId)) == []
    ensures OutsOk(C.Step(l, e), received)
  {
    match e
    case Opens(request, signal, aborted, first, second) =>
      if l.open {
        var c := CC.Fresh(Decimal(l.nextId), request);
        var net := CC.Net(l.open, first, second);
        OpenSameOut(c.id, request, signal, aborted, net);
        CC.OpenOk(c.id, request, signal, aborted, net);
        OutsApply(C.Allocate(l, c), |l.calls|, CC.Open(c, signal, aborted, net), received);
      }
    case Proceeds(k, event, first, second) =>
      if k < |l.calls| {
        var net := CC.Net(l.open, first, second);
        CallStepSameOut(l.calls[k], event, net);
        OutsApply(l, k, C.CallStep(l.calls[k], event, net), received);
      }
    case Closes => OutsClose(l, received);
  }

  /** The letters received so far, and one more, keep to the server's language. */
  ghost predicate Follows(l: C.Link, received: seq<D.Letter<Frame>>, letter: D.Letter<Frame>) {
    forall k :: 0 <= k < |l.calls| ==> SC.Legal(For(received + [letter], l.calls[k].id))
  }

  /** A letter that the client does not act on. */
  lemma OutsSkip(l: C.Link, received: seq<D.Letter<Frame>>, letter: D.Letter<Frame>)
    requires C.Good(l) && OutsOk(l, received) && Follows(l, received, letter)
    requires l.open && l.calls != [] ==> !letter.text.Item? || letter.text.id == ""
    ensures OutsOk(l, received + [letter])
  {
    forall k | 0 <= k < |l.calls| ensures OutOk(l.calls[k], For(received + [letter], l.calls[k].id)) {
      NumberOfDecimal(k + 1);
      assert CC.Live(l.calls[k]) ==> C.InFlight(l, k);
      SkipsOne(l, k, received, letter);
    }
  }

  lemma SkipsOne(l: C.Link, k: nat, received: seq<D.Letter<Frame>>, letter: D.Letter<Frame>)
    requires C.Good(l) && OutsOk(l, received) && Follows(l, received, letter) && k < |l.calls|
    requires Bears(letter.text, l.calls[k].id) && CC.Live(l.calls[k]) ==> !letter.text.Item?
    ensures OutOk(l.calls[k], For(received + [letter], l.calls[k].id))
  {
    var c := l.calls[k];
    ForSnoc(received, letter, c.id);
    assert CC.CallOk(c, C.FramesFor(l.log, c.id));
    assert CC.Live(c) ==> C.InFlight(l, k);
    if Bears(letter.text, c.id) {
      SkippedFrameOut(c, For(received, c.id), letter.text);
    } else {
      assert For(received, c.id) + [] == For(received, c.id);
    }
  }

  lemma LastIsNoCall(frames: seq<Frame>, last: Frame)
    requires SC.Legal(frames + [last])
    ensures !last.Call?
  {
    assert (frames + [last])[|frames|] == last;
  }

  /** The server sends no `call` frame for the client's ids. */
  lemma NoCallFollows(l: C.Link, received: seq<D.Letter<Frame>>, letter: D.Letter<Frame>)
    requires C.Routed(l) && Follows(l, received, letter) && letter.text.Call?
    ensures letter.text.id !in l.inflight
  {
    if letter.text.id in l.inflight {
      ForSnoc(received, letter, letter.text.id);
      LastIsNoCall(For(received, letter.text.id), letter.text);
    }
  }

  lemma OutsDropped(l: C.Link, received: seq<D.Letter<Frame>>, letter: D.Letter<Frame>)
    requires C.Good(l) && OutsOk(l, received) && Follows(l, received, letter)
    requires !IsHello(letter.text) && letter.text.id !in l.inflight
    ensures OutsOk(l, received + [letter])
  {
    forall k | 0 <= k < |l.calls| ensures OutOk(l.calls[k], For(received + [letter], l.calls[k].id)) {
      assert CC.Live(l.calls[k]) ==> C.InFlight(l, k);
      SkipsOne(l, k, received, letter);
    }
  }

  lemma RouteOf(l: C.Link, frame: Frame, size: nat)
    requires C.Good(l) && l.open
    ensures IsHello(frame) ==> C.Step(l, C.Arrives(frame, size)) == C.Close(l)
    ensures !IsHello(frame) && frame.id !in l.inflight ==> C.Step(l, C.Arrives(frame, size)) == l
    ensures !IsHello(frame) && frame.id in l.inflight ==>
              var k := l.inflight[frame.id];
              k < |l.calls| && C.Step(l, C.Arrives(frame, size)) == C.Apply(l, k, CC.OnFrame(l.calls[k], frame, size, l.mark))
  {
  }

  /** A letter that the client routes. */
  lemma OutsArrive(l: C.Link, received: seq<D.Letter<Frame>>, letter: D.Letter<Frame>)
    requires C.Good(l) && l.open && OutsOk(l, received) && Follows(l, received, letter)
    ensures OutsOk(C.Step(l, C.Arrives(Normal(letter.text), letter.size)), received + [letter])
  {
    var frame := letter.text;
    RouteOf(l, Normal(frame), letter.size);
    if IsHello(frame) {
      OutsSkip(l, received, letter);
      OutsClose(l, received + [letter]);
    } else if frame.Call? {
      NoCallFollows(l, received, letter);
      OutsDropped(l, received, letter);
    } else if frame.id !in l.inflight {
      OutsDropped(l, received, letter);
    } else {
      OutsRouted(l, l.inflight[frame.id], received, letter);
    }
  }

  lemma OutsRouted(l: C.Link, k: nat, received: seq<D.Letter<Frame>>, letter: D.Letter<Frame>)
    requires C.Good(l) && OutsOk(l, received) && Follows(l, received, letter)
    requires k < |l.calls| && Bears(letter.text, l.calls[k].id) && C.InFlight(l, k)
    ensures OutsOk(C.Apply(l, k, CC.OnFrame(l.calls[k], letter.text, letter.size, l.mark)), received + [letter])
  {
    var c := l.calls[k];
    var sent := C.FramesFor(l.log, c.id);
    ForSnoc(received, letter, c.id);
    FrameOut(c, sent, For(received, c.id), letter.text, letter.size, l.mark);
    CC.FrameOk(c, sent, letter.text, letter.size, l.mark, l.open);
    forall j | 0 <= j < |l.calls| && j != k ensures OutOk(l.calls[j], For(received + [letter], l.calls[j].id)) {
      C.DistinctIds(l, j, k);
      SkipsOne(l, j, received, letter);
    }
    OutsApply(l, k, CC.OnFrame(c, letter.text, letter.size, l.mark), received + [letter]);
  }

  // ---- The server ----

  /** No id was given to two instances, each had its `call` frame, and nobody else answered. */
  ghost predicate Unshared(m: V.Mux, received: seq<D.Letter<Frame>>) {
    && (forall j, k :: 0 <= j < k < |m.calls| ==> m.calls[j].id != m.calls[k].id)
    && (forall k :: 0 <= k < |m.calls| ==> For(received, m.calls[k].id) != [])
    && (forall i :: 0 <= i < |m.log| ==> m.log[i].from.ByCall?)
  }

  /** Every handler's input iterator against the frames received for its id. */
  ghost predicate InsOk(m: V.Mux, received: seq<D.Letter<Frame>>) {
    forall k :: 0 <= k < |m.calls| ==> InOk(m.calls[k], V.InFlight(m, k), For(received, m.calls[k].id))
  }

  /** Calls may change and leave, but none joins and none hears anything. */
  ghost predicate Quieter(m: V.Mux, r: V.Mux) {
    && |r.calls| == |m.calls|
    && (forall k :: 0 <= k < |m.calls| ==> r.calls[k].id == m.calls[k].id)
    && (forall k :: 0 <= k < |m.calls| ==> SameIn(m.calls[k], r.calls[k]))
    && (forall k :: 0 <= k < |m.calls| && V.InFlight(r, k) ==> V.InFlight(m, k))
    && (forall i :: 0 <= i < |r.log| && r.log[i].from.ByRouter? ==> i < |m.log| && m.log[i].from.ByRouter?)
  }

  lemma QuieterOk(m: V.Mux, r: V.Mux, received: seq<D.Letter<Frame>>)
    requires Unshared(m, received) && InsOk(m, received) && Quieter(m, r)
    ensures Unshared(r, received) && InsOk(r, received)
  {
    forall k | 0 <= k < |r.calls| ensures InOk(r.calls[k], V.InFlight(r, k), For(received, r.calls[k].id)) {
      SameInOk(m.calls[k], r.calls[k], V.InFlight(m, k), V.InFlight(r, k), For(received, m.calls[k].id));
    }
  }

  lemma CloseQuieter(m: V.Mux)
    ensures Quieter(m, V.Close(m))
  {
    var r := V.Close(m);
    forall k | 0 <= k < |m.calls| ensures SameIn(m.calls[k], r.calls[k]) && r.calls[k].id == m.calls[k].id {
      CancelSameIn(m.calls[k]);
    }
  }

  lemma UpdateQuieter(m: V.Mux, k: nat, c: SC.CallState)
    requires k < |m.calls| && c.id == m.calls[k].id && SameIn(m.calls[k], c)
    ensures Quieter(m, V.Update(m, k, c))
  {
  }

  lemma QuieterTwice(m: V.Mux, r: V.Mux, s: V.Mux)
    requires Quieter(m, r) && Quieter(r, s)
    ensures Quieter(m, s)
  {
  }

  lemma ApplyQuieter(m: V.Mux, k: nat, e: SC.Effect)
    requires k < |m.calls| && e.call.id == m.calls[k].id && SameIn(m.calls[k], e.call)
    ensures Quieter(m, V.Apply(m, k, e))
  {
    var r := V.Apply(m, k, e.(close := false));
    assert Quieter(m, r);
    CloseQuieter(r);
    QuieterTwice(m, r, V.Close(r));
  }

  /** An event of the server's own leaves what its handlers were given. */
  lemma StepQuieter(m: V.Mux, e: V.Event)
    requires V.Good(m) && !e.Arrives? && !e.ArrivesInvalid?
    ensures Quieter(m, V.Step(m, e))
  {
    match e
    case Proceeds(k, event, first, second) =>
      if k < |m.calls| {
        var net := SC.Net(m.open, first, second, m.reports);
        V.CallStepOk(m.calls[k], V.FramesBy(m.log, k), event, net);
        EffectSameIn(m.calls[k], V.FramesBy(m.log, k), V.CallStep(m.calls[k], event, net), m.open);
        ApplyQuieter(m, k, V.CallStep(m.calls[k], event, net));
      }
    case Consumes(k) =>
      if k < |m.calls| {
        PullSameIn(m.calls[k]);
        UpdateQuieter(m, k, SC.PullInput(m.calls[k]));
      }
    case Closes => CloseQuieter(m);
  }

  /** What a client puts on the wire. */
  predicate FromClient(frame: Frame) {
    IsHello(frame) || (CC.AddressedTo(frame, frame.id) && frame.id != "")
  }

  /** The letters received so far, and one more, keep to the client's language. */
  ghost predicate Obeys(received: seq<D.Letter<Frame>>, letter: D.Letter<Frame>) {
    FromClient(letter.text) && forall id :: CC.Legal(For(received + [letter], id))
  }

  lemma GrowsFor(received: seq<D.Letter<Frame>>, letter: D.Letter<Frame>, id: string)
    ensures For(received, id) != [] ==> For(received + [letter], id) != []
  {
    ForSnoc(received, letter, id);
  }

  lemma UnsharedGrows(m: V.Mux, received: seq<D.Letter<Frame>>, letter: D.Letter<Frame>)
    requires Unshared(m, received)
    ensures Unshared(m, received + [letter])
  {
    forall k | 0 <= k < |m.calls| ensures For(received + [letter], m.calls[k].id) != [] {
      GrowsFor(received, letter, m.calls[k].id);
    }
  }

  lemma InsSkipOne(m: V.Mux, k: nat, received: seq<D.Letter<Frame>>, letter: D.Letter<Frame>)
    requires InsOk(m, received) && Obeys(received, letter) && k < |m.calls|
    requires V.InFlight(m, k) && Bears(letter.text, m.calls[k].id) ==> !letter.text.InItem?
    ensures InOk(m.calls[k], V.InFlight(m, k), For(received + [letter], m.calls[k].id))
  {
    var id := m.calls[k].id;
    ForSnoc(received, letter, id);
    if Bears(letter.text, id) {
      SkippedFrameIn(m.calls[k], V.InFlight(m, k), For(received, id), letter.text);
    } else {
      assert For(received, id) + [] == For(received, id);
    }
  }

  /** A letter that the server does not act on. */
  lemma InsSkip(m: V.Mux, received: seq<D.Letter<Frame>>, letter: D.Letter<Frame>)
    requires V.Good(m) && Unshared(m, received) && InsOk(m, received) && Obeys(received, letter)
    requires m.open && m.calls != [] && !IsHello(letter.text) ==> !letter.text.InItem? || letter.text.id !in m.inflight
    ensures Unshared(m, received + [letter]) && InsOk(m, received + [letter])
  {
    UnsharedGrows(m, received, letter);
    forall k | 0 <= k < |m.calls| ensures InOk(m.calls[k], V.InFlight(m, k), For(received + [letter], m.calls[k].id)) {
      InsSkipOne(m, k, received, letter);
    }
  }

  /** A `call` frame is the first of its id, so its id is new. */
  lemma CallIsFirst(m: V.Mux, received: seq<D.Letter<Frame>>, letter: D.Letter<Frame>)
    requires V.Good(m) && Unshared(m, received) && Obeys(received, letter) && letter.text.Call?
    ensures For(received + [letter], letter.text.id) == [letter.text]
    ensures letter.text.id !in m.inflight && forall k :: 0 <= k < |m.calls| ==> m.calls[k].id != letter.text.id
  {
    var id := letter.text.id;
    var frames := For(received + [letter], id);
    ForSnoc(received, letter, id);
    assert CC.Legal(frames);
    assert frames[|frames| - 1] == letter.text;
    assert For(received, id) == [];
    assert frames == [letter.text];
  }

  lemma NewCallIn(call: Frame, mark: Option<nat>, inflight: bool)
    requires call.Call?
    ensures InOk(SC.Fresh(Normal(call), mark), inflight, [call])
  {
    CC.InItemsSnoc([], call);
    assert [] + [call] == [call];
  }

  /** The server once a new call has been accepted. */
  function Joined(m: V.Mux, c: SC.CallState): V.Mux {
    m.(calls := m.calls + [c], inflight := m.inflight[c.id := |m.calls|])
  }

  lemma JoinedUnshared(m: V.Mux, c: SC.CallState, received: seq<D.Letter<Frame>>)
    requires Unshared(m, received) && For(received, c.id) != []
    requires forall k :: 0 <= k < |m.calls| ==> m.calls[k].id != c.id
    ensures Unshared(Joined(m, c), received)
  {
  }

  lemma JoinedInFlight(m: V.Mux, c: SC.CallState, k: nat)
    requires k < |m.calls| && m.calls[k].id != c.id
    ensures Joined(m, c).calls[k] == m.calls[k] && (V.InFlight(Joined(m, c), k) <==> V.InFlight(m, k))
  {
  }

  lemma CallJoins(m: V.Mux, c: SC.CallState, received: seq<D.Letter<Frame>>)
    requires Unshared(m, received) && InsOk(m, received)
    requires For(received, c.id) != [] && InOk(c, true, For(received, c.id))
    requires forall k :: 0 <= k < |m.calls| ==> m.calls[k].id != c.id
    ensures Unshared(Joined(m, c), received) && InsOk(Joined(m, c), received)
  {
    var r := Joined(m, c);
    JoinedUnshared(m, c, received);
    forall k | 0 <= k < |r.calls| ensures InOk(r.calls[k], V.InFlight(r, k), For(received, r.calls[k].id)) {
      if k < |m.calls| {
        JoinedInFlight(m, c, k);
      } else {
        assert r.calls[k] == c && V.InFlight(r, k);
      }
    }
  }

  lemma UnsharedUpdate(m: V.Mux, k: nat, c: SC.CallState, received: seq<D.Letter<Frame>>)
    requires Unshared(m, received) && k < |m.calls| && c.id == m.calls[k].id
    ensures Unshared(V.Update(m, k, c), received)
  {
  }

  lemma InsCall(m: V.Mux, received: seq<D.Letter<Frame>>, letter: D.Letter<Frame>)
    requires V.Good(m) && Unshared(m, received) && InsOk(m, received) && Obeys(received, letter) && letter.text.Call?
    ensures var r := V.StartCall(m, Normal(letter.text));
            Unshared(r, received + [letter]) && InsOk(r, received + [letter])
  {
    var c := SC.Fresh(Normal(letter.text), m.mark);
    CallIsFirst(m, received, letter);
    InsSkip(m, received, letter);
    NewCallIn(letter.text, m.mark, true);
    CallJoins(m, c, received + [letter]);
  }

  lemma HeardAt(m: V.Mux, k: nat, received: seq<D.Letter<Frame>>, letter: D.Letter<Frame>)
    requires V.Good(m) && InsOk(m, received) && Obeys(received, letter) && k < |m.calls| && V.InFlight(m, k)
    requires (letter.text.InItem? || letter.text.InDone?) && letter.text.id == m.calls[k].id
    ensures var c := SC.PushInput(m.calls[k], letter.text, letter.size);
            c.id == m.calls[k].id && InOk(c, true, For(received + [letter], c.id))
  {
    var id := m.calls[k].id;
    ForSnoc(received, letter, id);
    InputFrameIn(m.calls[k], For(received, id), letter.text, letter.size);
  }

  lemma InsHeard(m: V.Mux, k: nat, received: seq<D.Letter<Frame>>, letter: D.Letter<Frame>)
    requires V.Good(m) && InsOk(m, received) && Obeys(received, letter) && k < |m.calls| && V.InFlight(m, k)
    requires forall i, j :: 0 <= i < j < |m.calls| ==> m.calls[i].id != m.calls[j].id
    requires (letter.text.InItem? || letter.text.InDone?) && letter.text.id == m.calls[k].id
    ensures InsOk(V.Update(m, k, SC.PushInput(m.calls[k], letter.text, letter.size)), received + [letter])
  {
    var r := V.Update(m, k, SC.PushInput(m.calls[k], letter.text, letter.size));
    HeardAt(m, k, received, letter);
    forall j | 0 <= j < |r.calls| ensures InOk(r.calls[j], V.InFlight(r, j), For(received + [letter], r.calls[j].id)) {
      if j != k {
        InsSkipOne(m, j, received, letter);
        assert r.calls[j] == m.calls[j];
      }
    }
  }

  lemma InsInput(m: V.Mux, received: seq<D.Letter<Frame>>, letter: D.Letter<Frame>)
    requires V.Good(m) && Unshared(m, received) && InsOk(m, received) && Obeys(received, letter)
    requires letter.text.InItem? || letter.text.InDone?
    ensures var r := V.OnInput(m, letter.text, letter.size);
            Unshared(r, received + [letter]) && InsOk(r, received + [letter])
  {
    var id := letter.text.id;
    if id !in m.inflight {
      InsSkip(m, received, letter);
    } else {
      UnsharedGrows(m, received, letter);
      UnsharedUpdate(m, m.inflight[id], SC.PushInput(m.calls[m.inflight[id]], letter.text, letter.size), received + [letter]);
      InsHeard(m, m.inflight[id], received, letter);
    }
  }

  lemma CancelQuieter(m: V.Mux, id: string)
    ensures Quieter(m, V.OnCancel(m, id))
  {
    if id in m.inflight && m.inflight[id] < |m.calls| {
      CancelSameIn(m.calls[m.inflight[id]]);
    }
  }

  /** A letter that the server routes. */
  lemma InsArrive(m: V.Mux, received: seq<D.Letter<Frame>>, letter: D.Letter<Frame>, fate: S.Fate)
    requires V.Good(m) && m.open && Unshared(m, received) && InsOk(m, received) && Obeys(received, letter)
    ensures var r := V.Step(m, V.Arrives(Normal(letter.text), letter.size, fate));
            Unshared(r, received + [letter]) && InsOk(r, received + [letter])
  {
    var frame := letter.text;
    if frame.Call? {
      InsCall(m, received, letter);
    } else if frame.InItem? || frame.InDone? {
      InsInput(m, received, letter);
    } else {
      InsSkip(m, received, letter);
      if frame.Cancel? {
        CancelQuieter(m, frame.id);
        QuieterOk(m, V.OnCancel(m, frame.id), received + [letter]);
      } else {
        CloseQuieter(m);
        QuieterOk(m, V.Close(m), received + [letter]);
      }
    }
  }

  // ---- One id, one instance ----

  /** A logged frame is among the frames of the call that sent it. */
  lemma {:induction false} LoggedByIts(log: seq<V.Outgoing>, i: nat)
    requires i < |log| && log[i].from.ByCall?
    ensures log[i].frame in V.FramesBy(log, log[i].from.call)
  {
    if i < |log| - 1 {
      LoggedByIts(log[..|log| - 1], i);
    }
  }

  /** Every frame the server sent bears the id of the instance that sent it. */
  ghost predicate Labelled(m: V.Mux, log: seq<V.Outgoing>) {
    forall i :: 0 <= i < |log| ==>
      log[i].from.ByCall? && log[i].from.call < |m.calls| && Bears(log[i].frame, m.calls[log[i].from.call].id)
  }

  lemma LogLabelled(m: V.Mux, received: seq<D.Letter<Frame>>)
    requires V.Good(m) && Unshared(m, received)
    ensures Labelled(m, m.log)
  {
    forall i | 0 <= i < |m.log|
      ensures m.log[i].from.call < |m.calls| && Bears(m.log[i].frame, m.calls[m.log[i].from.call].id)
    {
      var k := m.log[i].from.call;
      LoggedByIts(m.log, i);
      assert SC.CallOk(m.calls[k], V.FramesBy(m.log, k));
      assert forall j :: 0 <= j < |V.FramesBy(m.log, k)| ==>
        V.FramesBy(m.log, k)[j].id == m.calls[k].id && (V.FramesBy(m.log, k)[j].Item? || SC.Terminal(V.FramesBy(m.log, k)[j]));
    }
  }

  lemma FramesSnoc(log: seq<V.Outgoing>)
    requires log != []
    ensures Frames(log)[..|log| - 1] == Frames(log[..|log| - 1]) && Frames(log)[|log| - 1] == log[|log| - 1].frame
  {
  }

  /** The frames sent for an instance's id are the frames that instance sent. */
  lemma {:induction false} OnlyItsOwn(m: V.Mux, log: seq<V.Outgoing>, k: nat)
    requires Labelled(m, log) && k < |m.calls|
    requires forall i, j :: 0 <= i < j < |m.calls| ==> m.calls[i].id != m.calls[j].id
    ensures Of(Frames(log), m.calls[k].id) == V.FramesBy(log, k)
  {
    if log != [] {
      FramesSnoc(log);
      OnlyItsOwn(m, log[..|log| - 1], k);
    }
  }

  /** Nothing is sent for an id without an instance. */
  lemma {:induction false} NobodysOwn(m: V.Mux, log: seq<V.Outgoing>, id: string)
    requires Labelled(m, log) && forall k :: 0 <= k < |m.calls| ==> m.calls[k].id != id
    ensures Of(Frames(log), id) == []
  {
    if log != [] {
      FramesSnoc(log);
      NobodysOwn(m, log[..|log| - 1], id);
    }
  }

  /** The frames on the wire for an id are legal, whoever it belongs to. */
  lemma SentIsLegal(m: V.Mux, received: seq<D.Letter<Frame>>, id: string)
    requires V.Good(m) && Unshared(m, received)
    ensures SC.Legal(Of(Frames(m.log), id))
    ensures Of(Frames(m.log), id) != [] ==> exists k :: 0 <= k < |m.calls| && m.calls[k].id == id
  {
    LogLabelled(m, received);
    if k :| 0 <= k < |m.calls| && m.calls[k].id == id {
      OnlyItsOwn(m, m.log, k);
      assert SC.CallOk(m.calls[k], V.FramesBy(m.log, k));
    } else {
      NobodysOwn(m, m.log, id);
    }
  }

  /** The client's log, seen as the wire sees it. */
  lemma {:induction false} SameFrames(log: seq<Frame>, id: string)
    requires forall i :: 0 <= i < |log| ==> FromClient(log[i]) && !IsHello(log[i])
    ensures Of(log, id) == C.FramesFor(log, id)
  {
    if log != [] {
      SameFrames(log[..|log| - 1], id);
    }
  }

  lemma KnownIsFromClient(l: C.Link)
    requires C.Numbered(l)
    ensures forall i :: 0 <= i < |l.log| ==> FromClient(l.log[i]) && !IsHello(l.log[i])
  {
    forall i | 0 <= i < |l.log| ensures FromClient(l.log[i]) && !IsHello(l.log[i]) {
      assert C.Known(l.calls, l.log[i]);
      var k :| 0 <= k < |l.calls| && CC.AddressedTo(l.log[i], l.calls[k].id);
      NumberOfDecimal(k + 1);
    }
  }

  /** The client's frames for an id are legal, and there are none for an id it has not given out. */
  lemma SpokenIsLegal(l: C.Link, id: string)
    requires C.Good(l)
    ensures Of(l.log, id) == C.FramesFor(l.log, id) && CC.Legal(Of(l.log, id))
    ensures (forall k :: 0 <= k < |l.calls| ==> l.calls[k].id != id) ==> Of(l.log, id) == []
  {
    KnownIsFromClient(l);
    SameFrames(l.log, id);
    if k :| 0 <= k < |l.calls| && l.calls[k].id == id {
      assert CC.CallOk(l.calls[k], C.FramesFor(l.log, id));
    } else {
      forall i | 0 <= i < |l.log| ensures !CC.AddressedTo(l.log[i], id) {
        assert C.Known(l.calls, l.log[i]);
      }
      C.NoFramesYet(l.log, id);
    }
  }
}
