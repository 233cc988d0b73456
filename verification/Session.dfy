/**
 * One connection's hello handshake and lifecycle, over any duplex.
 *
 * `Session` is the session as a value; its `trace` lists what the outside has
 * seen of it. Every stretch of code between two awaits is one function. The
 * accept of a hello is suspended while `onHello` runs; `accept` holds the
 * generation it captured.
 */
module Sessions {
  import opened Basics
  import opened FrameCodec

  datatype Role = ClientRole | ServerRole
  datatype Phase = WaitingHello | Ready | Shut
  datatype Promise = Pending | Resolved | Failed

  /** One inbound text: over the size limit, not JSON, or a JSON value. */
  datatype Text = Oversize | Unparseable | Parsed(value: Json)

  /** What becomes of one outbound frame; `above` is the duplex's drain promise. */
  datatype Fate = Sent(above: bool) | TooLarge | Unserializable | Thrown

  datatype SendOutcome = SentOk(above: bool) | NotSent(reason: Refusal)
  datatype Refusal = OversizeFrame | UnencodableFrame | ClosedSession

  /** What the session hands to its owner for one inbound text. */
  datatype Delivery = Nothing | Deliver(frame: Frame) | Invalid(id: string)

  datatype Seen =
    | BecameReady
    | BecameClosed
    | Transmitted(frame: Frame)
    | HandedUp(frame: Frame)
    | HandedInvalid(id: string)
    | ClosedDuplex
    | NotifiedClose
    | ReadyResolved
    | ReadyRejected

  datatype Session = Session(
    role: Role,
    phase: Phase,
    ready: Promise,
    helloInFlight: bool,
    generation: nat,
    accept: Option<nat>,
    closeNotified: bool,
    timer: bool,
    drains: set<nat>,
    settledDrains: set<nat>,
    nextDrain: nat,
    trace: Trace)

  /** What has been seen, oldest first. */
  datatype Trace = Start | Then(past: Trace, seen: Seen)

  // ---- The outside's view of a trace ----

  /** A summary of a trace; `bad` once the trace has broken a rule of the lifecycle. */
  datatype View = View(
    phase: Phase,
    reachedReady: bool,
    settledReady: Promise,
    notified: bool,
    saidHelloOk: bool,
    bad: bool)

  function Advance(v: View, seen: Seen): View {
    match seen
    case BecameReady => v.(phase := Ready, reachedReady := true, bad := v.bad || !v.phase.WaitingHello?)
    case BecameClosed => v.(phase := Shut, bad := v.bad || v.phase.Shut?)
    case Transmitted(frame) =>
      v.(saidHelloOk := v.saidHelloOk || frame.HelloOk?,
         bad := v.bad || v.phase.Shut? || (frame.HelloOk? && (v.saidHelloOk || !v.phase.WaitingHello?)))
    case HandedUp(_) => v.(bad := v.bad || !v.phase.Ready?)
    case HandedInvalid(_) => v.(bad := v.bad || !v.phase.Ready?)
    case ClosedDuplex => v.(bad := v.bad || !v.phase.Shut?)
    case NotifiedClose => v.(notified := true, bad := v.bad || v.notified || !v.phase.Shut?)
    case ReadyResolved =>
      v.(settledReady := Resolved, bad := v.bad || !v.settledReady.Pending? || !v.phase.Ready?)
    case ReadyRejected =>
      v.(settledReady := Failed, bad := v.bad || !v.settledReady.Pending? || v.reachedReady)
  }

  function ViewOf(trace: Trace): View {
    match trace
    case Start => View(WaitingHello, false, Pending, false, false, false)
    case Then(past, seen) => Advance(ViewOf(past), seen)
  }

  function See(s: Session, seen: Seen): (r: Session)
    ensures ViewOf(r.trace) == Advance(ViewOf(s.trace), seen)
  {
    s.(trace := Then(s.trace, seen))
  }

  // ---- The code between awaits ----

  function FailReady(s: Session): Session {
    if !s.ready.Pending? then s else See(s.(ready := Failed), ReadyRejected)
  }

  function SucceedReady(s: Session): Session {
    if !s.ready.Pending? then s else See(s.(ready := Resolved), ReadyResolved)
  }

  function EnterClosed(s: Session): Session {
    See(s.(phase := Shut,
           generation := s.generation + 1,
           timer := false,
           drains := {},
           settledDrains := s.settledDrains + s.drains),
        BecameClosed)
  }

  function NotifyOnClose(s: Session): Session {
    if s.closeNotified then s else See(s.(closeNotified := true), NotifiedClose)
  }

  function Close(s: Session): Session {
    if s.phase.Shut? then s else NotifyOnClose(See(FailReady(EnterClosed(s)), ClosedDuplex))
  }

  function OnDuplexClose(s: Session): Session {
    if s.phase.Shut? then NotifyOnClose(s) else NotifyOnClose(FailReady(EnterClosed(s)))
  }

  /** `reentrant`: the duplex called its close handlers from inside `send`. */
  function Send(s: Session, frame: Frame, fate: Fate, reentrant: bool): (Session, SendOutcome) {
    if s.phase.Shut? then (s, NotSent(ClosedSession))
    else
      match fate
      case Unserializable => (s, NotSent(UnencodableFrame))
      case TooLarge => (s, NotSent(OversizeFrame))
      case Thrown => (Close(if reentrant then OnDuplexClose(s) else s), NotSent(ClosedSession))
      case Sent(above) =>
        var s1 := See(s, Transmitted(frame));
        (UntilDrainedOrClosed(if reentrant then OnDuplexClose(s1) else s1, above), SentOk(above))
  }

  /** The duplex is above its mark: remember the drain promise it returned. */
  function UntilDrainedOrClosed(s: Session, above: bool): Session {
    if above then s.(drains := s.drains + {s.nextDrain}, nextDrain := s.nextDrain + 1) else s
  }

  /** A session before it has said or heard anything. */
  function Idle(role: Role, timer: bool): Session {
    Session(role, WaitingHello, Pending, false, 0, None, false, timer, {}, {}, 0, Trace.Start)
  }

  function Begin(role: Role, timer: bool, meta: Payload, fate: Fate, reentrant: bool): Session {
    var s := Idle(role, timer);
    if role.ServerRole? then s
    else
      var (s1, sent) := Send(s, Hello(meta), fate, reentrant);
      if sent.SentOk? then s1 else Close(FailReady(s1))
  }

  function OnHelloTimeout(s: Session): Session {
    if !s.timer || !s.phase.WaitingHello? then s else Close(FailReady(s))
  }

  function OnInbound(s: Session, text: Text, fate: Fate, reentrant: bool): (Session, Delivery) {
    if s.phase.Shut? then (s, Nothing)
    else if text.Oversize? then (Close(FailReady(s)), Nothing)
    else if s.phase.WaitingHello? then (Handshake(s, text, fate, reentrant), Nothing)
    else ReadyMessage(s, text)
  }

  function Handshake(s: Session, text: Text, fate: Fate, reentrant: bool): Session {
    if !text.Parsed? || !text.value.Obj? then Close(if s.role.ClientRole? then FailReady(s) else s)
    else if s.role.ClientRole? then ClientHandshake(s, DecodeFrame(text.value))
    else ServerHandshake(s, text.value.fields, DecodeFrame(text.value), fate, reentrant)
  }

  function ClientHandshake(s: Session, decoded: DecodeResult): Session {
    if decoded.Accepted? && decoded.frame.HelloOk?
    then SucceedReady(See(s.(phase := Ready, timer := false), BecameReady))
    else Close(FailReady(s))
  }

  function Complaint(fields: map<string, Json>): string {
    if Get(fields, "type") != Some(Str("hello")) then "Expected hello"
    else if "v" in fields && fields["v"].Num? && fields["v"].n != PROTOCOL_MAJOR then "Unsupported protocol version"
    else "Invalid hello"
  }

  /** A first hello of this version. */
  predicate Welcome(s: Session, decoded: DecodeResult) {
    decoded.Accepted? && decoded.frame.Hello? && !s.helloInFlight
  }

  function ServerHandshake(s: Session, fields: map<string, Json>, decoded: DecodeResult, fate: Fate, reentrant: bool): Session {
    if Welcome(s, decoded)
    then s.(helloInFlight := true, accept := Some(s.generation))
    else FailHandshake(s, WireError("BAD_REQUEST", Complaint(fields), None), fate, reentrant)
  }

  function FailHandshake(s: Session, error: WireError, fate: Fate, reentrant: bool): Session {
    if s.phase.Shut? then s else Close(Send(FailReady(s), HelloError(error), fate, reentrant).0)
  }

  /** `onHello` has settled: the suspended accept goes on. */
  function OnHelloSettled(s: Session, ok: bool, fate: Fate, reentrant: bool): Session {
    if s.accept.None? then s
    else
      var s0 := s.(accept := None);
      if s.phase.Shut? || s.accept.value != s.generation then s0
      else if !ok then FailHandshake(s0, WireError("INTERNAL", "Internal server error", None), fate, reentrant)
      else
        var (s1, sent) := Send(s0, HelloOk, fate, reentrant);
        if !sent.SentOk? then Close(FailReady(s1))
        else SucceedReady(See(s1.(phase := Ready, timer := false, helloInFlight := false), BecameReady))
  }

  function ReadyMessage(s: Session, text: Text): (Session, Delivery) {
    if !text.Parsed? || !text.value.Obj? then (Close(s), Nothing)
    else
      match DecodeFrame(text.value)
      case Accepted(frame) => (See(s, HandedUp(frame)), Deliver(frame))
      case Rejected(id, _) =>
        if id.None? then (Close(s), Nothing) else (See(s, HandedInvalid(id.value)), Invalid(id.value))
  }

  /** The duplex's drain promise settled; a rejection is a transport failure. */
  function OnDrain(s: Session, drain: nat, ok: bool): Session {
    var s1 := if ok then s else Close(s);
    if drain !in s1.drains then s1 else s1.(drains := s1.drains - {drain}, settledDrains := s1.settledDrains + {drain})
  }

  // ---- All runs ----

  datatype Event =
    | Inbound(text: Text, fate: Fate, reentrant: bool)
    | DuplexCloses
    | TimerFires
    | HelloSettles(ok: bool, fate: Fate, reentrant: bool)
    | OwnerSends(frame: Frame, fate: Fate, reentrant: bool)
    | OwnerCloses
    | DrainSettles(drain: nat, ok: bool)

  /** The owner speaks only call frames; hello frames are the session's own. */
  function Step(s: Session, e: Event): Session {
    match e
    case Inbound(text, fate, reentrant) => OnInbound(s, text, fate, reentrant).0
    case DuplexCloses => OnDuplexClose(s)
    case TimerFires => OnHelloTimeout(s)
    case HelloSettles(ok, fate, reentrant) => OnHelloSettled(s, ok, fate, reentrant)
    case OwnerSends(frame, fate, reentrant) => if frame.HelloOk? then s else Send(s, frame, fate, reentrant).0
    case OwnerCloses => Close(s)
    case DrainSettles(drain, ok) => OnDrain(s, drain, ok)
  }

  function Run(s: Session, events: seq<Event>): Session
    decreases |events|
  {
    if events == [] then s else Run(Step(s, events[0]), events[1..])
  }

  /** The duplex does not run its close handlers from inside the sends of this step. */
  predicate Calm(e: Event) {
    (e.HelloSettles? || e.OwnerSends? || e.Inbound?) ==> !e.reentrant
  }

  /** The lifecycle half of the invariant; `ready` may already have failed on the way to closing. */
  ghost predicate Lively(s: Session) {
    var v := ViewOf(s.trace);
    && !v.bad
    && v.phase == s.phase
    && v.settledReady == s.ready
    && v.notified == s.closeNotified
    && (s.closeNotified <==> s.phase.Shut?)
    && (s.ready.Resolved? <==> v.reachedReady)
    && (s.phase.WaitingHello? ==> !s.ready.Resolved?)
    && (s.phase.Ready? ==> s.ready.Resolved?)
    && (s.phase.Shut? ==> !s.ready.Pending?)
    // hello-ok belongs to the step that becomes ready
    && (v.saidHelloOk ==> s.role.ServerRole? && v.reachedReady)
    // a suspended accept belongs to the present generation unless the session is closed
    && (s.accept.Some? ==> s.helloInFlight && (s.phase.Shut? || s.accept.value == s.generation))
    && (s.phase.Ready? ==> s.accept.None?)
    && (s.role.ClientRole? ==> s.accept.None?)
  }

  /** Every drain promise is pending or settled once, and none outlives the session. */
  ghost predicate Drained(s: Session) {
    && (s.phase.Shut? ==> s.drains == {})
    && s.settledDrains !! s.drains
    && (forall d: nat :: d in s.settledDrains + s.drains <==> d < s.nextDrain)
  }

  ghost predicate Good(s: Session) {
    Lively(s) && Drained(s) && (s.phase.WaitingHello? ==> s.ready.Pending?)
  }

  lemma FailReadyLively(s: Session)
    requires Lively(s)
    ensures Lively(FailReady(s))
  {
  }

  lemma CloseLively(s: Session)
    requires Lively(s)
    ensures Lively(Close(s)) && Close(s).phase.Shut?
    ensures Lively(OnDuplexClose(s)) && OnDuplexClose(s).phase.Shut?
  {
  }

  lemma SendLively(s: Session, frame: Frame, fate: Fate)
    requires Lively(s) && !frame.HelloOk?
    ensures Lively(Send(s, frame, fate, false).0)
  {
    CloseLively(s);
  }

  lemma CloseDrained(s: Session)
    requires Drained(s)
    ensures Drained(Close(s)) && Drained(OnDuplexClose(s))
  {
  }

  lemma SendDrained(s: Session, frame: Frame, fate: Fate)
    requires Drained(s)
    ensures Drained(Send(s, frame, fate, false).0)
  {
    CloseDrained(s);
    if !s.phase.Shut? && fate == Sent(true) {
      var r := Send(s, frame, fate, false).0;
      assert r.settledDrains + r.drains == (s.settledDrains + s.drains) + {s.nextDrain};
    }
  }

  lemma CloseKeeps(s: Session)
    requires Lively(s) && Drained(s)
    ensures Good(Close(s)) && Close(s).phase.Shut?
    ensures Good(OnDuplexClose(s)) && OnDuplexClose(s).phase.Shut?
  {
    CloseLively(s);
    CloseDrained(s);
  }

  lemma SendKeeps(s: Session, frame: Frame, fate: Fate)
    requires Good(s) && !frame.HelloOk?
    ensures Good(Send(s, frame, fate, false).0)
  {
    SendLively(s, frame, fate);
    SendDrained(s, frame, fate);
    if fate.Thrown? {
      CloseKeeps(s);
    }
  }

  lemma BeginIsGood(role: Role, timer: bool, meta: Payload, fate: Fate)
    ensures Good(Begin(role, timer, meta, fate, false))
  {
    var s := Idle(role, timer);
    assert Good(s);
    SendKeeps(s, Hello(meta), fate);
    var s1 := Send(s, Hello(meta), fate, false).0;
    FailReadyLively(s1);
    CloseKeeps(FailReady(s1));
  }

  lemma FailHandshakeKeeps(s: Session, error: WireError, fate: Fate)
    requires Good(s)
    ensures Good(FailHandshake(s, error, fate, false))
  {
    if !s.phase.Shut? {
      FailReadyLively(s);
      SendLively(FailReady(s), HelloError(error), fate);
      SendDrained(FailReady(s), HelloError(error), fate);
      CloseKeeps(Send(FailReady(s), HelloError(error), fate, false).0);
    }
  }

  lemma FailKeeps(s: Session)
    requires Good(s)
    ensures Good(Close(s)) && Good(Close(FailReady(s)))
  {
    CloseKeeps(s);
    FailReadyLively(s);
    CloseKeeps(FailReady(s));
  }

  lemma ClientHandshakeKeeps(s: Session, decoded: DecodeResult)
    requires Good(s) && s.phase.WaitingHello? && s.role.ClientRole?
    ensures Good(ClientHandshake(s, decoded))
  {
    FailKeeps(s);
  }

  lemma HandshakeKeeps(s: Session, text: Text, fate: Fate)
    requires Good(s) && s.phase.WaitingHello?
    ensures Good(Handshake(s, text, fate, false))
  {
    FailKeeps(s);
    if text.Parsed? && text.value.Obj? {
      var decoded := DecodeFrame(text.value);
      if s.role.ClientRole? {
        ClientHandshakeKeeps(s, decoded);
      } else {
        FailHandshakeKeeps(s, WireError("BAD_REQUEST", Complaint(text.value.fields), None), fate);
      }
    }
  }

  lemma InboundKeeps(s: Session, text: Text, fate: Fate)
    requires Good(s)
    ensures Good(OnInbound(s, text, fate, false).0)
  {
    FailKeeps(s);
    if s.phase.WaitingHello? {
      HandshakeKeeps(s, text, fate);
    }
  }

  lemma BecomeReadyKeeps(s: Session, above: bool)
    requires Good(s) && s.phase.WaitingHello? && s.role.ServerRole? && s.accept.None?
    ensures var s1 := Send(s, HelloOk, Sent(above), false).0;
            Good(SucceedReady(See(s1.(phase := Ready, timer := false, helloInFlight := false), BecameReady)))
  {
    SendDrained(s, HelloOk, Sent(above));
  }

  lemma AcceptKeeps(s: Session, ok: bool, fate: Fate)
    requires Good(s)
    ensures Good(OnHelloSettled(s, ok, fate, false))
  {
    if s.accept.Some? {
      var s0 := s.(accept := None);
      assert Good(s0);
      if s.phase.WaitingHello? {
        match fate
        case Sent(above) =>
          BecomeReadyKeeps(s0, above);
        case _ =>
          FailKeeps(s0);
          assert FailReady(Close(s0)) == Close(s0);
      }
      FailHandshakeKeeps(s0, WireError("INTERNAL", "Internal server error", None), fate);
    }
  }

  lemma StepKeeps(s: Session, e: Event)
    requires Good(s) && Calm(e)
    ensures Good(Step(s, e))
  {
    CloseKeeps(s);
    match e
    case Inbound(text, fate, _) => InboundKeeps(s, text, fate);
    case DuplexCloses =>
    case TimerFires =>
      FailReadyLively(s);
      CloseKeeps(FailReady(s));
    case HelloSettles(ok, fate, _) => AcceptKeeps(s, ok, fate);
    case OwnerSends(frame, fate, _) => if !frame.HelloOk? { SendKeeps(s, frame, fate); }
    case OwnerCloses =>
    case DrainSettles(drain, ok) =>
  }

  // ---- What a trace that breaks no rule looks like ----

  function Listed(trace: Trace): seq<Seen> {
    match trace
    case Start => []
    case Then(past, seen) => Listed(past) + [seen]
  }

  /** Something satisfying `p` has been seen. */
  ghost predicate Happened(l: seq<Seen>, p: Seen -> bool) {
    exists i :: 0 <= i < |l| && p(l[i])
  }

  /** Whatever comes after a `p` satisfies `q`. */
  ghost predicate After(l: seq<Seen>, p: Seen -> bool, q: Seen -> bool) {
    forall i, j :: 0 <= i < j < |l| && p(l[i]) ==> q(l[j])
  }

  /** Every `p` has a `q` before it. */
  ghost predicate Preceded(l: seq<Seen>, p: Seen -> bool, q: Seen -> bool) {
    forall i :: 0 <= i < |l| && p(l[i]) ==> exists j :: 0 <= j < i && q(l[j])
  }

  lemma HappenedSnoc(l: seq<Seen>, x: Seen, p: Seen -> bool)
    ensures Happened(l + [x], p) <==> Happened(l, p) || p(x)
  {
    var m := l + [x];
    assert m[|l|] == x;
    if i :| 0 <= i < |l| && p(l[i]) {
      assert p(m[i]);
    }
  }

  lemma AfterSnoc(l: seq<Seen>, x: Seen, p: Seen -> bool, q: Seen -> bool)
    requires After(l, p, q) && (Happened(l, p) ==> q(x))
    ensures After(l + [x], p, q)
  {
  }

  lemma PrecededSnoc(l: seq<Seen>, x: Seen, p: Seen -> bool, q: Seen -> bool)
    requires Preceded(l, p, q) && (p(x) ==> Happened(l, q))
    ensures Preceded(l + [x], p, q)
  {
    var m := l + [x];
    forall i | 0 <= i < |m| && p(m[i]) ensures exists j :: 0 <= j < i && q(m[j]) {
      if i < |l| {
        var j :| 0 <= j < i && q(l[j]);
        assert q(m[j]);
      } else {
        var j :| 0 <= j < |l| && q(l[j]);
        assert q(m[j]);
      }
    }
  }

  predicate Readied(x: Seen) { x.BecameReady? }

  predicate Closing(x: Seen) { x.BecameClosed? }

  predicate Notice(x: Seen) { x.NotifiedClose? }

  predicate Settles(x: Seen) { x.ReadyResolved? || x.ReadyRejected? }

  predicate HelloOkSent(x: Seen) { x.Transmitted? && x.frame.HelloOk? }

  predicate Hands(x: Seen) { x.HandedUp? || x.HandedInvalid? || x.ReadyResolved? }

  predicate LooseEnd(x: Seen) { x.ClosedDuplex? || x.NotifiedClose? || x.ReadyRejected? }

  predicate StaysReady(x: Seen) { !x.BecameReady? && !x.ReadyRejected? }

  predicate NoNotice(x: Seen) { !x.NotifiedClose? }

  predicate NoSettling(x: Seen) { !Settles(x) }

  predicate NoHelloOk(x: Seen) { !HelloOkSent(x) }

  /** The session's promises to its owner and its peer, in the order things happen. */
  ghost predicate Lawful(l: seq<Seen>) {
    // after closing: no text, no frame, no readiness; only the loose ends
    && After(l, Closing, LooseEnd)
    // once each
    && After(l, Readied, StaysReady)
    && After(l, Notice, NoNotice)
    && After(l, Settles, NoSettling)
    && After(l, HelloOkSent, NoHelloOk)
    // frames and a resolved `ready` only after becoming ready; the notice only after closing
    && Preceded(l, Hands, Readied)
    && Preceded(l, Notice, Closing)
  }

  /** The summary records which things have happened. */
  ghost predicate Records(v: View, l: seq<Seen>) {
    && (v.phase.Shut? <==> Happened(l, Closing))
    && (v.reachedReady <==> Happened(l, Readied))
    && (v.notified <==> Happened(l, Notice))
    && (!v.settledReady.Pending? <==> Happened(l, Settles))
    && (v.saidHelloOk <==> Happened(l, HelloOkSent))
    && (v.phase.Ready? ==> v.reachedReady)
    && (v.phase.WaitingHello? ==> !v.reachedReady)
  }

  lemma {:induction false} UnbrokenIsLawful(trace: Trace)
    requires !ViewOf(trace).bad
    ensures Lawful(Listed(trace)) && Records(ViewOf(trace), Listed(trace))
  {
    match trace
    case Start =>
    case Then(past, seen) =>
      UnbrokenIsLawful(past);
      AppendRecords(Listed(past), ViewOf(past), seen);
      AppendKeepsLawful(Listed(past), ViewOf(past), seen);
  }

  lemma AppendRecords(l: seq<Seen>, v: View, seen: Seen)
    requires Records(v, l) && !Advance(v, seen).bad
    ensures Records(Advance(v, seen), l + [seen])
  {
    HappenedSnoc(l, seen, Closing);
    HappenedSnoc(l, seen, Readied);
    HappenedSnoc(l, seen, Notice);
    HappenedSnoc(l, seen, Settles);
    HappenedSnoc(l, seen, HelloOkSent);
  }

  lemma AppendKeepsLawful(l: seq<Seen>, v: View, seen: Seen)
    requires Lawful(l) && Records(v, l) && !Advance(v, seen).bad
    ensures Lawful(l + [seen])
  {
    AfterSnoc(l, seen, Closing, LooseEnd);
    AfterSnoc(l, seen, Readied, StaysReady);
    AfterSnoc(l, seen, Notice, NoNotice);
    AfterSnoc(l, seen, Settles, NoSettling);
    AfterSnoc(l, seen, HelloOkSent, NoHelloOk);
    PrecededSnoc(l, seen, Hands, Readied);
    PrecededSnoc(l, seen, Notice, Closing);
  }

  // ---- What each event comes to ----

  /** What has been seen since `s`. */
  predicate Adds(s: Session, r: Session, news: seq<Seen>) {
    Listed(r.trace) == Listed(s.trace) + news
  }

  const REFUSED := [ReadyRejected, BecameClosed, ClosedDuplex, NotifiedClose]

  /** The session closes its duplex; nobody waits for `ready` after that. */
  function ClosingDown(s: Session): seq<Seen> {
    if s.ready.Pending? then [BecameClosed, ReadyRejected, ClosedDuplex, NotifiedClose]
    else [BecameClosed, ClosedDuplex, NotifiedClose]
  }

  /** A handshake that the server gives up tells the client why, if that can be sent. */
  function Rebuff(code: string, message: string, fate: Fate): seq<Seen> {
    [ReadyRejected] + (if fate.Sent? then [Transmitted(HelloError(WireError(code, message, None)))] else [])
    + [BecameClosed, ClosedDuplex, NotifiedClose]
  }

  /** What a first text comes to, by the rules of the handshake. */
  function FirstText(s: Session, text: Text, fate: Fate): seq<Seen> {
    if text.Oversize? then REFUSED
    else if text.Unparseable? || !text.value.Obj? then (if s.role.ClientRole? then REFUSED else ClosingDown(s))
    else
      var decoded := DecodeFrame(text.value);
      if s.role.ClientRole? then (if decoded == Accepted(HelloOk) then [BecameReady, ReadyResolved] else REFUSED)
      else if decoded.Accepted? && decoded.frame.Hello? && !s.helloInFlight then []
      else Rebuff("BAD_REQUEST", Complaint(text.value.fields), fate)
  }

  /** What a text comes to once both ends have said hello. */
  function LaterText(s: Session, text: Text): seq<Seen> {
    if !text.Parsed? || !text.value.Obj? then ClosingDown(s)
    else
      match DecodeFrame(text.value)
      case Accepted(frame) => [HandedUp(frame)]
      case Rejected(Some(id), _) => [HandedInvalid(id)]
      case Rejected(None, _) => ClosingDown(s)
  }

  /** What `onHello` comes to. */
  function AcceptedHello(s: Session, ok: bool, fate: Fate): seq<Seen> {
    if !ok then Rebuff("INTERNAL", "Internal server error", fate)
    else
      match fate
      case Sent(_) => [Transmitted(HelloOk), BecameReady, ReadyResolved]
      case Thrown => ClosingDown(s)
      case _ => REFUSED
  }

  /** What the outside sees of one event, while the session is not closed. */
  function News(s: Session, e: Event): seq<Seen> {
    match e
    case TimerFires => if s.timer && s.phase.WaitingHello? then REFUSED else []
    case Inbound(text, fate, _) => if s.phase.WaitingHello? then FirstText(s, text, fate) else LaterText(s, text)
    case HelloSettles(ok, fate, _) => if s.accept.Some? then AcceptedHello(s, ok, fate) else []
    case OwnerSends(frame, fate, _) =>
      if frame.HelloOk? then [] else if fate.Sent? then [Transmitted(frame)] else if fate.Thrown? then ClosingDown(s) else []
    case OwnerCloses => ClosingDown(s)
    case DuplexCloses => if s.ready.Pending? then [BecameClosed, ReadyRejected, NotifiedClose] else [BecameClosed, NotifiedClose]
    case DrainSettles(_, ok) => if ok then [] else ClosingDown(s)
  }

  lemma AddsOne(s: Session, r: Session, x: Seen)
    requires r.trace == Then(s.trace, x)
    ensures Adds(s, r, [x])
  {
  }

  lemma AddsMore(s: Session, r: Session, t: Session, news: seq<Seen>, more: seq<Seen>)
    requires Adds(s, r, news) && Adds(r, t, more)
    ensures Adds(s, t, news + more)
  {
    assert Listed(s.trace) + (news + more) == Listed(s.trace) + news + more;
  }

  lemma CloseAdds(s: Session)
    requires Good(s) && !s.phase.Shut?
    ensures Adds(s, Close(s), ClosingDown(s))
    ensures Adds(s, OnDuplexClose(s), News(s, DuplexCloses))
  {
    var r := FailReady(EnterClosed(s));
    AddsOne(s, EnterClosed(s), BecameClosed);
    if s.ready.Pending? {
      AddsOne(EnterClosed(s), r, ReadyRejected);
      AddsMore(s, EnterClosed(s), r, [BecameClosed], [ReadyRejected]);
      ShutAdds(s, r, [BecameClosed, ReadyRejected]);
    } else {
      ShutAdds(s, r, [BecameClosed]);
    }
  }

  /** The loose ends of a close. */
  lemma ShutAdds(s: Session, r: Session, news: seq<Seen>)
    requires Adds(s, r, news) && !r.closeNotified
    ensures Adds(s, NotifyOnClose(See(r, ClosedDuplex)), news + [ClosedDuplex, NotifiedClose])
    ensures Adds(s, NotifyOnClose(r), news + [NotifiedClose])
  {
    var r1 := See(r, ClosedDuplex);
    AddsOne(r, r1, ClosedDuplex);
    AddsOne(r1, NotifyOnClose(r1), NotifiedClose);
    AddsMore(r, r1, NotifyOnClose(r1), [ClosedDuplex], [NotifiedClose]);
    AddsMore(s, r, NotifyOnClose(r1), news, [ClosedDuplex] + [NotifiedClose]);
    AddsOne(r, NotifyOnClose(r), NotifiedClose);
    AddsMore(s, r, NotifyOnClose(r), news, [NotifiedClose]);
  }

  /** A close after `ready` has failed. */
  lemma FailedCloseAdds(s: Session)
    requires Good(s) && s.phase.WaitingHello?
    ensures Adds(s, Close(FailReady(s)), REFUSED)
  {
    var r := EnterClosed(FailReady(s));
    AddsOne(s, FailReady(s), ReadyRejected);
    AddsOne(FailReady(s), r, BecameClosed);
    AddsMore(s, FailReady(s), r, [ReadyRejected], [BecameClosed]);
    ShutAdds(s, r, [ReadyRejected, BecameClosed]);
  }

  lemma RebuffAdds(s: Session, code: string, message: string, fate: Fate)
    requires Good(s) && s.phase.WaitingHello?
    ensures Adds(s, FailHandshake(s, WireError(code, message, None), fate, false), Rebuff(code, message, fate))
  {
    var error := WireError(code, message, None);
    var s1 := FailReady(s);
    var s2 := Send(s1, HelloError(error), fate, false).0;
    AddsOne(s, s1, ReadyRejected);
    if fate.Sent? {
      AddsOne(s1, s2, Transmitted(HelloError(error)));
      AddsMore(s, s1, s2, [ReadyRejected], [Transmitted(HelloError(error))]);
      AddsOne(s2, EnterClosed(s2), BecameClosed);
      AddsMore(s, s2, EnterClosed(s2), [ReadyRejected, Transmitted(HelloError(error))], [BecameClosed]);
      ShutAdds(s, EnterClosed(s2), [ReadyRejected, Transmitted(HelloError(error)), BecameClosed]);
      assert Rebuff(code, message, fate)
          == [ReadyRejected, Transmitted(HelloError(error)), BecameClosed] + [ClosedDuplex, NotifiedClose];
    } else {
      FailedCloseAdds(s);
      assert Close(s2) == Close(s1);
    }
  }

  lemma FirstTextAdds(s: Session, text: Text, fate: Fate)
    requires Good(s) && s.phase.WaitingHello?
    ensures Adds(s, OnInbound(s, text, fate, false).0, FirstText(s, text, fate))
  {
    if !text.Parsed? || !text.value.Obj? {
      CloseAdds(s);
      FailedCloseAdds(s);
    } else if s.role.ClientRole? {
      ClientHandshakeAdds(s, DecodeFrame(text.value));
    } else {
      RebuffAdds(s, "BAD_REQUEST", Complaint(text.value.fields), fate);
    }
  }

  lemma ClientHandshakeAdds(s: Session, decoded: DecodeResult)
    requires Good(s) && s.phase.WaitingHello? && s.role.ClientRole?
    ensures Adds(s, ClientHandshake(s, decoded), if decoded == Accepted(HelloOk) then [BecameReady, ReadyResolved] else REFUSED)
  {
    FailedCloseAdds(s);
    var s1 := See(s.(phase := Ready, timer := false), BecameReady);
    AddsOne(s, s1, BecameReady);
    AddsOne(s1, SucceedReady(s1), ReadyResolved);
    AddsMore(s, s1, SucceedReady(s1), [BecameReady], [ReadyResolved]);
  }

  lemma LaterTextAdds(s: Session, text: Text, fate: Fate)
    requires Good(s) && s.phase.Ready?
    ensures Adds(s, OnInbound(s, text, fate, false).0, LaterText(s, text))
  {
    CloseAdds(s);
    assert FailReady(s) == s;
  }

  lemma AcceptAdds(s: Session, ok: bool, fate: Fate)
    requires Good(s) && s.phase.WaitingHello? && s.accept.Some?
    ensures Adds(s, OnHelloSettled(s, ok, fate, false), AcceptedHello(s, ok, fate))
  {
    var s0 := s.(accept := None);
    CloseAdds(s0);
    FailedCloseAdds(s0);
    if !ok {
      RebuffAdds(s0, "INTERNAL", "Internal server error", fate);
    } else if fate.Sent? {
      var s1 := Send(s0, HelloOk, fate, false).0;
      var s2 := See(s1.(phase := Ready, timer := false, helloInFlight := false), BecameReady);
      AddsOne(s, s1, Transmitted(HelloOk));
      AddsOne(s1, s2, BecameReady);
      AddsMore(s, s1, s2, [Transmitted(HelloOk)], [BecameReady]);
      AddsOne(s2, SucceedReady(s2), ReadyResolved);
      AddsMore(s, s2, SucceedReady(s2), [Transmitted(HelloOk), BecameReady], [ReadyResolved]);
    }
  }

  /**
   * What every event comes to, as the outside sees it: the rules of the handshake
   * until both ends have said hello, of the frames after it, and nothing at all once
   * the session is closed.
   */
  lemma EventIsSeen(s: Session, e: Event)
    requires Good(s) && Calm(e)
    ensures Adds(s, Step(s, e), if s.phase.Shut? then [] else News(s, e))
  {
    if !s.phase.Shut? {
      CloseAdds(s);
      match e
      case Inbound(text, fate, _) =>
        if s.phase.WaitingHello? {
          FirstTextAdds(s, text, fate);
        } else {
          LaterTextAdds(s, text, fate);
        }
      case TimerFires => if s.phase.WaitingHello? { FailedCloseAdds(s); }
      case HelloSettles(ok, fate, _) => if s.accept.Some? { AcceptAdds(s, ok, fate); }
      case OwnerSends(frame, fate, _) => if fate.Sent? { AddsOne(s, See(s, Transmitted(frame)), Transmitted(frame)); }
      case _ =>
    }
  }

  /**
   * A hello that does not come in time: a session that still waits with its timer
   * armed closes, rejecting `ready`, closing the duplex and telling its owner once
   * each; no other session takes notice.
   */
  lemma HelloTimesOut(s: Session)
    requires Good(s)
    ensures var r := Step(s, TimerFires);
            if s.phase.WaitingHello? && s.timer
            then r.phase.Shut? && r.ready.Failed? && Adds(s, r, [ReadyRejected, BecameClosed, ClosedDuplex, NotifiedClose])
            else r == s
  {
    EventIsSeen(s, TimerFires);
    StepKeeps(s, TimerFires);
  }

  /** The texts that end a session: too long, not JSON, not an object, no hello where one is due, or a frame without an id. */
  predicate Fatal(s: Session, text: Text) {
    || !text.Parsed?
    || !text.value.Obj?
    || (s.phase.Ready? && DecodeFrame(text.value).Rejected? && DecodeFrame(text.value).id.None?)
    || (s.phase.WaitingHello? && s.role.ClientRole? && DecodeFrame(text.value) != Accepted(HelloOk))
    || (s.phase.WaitingHello? && s.role.ServerRole? && (s.helloInFlight || !DecodeFrame(text.value).Accepted?
                                                         || !DecodeFrame(text.value).frame.Hello?))
  }

  /** Exactly those close the session; of the others, a frame is handed up, and a hello is answered or accepted. */
  lemma FatalTextsClose(s: Session, text: Text, fate: Fate)
    requires Good(s) && !s.phase.Shut?
    ensures var (r, delivery) := OnInbound(s, text, fate, false);
            && (r.phase.Shut? <==> Fatal(s, text))
            && (Fatal(s, text) ==> r.closeNotified && !r.ready.Pending? && delivery.Nothing?)
            && (s.phase.Ready? && !Fatal(s, text) ==>
                  match DecodeFrame(text.value)
                  case Accepted(frame) => delivery == Deliver(frame)
                  case Rejected(id, _) => delivery == Invalid(id.value))
            && (s.phase.WaitingHello? && !Fatal(s, text) ==>
                  && delivery.Nothing?
                  && (if s.role.ClientRole? then r.phase.Ready? && r.ready.Resolved? && !r.timer
                      else r == s.(helloInFlight := true, accept := Some(s.generation))))
  {
    InboundKeeps(s, text, fate);
    if text.Parsed? && text.value.Obj? {
      var decoded := DecodeFrame(text.value);
      if s.phase.Ready? {
        assert OnInbound(s, text, fate, false) == ReadyMessage(s, text);
      } else if s.role.ClientRole? {
        assert OnInbound(s, text, fate, false) == (ClientHandshake(s, decoded), Nothing);
      } else {
        assert OnInbound(s, text, fate, false).0 == ServerHandshake(s, text.value.fields, decoded, fate, false);
      }
    }
  }

  /** What the outcome of a send says, and whether it comes with a drain promise that is then held. */
  lemma SendIs(s: Session, frame: Frame, fate: Fate)
    requires Good(s)
    ensures var (r, outcome) := Send(s, frame, fate, false);
            && (s.phase.Shut? ==> r == s && outcome == NotSent(ClosedSession))
            && (!s.phase.Shut? ==>
                  match fate
                  case Sent(above) => outcome == SentOk(above) && r.drains == if above then s.drains + {s.nextDrain} else s.drains
                  case TooLarge => outcome == NotSent(OversizeFrame) && r == s
                  case Unserializable => outcome == NotSent(UnencodableFrame) && r == s
                  case Thrown => outcome == NotSent(ClosedSession) && r.phase.Shut?)
  {
    CloseLively(s);
  }

  /** A drain promise is settled by its duplex or by the close, and a failed one closes. */
  lemma DrainIs(s: Session, drain: nat, ok: bool)
    requires Good(s)
    ensures var r := OnDrain(s, drain, ok);
            && (ok && drain in s.drains ==> r.drains == s.drains - {drain} && drain in r.settledDrains)
            && (ok && drain !in s.drains ==> r == s)
            && (!ok ==> r.phase.Shut? && r.drains == {} && s.drains <= r.settledDrains)
  {
    CloseKeeps(s);
  }

  /** The timer is armed while the session waits for hello, and at no other time. */
  lemma TimerIsCleared(s: Session, e: Event)
    requires Good(s) && Calm(e) && (s.timer ==> s.phase.WaitingHello?)
    ensures Step(s, e).timer <==> s.timer && Step(s, e).phase.WaitingHello?
  {
    match e
    case Inbound(text, fate, _) => TextClearsTimer(s, text, fate);
    case HelloSettles(ok, fate, _) => AcceptClearsTimer(s, ok, fate);
    case _ =>
  }

  lemma TextClearsTimer(s: Session, text: Text, fate: Fate)
    requires s.timer ==> s.phase.WaitingHello?
    ensures var r := OnInbound(s, text, fate, false).0; r.timer <==> s.timer && r.phase.WaitingHello?
  {
    if text.Parsed? && text.value.Obj? {
      var decoded := DecodeFrame(text.value);
      if s.phase.Ready? {
        ReadyKeepsTimer(s, text);
      } else if s.phase.WaitingHello? {
        ClientClearsTimer(s, decoded);
        ServerClearsTimer(s, text.value.fields, decoded, fate);
      }
    }
  }

  lemma ReadyKeepsTimer(s: Session, text: Text)
    requires !s.timer
    ensures !ReadyMessage(s, text).0.timer
  {
  }

  lemma ClientClearsTimer(s: Session, decoded: DecodeResult)
    requires s.phase.WaitingHello?
    ensures !ClientHandshake(s, decoded).timer && !ClientHandshake(s, decoded).phase.WaitingHello?
  {
  }

  lemma ServerClearsTimer(s: Session, fields: map<string, Json>, decoded: DecodeResult, fate: Fate)
    requires s.phase.WaitingHello?
    ensures var r := ServerHandshake(s, fields, decoded, fate, false); r.timer <==> s.timer && r.phase.WaitingHello?
  {
    FailureClearsTimer(s, WireError("BAD_REQUEST", Complaint(fields), None), fate);
  }

  lemma AcceptClearsTimer(s: Session, ok: bool, fate: Fate)
    requires s.timer ==> s.phase.WaitingHello?
    ensures var r := OnHelloSettled(s, ok, fate, false); r.timer <==> s.timer && r.phase.WaitingHello?
  {
    if !ok {
      FailureClearsTimer(s.(accept := None), WireError("INTERNAL", "Internal server error", None), fate);
    }
  }

  lemma FailureClearsTimer(s: Session, error: WireError, fate: Fate)
    requires s.timer ==> s.phase.WaitingHello?
    ensures var r := FailHandshake(s, error, fate, false); r.phase.Shut? && !r.timer
  {
  }

  /** A server says why it will not go on: what came is no hello, a hello of another version, or a broken one. */
  lemma ComplaintIs(fields: map<string, Json>)
    ensures Get(fields, "type") != Some(Str("hello")) ==> Complaint(fields) == "Expected hello"
    ensures Get(fields, "type") == Some(Str("hello")) && (exists n: real :: n != 1.0 && Get(fields, "v") == Some(Num(n)))
            ==> Complaint(fields) == "Unsupported protocol version"
    ensures Get(fields, "type") == Some(Str("hello")) && !(exists n: real :: n != 1.0 && Get(fields, "v") == Some(Num(n)))
            ==> Complaint(fields) == "Invalid hello"
  {
  }

  /** The hello of a new client, and what its failure comes to. */
  lemma HelloIsSaid(role: Role, timer: bool, meta: Payload, fate: Fate)
    ensures var s := Begin(role, timer, meta, fate, false);
            && (role.ServerRole? ==> Listed(s.trace) == [] && s.timer == timer)
            && (role.ClientRole? && fate.Sent? ==> Listed(s.trace) == [Transmitted(Hello(meta))] && s.timer == timer)
            && (role.ClientRole? && fate.Thrown? ==>
                  Listed(s.trace) == [BecameClosed, ReadyRejected, ClosedDuplex, NotifiedClose])
            && (role.ClientRole? && (fate.TooLarge? || fate.Unserializable?) ==>
                  Listed(s.trace) == [ReadyRejected, BecameClosed, ClosedDuplex, NotifiedClose])
  {
    var idle := Idle(role, timer);
    assert Good(idle) && Listed(idle.trace) == [];
    CloseAdds(idle);
    FailedCloseAdds(idle);
    AddsOne(idle, See(idle, Transmitted(Hello(meta))), Transmitted(Hello(meta)));
    assert fate.Thrown? ==> Begin(role, timer, meta, fate, false) == if role.ServerRole? then idle else Close(idle);
  }

  // ---- A duplex that closes from inside `send` ----

  /** The frames a server refuses while it waits for its hello: it answers with a hello-error. */
  predicate Refuses(s: Session, text: Text) {
    s.phase.WaitingHello? && s.role.ServerRole? && text.Parsed? && text.value.Obj? && !Welcome(s, DecodeFrame(text.value))
  }

  /** An accept whose `onHello` has just settled still goes on. */
  predicate Resumes(s: Session) {
    s.accept.Some? && s.phase.WaitingHello?
  }

  /** The sends that cannot bear a close from inside `send`: a hello-ok, and any that is answered with a drain promise. */
  predicate Breaks(s: Session, e: Event) {
    match e
    case Inbound(text, fate, reentrant) => reentrant && fate == Sent(true) && Refuses(s, text)
    case HelloSettles(ok, fate, reentrant) => reentrant && fate.Sent? && Resumes(s) && (ok || fate.above)
    case OwnerSends(frame, fate, reentrant) => reentrant && fate == Sent(true) && !frame.HelloOk? && !s.phase.Shut?
    case _ => false
  }

  /** The client's hello breaks like any other send. */
  predicate BreaksAtStart(role: Role, fate: Fate, reentrant: bool) {
    role.ClientRole? && reentrant && fate == Sent(true)
  }

  lemma ReopenedIsBad(s: Session, above: bool)
    requires Good(s) && Resumes(s)
    ensures ViewOf(OnHelloSettled(s, true, Sent(above), true).trace).bad
  {
    var s1 := See(s.(accept := None), Transmitted(HelloOk));
    assert Lively(s.(accept := None));
    CloseOnceSent(s1);
  }

  lemma CloseOnceSent(s: Session)
    requires !s.phase.Shut?
    ensures ViewOf(OnDuplexClose(s).trace).phase.Shut?
  {
  }

  /** A send during which the duplex closes; `ready` may already have failed on the way to closing. */
  lemma ReentrantSend(s: Session, frame: Frame, fate: Fate)
    requires Lively(s) && Drained(s) && !frame.HelloOk? && !s.phase.Shut? && (fate.Sent? || fate.Thrown?)
    ensures var r := Send(s, frame, fate, true).0;
            r.phase.Shut? && (Good(r) <==> fate != Sent(true))
  {
    if fate.Thrown? {
      CloseKeeps(s);
      assert Close(OnDuplexClose(s)) == OnDuplexClose(s);
    } else {
      var s1 := See(s, Transmitted(frame));
      assert Lively(s1) && Drained(s1);
      CloseKeeps(s1);
      var r := Send(s, frame, fate, true).0;
      if fate.above {
        assert OnDuplexClose(s1).nextDrain in r.drains;
      }
    }
  }

  /** A send that goes nowhere is the same whether the duplex closes inside it or not. */
  lemma UnsentIsCalm(s: Session, frame: Frame, fate: Fate)
    requires s.phase.Shut? || (!fate.Sent? && !fate.Thrown?)
    ensures Send(s, frame, fate, true) == Send(s, frame, fate, false)
  {
  }

  lemma ReentrantFailure(s: Session, error: WireError, fate: Fate)
    requires Good(s) && !s.phase.Shut?
    ensures Good(FailHandshake(s, error, fate, true)) <==> fate != Sent(true)
  {
    FailReadyLively(s);
    if fate.Sent? || fate.Thrown? {
      ReentrantSend(FailReady(s), HelloError(error), fate);
    } else {
      UnsentIsCalm(FailReady(s), HelloError(error), fate);
      FailHandshakeKeeps(s, error, fate);
    }
  }

  lemma ReentrantInbound(s: Session, text: Text, fate: Fate)
    requires Good(s)
    ensures Good(OnInbound(s, text, fate, true).0) <==> !(fate == Sent(true) && Refuses(s, text))
  {
    if Refuses(s, text) {
      ReentrantFailure(s, WireError("BAD_REQUEST", Complaint(text.value.fields), None), fate);
    } else {
      InboundKeeps(s, text, fate);
      assert OnInbound(s, text, fate, true) == OnInbound(s, text, fate, false);
    }
  }

  /** A hello-ok that the duplex refuses by throwing, having closed. */
  lemma ThrownAccept(s: Session)
    requires Good(s) && Resumes(s)
    ensures Good(OnHelloSettled(s, true, Thrown, true))
  {
    var s0 := s.(accept := None);
    assert Good(s0);
    CloseKeeps(s0);
    var r := OnDuplexClose(s0);
    assert OnHelloSettled(s, true, Thrown, true) == r;
  }

  lemma ReentrantAccept(s: Session, ok: bool, fate: Fate)
    requires Good(s)
    ensures Good(OnHelloSettled(s, ok, fate, true)) <==> !(fate.Sent? && Resumes(s) && (ok || fate.above))
  {
    if !Resumes(s) || (ok && !fate.Sent? && !fate.Thrown?) {
      AcceptKeeps(s, ok, fate);
      assert OnHelloSettled(s, ok, fate, true) == OnHelloSettled(s, ok, fate, false);
    } else if !ok {
      assert Good(s.(accept := None));
      ReentrantFailure(s.(accept := None), WireError("INTERNAL", "Internal server error", None), fate);
    } else if fate.Sent? {
      ReopenedIsBad(s, fate.above);
    } else {
      ThrownAccept(s);
    }
  }

  /** From any good session, an event keeps it good exactly when it is not such a send. */
  lemma ReentrancyExactly(s: Session, e: Event)
    requires Good(s)
    ensures Good(Step(s, e)) <==> !Breaks(s, e)
  {
    if Calm(e) {
      StepKeeps(s, e);
    } else if e.Inbound? {
      ReentrantInbound(s, e.text, e.fate);
    } else if e.HelloSettles? {
      ReentrantAccept(s, e.ok, e.fate);
    } else if e.frame.HelloOk? || s.phase.Shut? {
      assert Step(s, e) == s;
    } else if e.fate.Sent? || e.fate.Thrown? {
      ReentrantSend(s, e.frame, e.fate);
    } else {
      UnsentIsCalm(s, e.frame, e.fate);
      SendKeeps(s, e.frame, e.fate);
    }
  }

  /** And a new session is good exactly when its hello is not such a send. */
  lemma StartExactly(role: Role, timer: bool, meta: Payload, fate: Fate, reentrant: bool)
    ensures Good(Begin(role, timer, meta, fate, reentrant)) <==> !BreaksAtStart(role, fate, reentrant)
  {
    var idle := Idle(role, timer);
    if role.ServerRole? || !reentrant {
      BeginIsGood(role, timer, meta, fate);
      assert role.ServerRole? ==> Begin(role, timer, meta, fate, reentrant) == idle;
    } else if fate.Sent? || fate.Thrown? {
      assert Good(idle);
      ReentrantSend(idle, Hello(meta), fate);
      var s1 := Send(idle, Hello(meta), fate, true).0;
      assert fate.Thrown? ==> Close(FailReady(s1)) == s1;
    } else {
      UnsentIsCalm(idle, Hello(meta), fate);
      BeginIsGood(role, timer, meta, fate);
    }
  }

  // ---- All runs ----

  /** No event of the run breaks when its turn comes. */
  predicate Unbroken(s: Session, events: seq<Event>)
    decreases |events|
  {
    events == [] || (!Breaks(s, events[0]) && Unbroken(Step(s, events[0]), events[1..]))
  }

  /** A duplex that never closes from inside `send` breaks nothing. */
  lemma {:induction false} CalmIsUnbroken(s: Session, events: seq<Event>)
    requires forall e | e in events :: Calm(e)
    ensures Unbroken(s, events)
    decreases |events|
  {
    if events != [] {
      assert events[0] in events;
      CalmIsUnbroken(Step(s, events[0]), events[1..]);
    }
  }

  lemma {:induction false} EveryRunIsGood(s: Session, events: seq<Event>)
    requires Good(s) && Unbroken(s, events)
    ensures Good(Run(s, events))
    decreases |events|
  {
    if events != [] {
      ReentrancyExactly(s, events[0]);
      EveryRunIsGood(Step(s, events[0]), events[1..]);
    }
  }

  function Rank(phase: Phase): nat {
    match phase
    case WaitingHello => 0
    case Ready => 1
    case Shut => 2
  }

  /** The state only moves forward and never leaves `closed`. */
  lemma StepMovesForward(s: Session, e: Event)
    requires Good(s) && !Breaks(s, e)
    ensures Rank(s.phase) <= Rank(Step(s, e).phase)
    ensures s.phase.Shut? ==> Step(s, e).phase.Shut?
  {
    CloseKeeps(s);
  }

  /**
   * The lifecycle of every connection, from its constructor through any run in
   * which no send breaks; a duplex that never closes from inside `send` has no
   * other runs.
   */
  lemma Lifecycle(role: Role, timer: bool, meta: Payload, fate: Fate, reentrant: bool, events: seq<Event>)
    requires !BreaksAtStart(role, fate, reentrant) && Unbroken(Begin(role, timer, meta, fate, reentrant), events)
    ensures var s := Run(Begin(role, timer, meta, fate, reentrant), events);
            var l := Listed(s.trace);
            && Lawful(l)
            && (s.phase.Shut? <==> Happened(l, Closing) && Happened(l, Notice))
            && (s.ready.Pending? <==> !Happened(l, Settles))
            && (s.ready.Resolved? <==> Happened(l, Readied))
            && (s.phase.Shut? ==> s.drains == {} && !s.ready.Pending?)
  {
    var s0 := Begin(role, timer, meta, fate, reentrant);
    StartExactly(role, timer, meta, fate, reentrant);
    EveryRunIsGood(s0, events);
    UnbrokenIsLawful(Run(s0, events).trace);
  }

  // ---- Two runs that break ----

  const ACCEPTING := Idle(ServerRole, true).(helloInFlight := true, accept := Some(0))

  /** A server whose `onHello` runs. */
  lemma HelloIsTaken()
    ensures Run(Begin(ServerRole, true, None, Sent(false), false), [Inbound(Parsed(EncodeFrame(Hello(None))), Sent(false), false)])
         == ACCEPTING
  {
    RoundTrip(Hello(None));
    var e := Inbound(Parsed(EncodeFrame(Hello(None))), Sent(false), false);
    assert Step(Idle(ServerRole, true), e) == ACCEPTING;
    assert [e][1..] == [];
  }

  /** A connection that is ready after its duplex has closed. */
  lemma ClosedConnectionReopens()
    ensures var s := Step(ACCEPTING, HelloSettles(true, Sent(false), true));
            s.phase.Ready? && s.ready.Failed? && Happened(Listed(s.trace), Closing)
  {
    var s := Step(ACCEPTING, HelloSettles(true, Sent(false), true));
    assert Listed(s.trace)[1] == BecameClosed by {
      assert Listed(Then(Then(Trace.Start, Transmitted(HelloOk)), BecameClosed)) == [Transmitted(HelloOk), BecameClosed];
    }
  }

  /** A closed connection that still holds a drain promise: that of the hello-error it closed on. */
  lemma ClosedConnectionHoldsDrain()
    ensures var s := Step(ACCEPTING, HelloSettles(false, Sent(true), true));
            s.phase.Shut? && s.drains == {0} && Happened(Listed(s.trace), Closing)
  {
    var s := Step(ACCEPTING, HelloSettles(false, Sent(true), true));
    assert Listed(s.trace)[2] == BecameClosed by {
      assert Listed(Then(Then(Then(Trace.Start, ReadyRejected), Transmitted(HelloError(WireError("INTERNAL", "Internal server error", None)))),
                         BecameClosed))
          == [ReadyRejected, Transmitted(HelloError(WireError("INTERNAL", "Internal server error", None))), BecameClosed];
    }
  }
}
