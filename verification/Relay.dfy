/** The two-direction relay of a SOCKS session (HttpSession and BindSession share it):
    asynchronous reads and sends that complete in any order, with any chunk sizes. */
module Relay {
  import opened Prelude

  const MAX_LENGTH: nat := 1024

  type Byte = b: int | 0 <= b < 256

  /** `In` carries what the client sends, `Out` what comes back to it. */
  datatype Side = In | Out

  /** An operation that was started and has not completed. */
  datatype Op = Read | Send(n: nat)

  /** One direction: its outstanding operations, its buffer and its flag, with the bytes
      read so far and the bytes handed to the other socket so far. */
  datatype Half = Half(pending: multiset<Op>, buffer: seq<Byte>, ended: bool, got: seq<Byte>, sent: seq<Byte>)

  datatype Sock = Sock(recvShut: bool, sendShut: bool, closed: bool)

  datatype State = State(inn: Half, out: Half, client: Sock, server: Sock)

  datatype Event =
    | ReadDone(side: Side, data: seq<Byte>)
    | ReadFailed(side: Side)
    | SendDone(side: Side, asked: nat, n: nat)
    | SendFailed(side: Side, asked: nat)

  function HalfOf(s: State, side: Side): Half {
    if side.In? then s.inn else s.out
  }

  function With(s: State, side: Side, h: Half): State {
    if side.In? then s.(inn := h) else s.(out := h)
  }

  function Other(side: Side): Side {
    if side.In? then Out else In
  }

  function Source(s: State, side: Side): Sock {
    if side.In? then s.client else s.server
  }

  function Target(s: State, side: Side): Sock {
    if side.In? then s.server else s.client
  }

  function OpOf(e: Event): Op {
    match e
    case ReadDone(_, _) => Read
    case ReadFailed(_) => Read
    case SendDone(_, asked, _) => Send(asked)
    case SendFailed(_, asked) => Send(asked)
  }

  /** The completions that may come: of an outstanding operation, a read of 1 to
      `MAX_LENGTH` bytes, or a send of at least one and at most all the bytes asked. */
  predicate Enabled(s: State, e: Event) {
    && OpOf(e) in HalfOf(s, e.side).pending
    && (e.ReadDone? ==> 1 <= |e.data| <= MAX_LENGTH && |e.data| <= |HalfOf(s, e.side).buffer|)
    && (e.SendDone? ==> 1 <= e.n <= e.asked && e.n <= |HalfOf(s, e.side).buffer|)
  }

  function Completed(h: Half, op: Op): Half {
    h.(pending := h.pending - multiset{op})
  }

  /** The data fills the front of the buffer, and all of it is sent. */
  function Received(h: Half, data: seq<Byte>): Half
    requires |data| <= |h.buffer|
  {
    h.(pending := h.pending + multiset{Send(|data|)}, buffer := data + h.buffer[|data|..], got := h.got + data)
  }

  /** A send takes the first `n` bytes of the buffer; what is missing is asked for again,
      and otherwise the next read starts. */
  function Acknowledged(h: Half, asked: nat, n: nat): Half
    requires n <= asked && n <= |h.buffer|
  {
    h.(pending := h.pending + multiset{if asked != n then Send(asked - n) else Read}, sent := h.sent + h.buffer[..n])
  }

  /** What a completion does to its own direction. */
  function NextHalf(h: Half, e: Event): Half
    requires e.ReadDone? ==> |e.data| <= |h.buffer|
    requires e.SendDone? ==> e.n <= e.asked && e.n <= |h.buffer|
  {
    var g := Completed(h, OpOf(e));
    match e
    case ReadDone(_, data) => Received(g, data)
    case ReadFailed(_) => g.(ended := true)
    case SendDone(_, asked, n) => Acknowledged(g, asked, n)
    case SendFailed(_, _) => g
  }

  /** A read that ends a direction half-closes both sockets for it, and closes them when
      the other direction has ended too. */
  function HalfClose(s: State, side: Side): State {
    var t := if side.In?
      then s.(client := s.client.(recvShut := true), server := s.server.(sendShut := true))
      else s.(server := s.server.(recvShut := true), client := s.client.(sendShut := true));
    if HalfOf(s, Other(side)).ended
    then t.(client := t.client.(closed := true), server := t.server.(closed := true))
    else t
  }

  function Step(s: State, e: Event): State
    requires Enabled(s, e)
  {
    var t := With(s, e.side, NextHalf(HalfOf(s, e.side), e));
    if e.ReadFailed? then HalfClose(t, e.side) else t
  }

  function FirstHalf(buffer: seq<Byte>): Half {
    Half(multiset{Read}, buffer, false, [], [])
  }

  /** Both directions start with a read, into buffers of any content. */
  function Start(inBuffer: seq<Byte>, outBuffer: seq<Byte>): State {
    State(FirstHalf(inBuffer), FirstHalf(outBuffer), Sock(false, false, false), Sock(false, false, false))
  }

  /** The state after these completions, if each was possible when it came. */
  function After(start: State, events: seq<Event>): Option<State>
    decreases |events|
  {
    if events == [] then Some(start)
    else
      var e := events[|events| - 1];
      match After(start, events[..|events| - 1])
      case Some(s) => if Enabled(s, e) then Some(Step(s, e)) else None
      case None => None
  }

  predicate Begins(start: State) {
    |start.inn.buffer| == MAX_LENGTH && |start.out.buffer| == MAX_LENGTH && start == Start(start.inn.buffer, start.out.buffer)
  }

  // ---------- The invariant ----------

  /** At most one operation is outstanding, and a pending send asks for all that is owed. */
  ghost predicate HalfOk(h: Half) {
    && |h.buffer| == MAX_LENGTH && |h.sent| <= |h.got|
    && (h.pending != multiset{} ==> !h.ended && exists op :: h.pending == multiset{op} && OpOk(h, op))
    && (h.ended ==> |h.sent| == |h.got|)
  }

  predicate OpOk(h: Half, op: Op) {
    match op
    case Read => |h.sent| == |h.got|
    case Send(n) => 1 <= n <= MAX_LENGTH && |h.sent| + n == |h.got|
  }

  predicate SocksOk(s: State) {
    && s.client.recvShut == s.inn.ended && s.server.sendShut == s.inn.ended
    && s.server.recvShut == s.out.ended && s.client.sendShut == s.out.ended
    && s.client.closed == (s.inn.ended && s.out.ended) && s.server.closed == (s.inn.ended && s.out.ended)
  }

  ghost predicate Inv(s: State) {
    HalfOk(s.inn) && HalfOk(s.out) && SocksOk(s)
  }

  lemma OnlyOp(h: Half, op: Op)
    requires HalfOk(h) && op in h.pending
    ensures h.pending == multiset{op} && h.pending - multiset{op} == multiset{} && !h.ended && OpOk(h, op)
  {
    var o :| h.pending == multiset{o} && OpOk(h, o);
    assert op in multiset{o};
  }

  lemma HalfStep(h: Half, e: Event)
    requires HalfOk(h) && OpOf(e) in h.pending
    requires e.ReadDone? ==> 1 <= |e.data| <= MAX_LENGTH
    requires e.SendDone? ==> 1 <= e.n <= e.asked
    ensures OpOk(h, OpOf(e)) && !h.ended && HalfOk(NextHalf(h, e))
  {
    OnlyOp(h, OpOf(e));
    var g := NextHalf(h, e);
    if e.ReadDone? {
      assert g.pending == multiset{Send(|e.data|)} && OpOk(g, Send(|e.data|));
    } else if e.SendDone? {
      var next := if e.asked != e.n then Send(e.asked - e.n) else Read;
      assert g.pending == multiset{next} && OpOk(g, next);
    }
  }

  lemma StepKeepsInv(s: State, e: Event)
    requires Inv(s) && Enabled(s, e)
    ensures Inv(Step(s, e))
  {
    HalfStep(HalfOf(s, e.side), e);
    hide HalfOk, OpOf;
  }

  lemma {:induction false} RunsKeepInv(start: State, events: seq<Event>)
    requires Begins(start) && After(start, events).Some?
    ensures Inv(After(start, events).value)
    decreases |events|
  {
    if events != [] {
      RunsKeepInv(start, events[..|events| - 1]);
      StepKeepsInv(After(start, events[..|events| - 1]).value, events[|events| - 1]);
    }
  }

  // ---------- What holds in every run ----------

  /** One operation per direction: a buffer is never read into while a send from it is
      pending. */
  lemma OneOutstanding(start: State, events: seq<Event>, side: Side)
    requires Begins(start) && After(start, events).Some?
    ensures |HalfOf(After(start, events).value, side).pending| <= 1
  {
    RunsKeepInv(start, events);
  }

  /** No outstanding operation is cut off: its socket is open for it. */
  lemma NothingCutOff(start: State, events: seq<Event>, side: Side, op: Op)
    requires Begins(start) && After(start, events).Some?
    requires op in HalfOf(After(start, events).value, side).pending
    ensures
      var s := After(start, events).value;
      && !s.client.closed && !s.server.closed
      && (op.Read? ==> !Source(s, side).recvShut) && (op.Send? ==> !Target(s, side).sendShut)
  {
    RunsKeepInv(start, events);
    OnlyOp(HalfOf(After(start, events).value, side), op);
  }

  /** Half-close comes only when everything read has been acknowledged. */
  lemma HalfCloseAtZeroDebt(start: State, events: seq<Event>, side: Side)
    requires Begins(start) && After(start, events).Some?
    ensures
      var s := After(start, events).value;
      Target(s, side).sendShut ==> |HalfOf(s, side).sent| == |HalfOf(s, side).got| && HalfOf(s, side).pending == multiset{}
  {
    RunsKeepInv(start, events);
  }

  function Prefix(events: seq<Event>): seq<Event>
    requires events != []
  {
    events[..|events| - 1]
  }

  lemma AfterPrefix(start: State, events: seq<Event>)
    requires events != [] && After(start, events).Some?
    ensures
      var e := events[|events| - 1];
      After(start, Prefix(events)).Some? && Enabled(After(start, Prefix(events)).value, e)
      && After(start, events).value == Step(After(start, Prefix(events)).value, e)
  {
  }

  lemma InPrefix(events: seq<Event>, e: Event)
    requires events != []
    ensures e in events <==> e in Prefix(events) || e == events[|events| - 1]
  {
    assert events == Prefix(events) + [events[|events| - 1]];
  }

  /** The bytes that a direction still owed when one of its sends failed. */
  function Lost(events: seq<Event>, side: Side): nat
    decreases |events|
  {
    if events == [] then 0
    else
      var e := events[|events| - 1];
      Lost(events[..|events| - 1], side) + if e.SendFailed? && e.side == side then e.asked else 0
  }

  ghost predicate Balanced(h: Half, lost: nat) {
    (h.pending != multiset{} ==> lost == 0) && (h.pending == multiset{} ==> |h.got| == |h.sent| + lost)
  }

  lemma BalancedStep(h: Half, e: Event, lost: nat)
    requires HalfOk(h) && OpOf(e) in h.pending && Balanced(h, lost)
    requires e.ReadDone? ==> 1 <= |e.data| <= MAX_LENGTH
    requires e.SendDone? ==> 1 <= e.n <= e.asked
    ensures OpOk(h, OpOf(e)) && Balanced(NextHalf(h, e), lost + if e.SendFailed? then e.asked else 0)
  {
    OnlyOp(h, OpOf(e));
  }

  lemma {:induction false} RunsBalance(start: State, events: seq<Event>, side: Side)
    requires Begins(start) && After(start, events).Some?
    ensures Balanced(HalfOf(After(start, events).value, side), Lost(events, side))
    decreases |events|
  {
    if events != [] {
      var e := events[|events| - 1];
      AfterPrefix(start, events);
      RunsKeepInv(start, Prefix(events));
      RunsBalance(start, Prefix(events), side);
      var s := After(start, Prefix(events)).value;
      hide After, HalfOk, Balanced, Enabled, Step, HalfOf;
      BalanceNext(s, e, side, Lost(Prefix(events), side));
    }
  }

  lemma BalanceNext(s: State, e: Event, side: Side, lost: nat)
    requires Inv(s) && Enabled(s, e) && Balanced(HalfOf(s, side), lost)
    ensures Balanced(HalfOf(Step(s, e), side), lost + if e.SendFailed? && e.side == side then e.asked else 0)
  {
    if e.side == side {
      BalancedStep(HalfOf(s, side), e, lost);
    }
  }

  /** Conservation: every byte read is acknowledged, asked for by the pending send, or
      was still owed when a send failed. */
  lemma BytesConserved(start: State, events: seq<Event>, side: Side, owed: nat)
    requires Begins(start) && After(start, events).Some?
    requires
      var pending := HalfOf(After(start, events).value, side).pending;
      if owed > 0 then Send(owed) in pending else forall op :: op in pending ==> op.Read?
    ensures
      var h := HalfOf(After(start, events).value, side);
      |h.got| == |h.sent| + owed + Lost(events, side)
  {
    RunsKeepInv(start, events);
    RunsBalance(start, events, side);
    var h := HalfOf(After(start, events).value, side);
    if owed > 0 {
      OnlyOp(h, Send(owed));
    } else if h.pending != multiset{} {
      var op :| op in h.pending;
      OnlyOp(h, op);
    }
  }

  predicate SendFailedIn(events: seq<Event>, side: Side) {
    exists i :: 0 <= i < |events| && events[i].SendFailed? && events[i].side == side
  }

  lemma SendFailedPrefix(events: seq<Event>, side: Side)
    requires events != []
    ensures
      var e := events[|events| - 1];
      SendFailedIn(events, side) <==> SendFailedIn(Prefix(events), side) || (e.SendFailed? && e.side == side)
  {
    if SendFailedIn(Prefix(events), side) {
      var i :| 0 <= i < |Prefix(events)| && Prefix(events)[i].SendFailed? && Prefix(events)[i].side == side;
      assert events[i].SendFailed?;
    }
    if SendFailedIn(events, side) {
      var i :| 0 <= i < |events| && events[i].SendFailed? && events[i].side == side;
      if i < |events| - 1 {
        assert Prefix(events)[i] == events[i];
      }
    }
  }

  /** A direction that has seen these failures: with its flag exactly after a failed read,
      without it and for good after a failed send, never both; otherwise it has something
      outstanding. */
  predicate StopsAs(h: Half, readFailed: bool, sendFailed: bool) {
    && (h.ended <==> readFailed)
    && (h.pending == multiset{} <==> readFailed || sendFailed)
    && !(readFailed && sendFailed)
  }

  lemma HalfStops(h: Half, e: Event, readFailed: bool, sendFailed: bool)
    requires HalfOk(h) && OpOf(e) in h.pending && StopsAs(h, readFailed, sendFailed)
    requires e.ReadDone? ==> |e.data| <= |h.buffer|
    requires e.SendDone? ==> e.n <= e.asked && e.n <= |h.buffer|
    ensures StopsAs(NextHalf(h, e), readFailed || e.ReadFailed?, sendFailed || e.SendFailed?)
  {
    OnlyOp(h, OpOf(e));
    hide HalfOk;
  }

  lemma StepStops(s: State, e: Event, side: Side, readFailed: bool, sendFailed: bool)
    requires Inv(s) && Enabled(s, e) && StopsAs(HalfOf(s, side), readFailed, sendFailed)
    ensures StopsAs(HalfOf(Step(s, e), side), readFailed || e == ReadFailed(side), sendFailed || (e.SendFailed? && e.side == side))
  {
    hide StopsAs, HalfOk, NextHalf;
    if e.side == side {
      HalfStops(HalfOf(s, side), e, readFailed, sendFailed);
    }
  }

  lemma {:induction false} HowItStops(start: State, events: seq<Event>, side: Side)
    requires Begins(start) && After(start, events).Some?
    ensures StopsAs(HalfOf(After(start, events).value, side), ReadFailed(side) in events, SendFailedIn(events, side))
    decreases |events|
  {
    if events != [] {
      var e := events[|events| - 1];
      AfterPrefix(start, events);
      RunsKeepInv(start, Prefix(events));
      HowItStops(start, Prefix(events), side);
      InPrefix(events, ReadFailed(side));
      SendFailedPrefix(events, side);
      hide *;
      StepStops(After(start, Prefix(events)).value, e, side, ReadFailed(side) in Prefix(events), SendFailedIn(Prefix(events), side));
    }
  }

  /** The sockets are closed explicitly exactly when reads have failed in both
      directions; a failed send therefore means that they never are. */
  lemma ClosedExactlyWhenBothEnded(start: State, events: seq<Event>)
    requires Begins(start) && After(start, events).Some?
    ensures
      var s := After(start, events).value;
      && s.client.closed == s.server.closed
      && (s.client.closed <==> ReadFailed(In) in events && ReadFailed(Out) in events)
      && (forall side :: SendFailedIn(events, side) ==> !s.client.closed)
  {
    RunsKeepInv(start, events);
    HowItStops(start, events, In);
    HowItStops(start, events, Out);
    forall side | SendFailedIn(events, side) ensures ReadFailed(side) !in events {
      HowItStops(start, events, side);
    }
  }

  /** A direction is half-closed at both of its sockets exactly when its reads have failed. */
  lemma HalfClosedExactly(start: State, events: seq<Event>, side: Side)
    requires Begins(start) && After(start, events).Some?
    ensures
      var s := After(start, events).value;
      && (Source(s, side).recvShut <==> ReadFailed(side) in events)
      && (Target(s, side).sendShut <==> ReadFailed(side) in events)
  {
    RunsKeepInv(start, events);
    HowItStops(start, events, side);
    hide After, HalfOk;
  }

  /** Whatever is outstanding may complete in every way: a read with any 1 to 1024 bytes,
      a send with any number of the bytes asked, and either with an error. */
  lemma AnyCompletion(start: State, events: seq<Event>, e: Event)
    requires Begins(start) && After(start, events).Some?
    requires (if e.ReadDone? || e.ReadFailed? then Read else Send(e.asked)) in HalfOf(After(start, events).value, e.side).pending
    requires (e.ReadDone? ==> 1 <= |e.data| <= 1024) && (e.SendDone? ==> 1 <= e.n <= e.asked)
    ensures After(start, events + [e]).Some?
  {
    RunsKeepInv(start, events);
    Completes(After(start, events).value, e);
    hide *;
    AfterMore(start, events, e);
  }

  lemma AfterMore(start: State, events: seq<Event>, e: Event)
    requires After(start, events).Some? && Enabled(After(start, events).value, e)
    ensures After(start, events + [e]) == Some(Step(After(start, events).value, e))
  {
    hide Enabled, Step;
    assert (events + [e])[..|events|] == events;
  }

  lemma Completes(s: State, e: Event)
    requires Inv(s) && (if e.ReadDone? || e.ReadFailed? then Read else Send(e.asked)) in HalfOf(s, e.side).pending
    requires (e.ReadDone? ==> 1 <= |e.data| <= 1024) && (e.SendDone? ==> 1 <= e.n <= e.asked)
    ensures Enabled(s, e)
  {
    HalfCompletes(HalfOf(s, e.side), OpOf(e));
    hide HalfOk;
  }

  lemma HalfCompletes(h: Half, op: Op)
    requires HalfOk(h) && op in h.pending
    ensures |h.buffer| == 1024 && (op.Send? ==> op.n <= 1024)
  {
    OnlyOp(h, op);
  }

  // ---------- The bytes themselves ----------

  predicate FullSends(events: seq<Event>, side: Side) {
    forall i :: 0 <= i < |events| && events[i].SendDone? && events[i].side == side ==> events[i].n == events[i].asked
  }

  /** What is delivered is what was read, and the buffer holds the rest. */
  ghost predicate InOrder(h: Half) {
    && h.sent <= h.got
    && forall n: nat :: Send(n) in h.pending && n <= |h.buffer| ==> h.got == h.sent + h.buffer[..n]
  }

  lemma InOrderStep(h: Half, e: Event)
    requires HalfOk(h) && OpOf(e) in h.pending && InOrder(h)
    requires e.ReadDone? ==> 1 <= |e.data| <= MAX_LENGTH
    requires e.SendDone? ==> 1 <= e.n == e.asked
    ensures OpOk(h, OpOf(e)) && InOrder(NextHalf(h, e))
  {
    OnlyOp(h, OpOf(e));
    var g := NextHalf(h, e);
    if e.ReadDone? {
      assert h.sent == h.got;
      assert g.buffer[..|e.data|] == e.data;
    }
  }

  /** With full sends the delivered stream is a prefix of the read stream, and all of it
      whenever nothing is owed. */
  lemma {:induction false} FullSendsDeliver(start: State, events: seq<Event>, side: Side)
    requires Begins(start) && After(start, events).Some? && FullSends(events, side)
    ensures
      var h := HalfOf(After(start, events).value, side);
      && InOrder(h)
      && (h.ended || h.pending == multiset{Read} ==> h.sent == h.got)
    decreases |events|
  {
    RunsKeepInv(start, events);
    if events != [] {
      var e := events[|events| - 1];
      AfterPrefix(start, events);
      RunsKeepInv(start, Prefix(events));
      FullPrefix(events, side);
      hide After, FullSends, HalfOk, InOrder, Step, Enabled, Prefix, HalfOf;
      FullSendsDeliver(start, Prefix(events), side);
      InOrderNext(After(start, Prefix(events)).value, e, side);
    }
    hide HalfOk, InOrder, FullSends;
    InOrderAll(HalfOf(After(start, events).value, side));
  }

  lemma FullPrefix(events: seq<Event>, side: Side)
    requires events != [] && FullSends(events, side)
    ensures FullSends(Prefix(events), side)
    ensures
      var e := events[|events| - 1];
      e.SendDone? && e.side == side ==> e.n == e.asked
  {
  }

  lemma InOrderNext(s: State, e: Event, side: Side)
    requires Inv(s) && Enabled(s, e) && InOrder(HalfOf(s, side))
    requires e.SendDone? && e.side == side ==> e.n == e.asked
    ensures InOrder(HalfOf(Step(s, e), side))
  {
    if e.side == side {
      InOrderStep(HalfOf(s, side), e);
    }
  }

  lemma InOrderAll(h: Half)
    requires HalfOk(h) && InOrder(h)
    ensures h.ended || h.pending == multiset{Read} ==> h.sent == h.got
  {
    if h.pending == multiset{Read} {
      OnlyOp(h, Read);
    }
  }

  /** The bytes delivered for one read whose sends took these sizes: every retry starts
      again at the beginning of the buffer. */
  function Burst(data: seq<Byte>, sizes: seq<nat>): seq<Byte>
    requires forall i :: 0 <= i < |sizes| ==> sizes[i] <= |data|
  {
    if sizes == [] then [] else data[..sizes[0]] + Burst(data, sizes[1..])
  }

  function Total(sizes: seq<nat>): nat {
    if sizes == [] then 0 else sizes[0] + Total(sizes[1..])
  }

  /** Sizes that a chain of sends for `n` bytes can take. */
  predicate Split(n: nat, sizes: seq<nat>) {
    Total(sizes) == n && forall i :: 0 <= i < |sizes| ==> 1 <= sizes[i] <= n
  }

  /** The chain ends after at most as many sends as there are bytes. */
  lemma {:induction false} RetriesEnd(n: nat, sizes: seq<nat>)
    requires Total(sizes) <= n && forall i :: 0 <= i < |sizes| ==> 1 <= sizes[i]
    ensures |sizes| <= n
  {
    if sizes != [] {
      RetriesEnd(n - sizes[0], sizes[1..]);
    }
  }

  lemma {:induction false} BurstLength(data: seq<Byte>, sizes: seq<nat>)
    requires forall i :: 0 <= i < |sizes| ==> sizes[i] <= |data|
    ensures |Burst(data, sizes)| == Total(sizes)
  {
    if sizes != [] {
      BurstLength(data, sizes[1..]);
    }
  }

  /** A short first send repeats the first byte where the next one belongs. */
  lemma ShortSendRepeats(data: seq<Byte>, sizes: seq<nat>)
    requires |sizes| >= 2 && Split(|data|, sizes)
    ensures |Burst(data, sizes)| == |data| && sizes[0] < |data| && Burst(data, sizes)[sizes[0]] == data[0]
  {
    BurstLength(data, sizes);
    BurstLength(data, sizes[1..]);
    assert Total(sizes[1..]) == sizes[1] + Total(sizes[1..][1..]);
    assert Burst(data, sizes)[sizes[0]] == Burst(data, sizes[1..])[0];
    assert Burst(data, sizes[1..]) == data[..sizes[1]] + Burst(data, sizes[1..][1..]);
  }

  /** The bytes delivered are the bytes read, whatever they are, exactly when one full
      send carried them. */
  lemma ExactOnlyInOneSend(n: nat, sizes: seq<nat>)
    requires 1 <= n && Split(n, sizes)
    ensures (forall data: seq<Byte> :: |data| == n ==> Burst(data, sizes) == data) <==> sizes == [n]
  {
    if |sizes| == 1 {
      assert Total(sizes) == sizes[0] + Total(sizes[1..]);
      assert sizes == [n];
    }
    if sizes == [n] {
      forall data: seq<Byte> | |data| == n ensures Burst(data, sizes) == data {
        assert Burst(data, sizes) == data[..n] + Burst(data, sizes[1..]);
      }
    } else {
      var data: seq<Byte> := seq(n, i => if i == 0 then 1 else 0);
      ShortSendRepeats(data, sizes);
      assert Burst(data, sizes) != data;
    }
  }

  // ---------- What every run delivers ----------

  /** One read and the sizes of the sends that have carried it so far. */
  datatype Chunk = Chunk(data: seq<Byte>, sizes: seq<nat>)

  function WithSize(chunks: seq<Chunk>, n: nat): seq<Chunk> {
    if chunks == [] then []
    else
      var last := chunks[|chunks| - 1];
      chunks[..|chunks| - 1] + [last.(sizes := last.sizes + [n])]
  }

  /** The reads of one direction, in a run in which the other direction does anything. */
  function Chunks(events: seq<Event>, side: Side): seq<Chunk>
    decreases |events|
  {
    if events == [] then []
    else
      MoreChunks(Chunks(events[..|events| - 1], side), events[|events| - 1], side)
  }

  function MoreChunks(chunks: seq<Chunk>, e: Event, side: Side): seq<Chunk> {
    if e.side != side then chunks
    else match e
      case ReadDone(_, data) => chunks + [Chunk(data, [])]
      case SendDone(_, _, n) => WithSize(chunks, n)
      case _ => chunks
  }

  /** The sends of a read are not empty, and carry no more bytes than were read. */
  predicate ChunkOk(c: Chunk) {
    Total(c.sizes) <= |c.data| && forall i :: 0 <= i < |c.sizes| ==> 1 <= c.sizes[i] <= |c.data|
  }

  predicate Whole(c: Chunk) {
    Split(|c.data|, c.sizes)
  }

  function AllRead(chunks: seq<Chunk>): seq<Byte> {
    if chunks == [] then [] else AllRead(chunks[..|chunks| - 1]) + chunks[|chunks| - 1].data
  }

  function AllDelivered(chunks: seq<Chunk>): seq<Byte>
    requires forall c :: c in chunks ==> ChunkOk(c)
  {
    if chunks == [] then []
    else
      var last := chunks[|chunks| - 1];
      assert last in chunks && ChunkOk(last);
      AllDelivered(chunks[..|chunks| - 1]) + Burst(last.data, last.sizes)
  }

  /** What the read in progress still owes, and its data at the front of the buffer. */
  ghost predicate InProgress(h: Half, c: Chunk) {
    && |c.data| <= |h.buffer| && h.buffer[..|c.data|] == c.data
    && (forall n: nat :: Send(n) in h.pending ==> Total(c.sizes) + n == |c.data|)
    && (Read in h.pending || h.ended ==> Whole(c))
  }

  /** Everything read is these chunks, and everything delivered is their bursts. */
  ghost predicate Carries(h: Half, chunks: seq<Chunk>) {
    && (forall c :: c in chunks ==> ChunkOk(c))
    && (forall i :: 0 <= i < |chunks| - 1 ==> Whole(chunks[i]))
    && h.got == AllRead(chunks) && h.sent == AllDelivered(chunks)
    && (if chunks == [] then forall n: nat :: Send(n) !in h.pending else InProgress(h, chunks[|chunks| - 1]))
  }

  lemma {:induction false} TotalMore(sizes: seq<nat>, n: nat)
    ensures Total(sizes + [n]) == Total(sizes) + n
  {
    if sizes != [] {
      assert (sizes + [n])[1..] == sizes[1..] + [n];
      TotalMore(sizes[1..], n);
    } else {
      assert ([n])[1..] == [];
    }
  }

  lemma {:induction false} BurstMore(data: seq<Byte>, sizes: seq<nat>, n: nat)
    requires n <= |data| && forall i :: 0 <= i < |sizes| ==> sizes[i] <= |data|
    ensures (forall i :: 0 <= i < |sizes + [n]| ==> (sizes + [n])[i] <= |data|)
    ensures Burst(data, sizes + [n]) == Burst(data, sizes) + data[..n]
  {
    if sizes != [] {
      assert (sizes + [n])[1..] == sizes[1..] + [n];
      BurstMore(data, sizes[1..], n);
    } else {
      assert ([n])[1..] == [] && Burst(data, [n]) == data[..n] + Burst(data, []);
    }
  }

  lemma SizeMore(c: Chunk, n: nat)
    requires ChunkOk(c) && 1 <= n && Total(c.sizes) + n <= |c.data|
    ensures
      var d := c.(sizes := c.sizes + [n]);
      && ChunkOk(d) && Total(d.sizes) == Total(c.sizes) + n
      && Burst(d.data, d.sizes) == Burst(c.data, c.sizes) + c.data[..n]
  {
    TotalMore(c.sizes, n);
    BurstMore(c.data, c.sizes, n);
  }

  lemma AllMore(chunks: seq<Chunk>, c: Chunk)
    requires ChunkOk(c) && forall d :: d in chunks ==> ChunkOk(d)
    ensures (forall d :: d in chunks + [c] ==> ChunkOk(d))
    ensures AllRead(chunks + [c]) == AllRead(chunks) + c.data
    ensures AllDelivered(chunks + [c]) == AllDelivered(chunks) + Burst(c.data, c.sizes)
  {
    hide ChunkOk;
    assert (chunks + [c])[..|chunks|] == chunks;
  }

  /** A read: a new chunk, all of it owed. */
  lemma ReadCarries(h: Half, chunks: seq<Chunk>, data: seq<Byte>)
    requires HalfOk(h) && Carries(h, chunks) && Read in h.pending && 1 <= |data| <= MAX_LENGTH
    ensures |data| <= |h.buffer| && Carries(Received(Completed(h, Read), data), chunks + [Chunk(data, [])])
  {
    OnlyOp(h, Read);
    var g, c := Received(Completed(h, Read), data), Chunk(data, []);
    AllMore(chunks, c);
    assert g.pending == multiset{Send(|data|)};
    assert g.buffer[..|data|] == data;
    assert AllDelivered(chunks) + [] == AllDelivered(chunks);
    hide HalfOk, AllRead, AllDelivered, ChunkOk;
    forall i | 0 <= i < |chunks| ensures Whole((chunks + [c])[i]) {
      assert (chunks + [c])[i] == chunks[i];
    }
  }

  /** A send: one more size for the read in progress. */
  lemma SendCarries(h: Half, chunks: seq<Chunk>, asked: nat, n: nat)
    requires HalfOk(h) && Carries(h, chunks) && Send(asked) in h.pending && 1 <= n <= asked
    ensures n <= |h.buffer| && Carries(Acknowledged(Completed(h, Send(asked)), asked, n), WithSize(chunks, n))
  {
    OnlyOp(h, Send(asked));
    var m := |chunks| - 1;
    var before, c := chunks[..m], chunks[m];
    assert chunks == before + [c] && c in chunks;
    SizeMore(c, n);
    var d := c.(sizes := c.sizes + [n]);
    AllMore(before, c);
    AllMore(before, d);
    SendProgress(h, c, asked, n);
    hide HalfOk, AllRead, AllDelivered, ChunkOk, InProgress, Total, Burst;
    assert h.buffer[..n] == c.data[..n];
    Associative(AllDelivered(before), Burst(c.data, c.sizes), c.data[..n]);
    forall i | 0 <= i < m ensures Whole((before + [d])[i]) {
      assert (before + [d])[i] == chunks[i];
    }
  }

  lemma SendProgress(h: Half, c: Chunk, asked: nat, n: nat)
    requires HalfOk(h) && InProgress(h, c) && ChunkOk(c) && Send(asked) in h.pending && 1 <= n <= asked
    ensures Total(c.sizes) + n <= |c.data| && n <= |h.buffer| && h.buffer[..n] == c.data[..n]
    ensures InProgress(Acknowledged(Completed(h, Send(asked)), asked, n), c.(sizes := c.sizes + [n]))
  {
    OnlyOp(h, Send(asked));
    SizeMore(c, n);
    var g := Acknowledged(Completed(h, Send(asked)), asked, n);
    assert g.pending == multiset{if asked != n then Send(asked - n) else Read};
    assert h.buffer[..n] == h.buffer[..|c.data|][..n];
    hide Burst;
  }

  lemma Associative(a: seq<Byte>, b: seq<Byte>, c: seq<Byte>)
    ensures (a + b) + c == a + (b + c)
  {
  }

  /** A failure delivers nothing. */
  lemma FailureCarries(h: Half, chunks: seq<Chunk>, e: Event)
    requires HalfOk(h) && Carries(h, chunks) && OpOf(e) in h.pending && (e.ReadFailed? || e.SendFailed?)
    ensures Carries(NextHalf(h, e), chunks)
  {
    OnlyOp(h, OpOf(e));
    hide HalfOk, AllRead, AllDelivered, ChunkOk;
  }

  lemma StepCarries(s: State, e: Event, side: Side, chunks: seq<Chunk>)
    requires Inv(s) && Enabled(s, e) && Carries(HalfOf(s, side), chunks)
    ensures Carries(HalfOf(Step(s, e), side), MoreChunks(chunks, e, side))
  {
    hide HalfOk, Carries, Received, Acknowledged, Completed, WithSize;
    if e.side == side {
      match e {
        case ReadDone(_, data) => ReadCarries(HalfOf(s, side), chunks, data);
        case SendDone(_, asked, n) => SendCarries(HalfOf(s, side), chunks, asked, n);
        case _ => FailureCarries(HalfOf(s, side), chunks, e);
      }
    }
  }

  /** In every run, with any completions of the other direction in between: the bytes
      read are the chunks, the bytes delivered are for each chunk the burst of its sends,
      every chunk but the last has been carried whole, and the last one is whole unless
      its next send is pending or has failed. */
  lemma {:induction false} RunDelivers(start: State, events: seq<Event>, side: Side)
    requires Begins(start) && After(start, events).Some?
    ensures Carries(HalfOf(After(start, events).value, side), Chunks(events, side))
    decreases |events|
  {
    if events != [] {
      AfterPrefix(start, events);
      RunsKeepInv(start, Prefix(events));
      hide After, Carries, Inv, Enabled, Step, HalfOf, MoreChunks;
      RunDelivers(start, Prefix(events), side);
      StepCarries(After(start, Prefix(events)).value, events[|events| - 1], side, Chunks(Prefix(events), side));
    }
  }

  /** A read needs at most as many sends as it has bytes. */
  lemma RetriesBounded(start: State, events: seq<Event>, side: Side, i: nat)
    requires Begins(start) && After(start, events).Some? && i < |Chunks(events, side)|
    ensures |Chunks(events, side)[i].sizes| <= |Chunks(events, side)[i].data|
  {
    RunDelivers(start, events, side);
    hide After, Chunks, AllRead, AllDelivered;
    assert Chunks(events, side)[i] in Chunks(events, side);
    RetriesEnd(|Chunks(events, side)[i].data|, Chunks(events, side)[i].sizes);
  }

  function SendCount(events: seq<Event>, side: Side): nat
    decreases |events|
  {
    if events == [] then 0
    else
      var e := events[|events| - 1];
      SendCount(events[..|events| - 1], side) + if e.SendDone? && e.side == side then 1 else 0
  }

  /** And a direction completes at most as many sends as it has delivered bytes. */
  lemma {:induction false} SendsBounded(start: State, events: seq<Event>, side: Side)
    requires Begins(start) && After(start, events).Some?
    ensures SendCount(events, side) <= |HalfOf(After(start, events).value, side).sent|
    decreases |events|
  {
    if events != [] {
      AfterPrefix(start, events);
      SendsBounded(start, Prefix(events), side);
      hide After;
    }
  }

  lemma EnabledFits(s: State, e: Event)
    requires Enabled(s, e)
    ensures e.ReadDone? ==> |e.data| <= |HalfOf(s, e.side).buffer|
    ensures e.SendDone? ==> e.n <= e.asked && e.n <= |HalfOf(s, e.side).buffer|
  {
  }

  function Shut(s: Sock, recv: bool, both: bool): Sock {
    Sock(s.recvShut || recv, s.sendShut || !recv, s.closed || both)
  }

  lemma StepIs(s: State, e: Event)
    requires Enabled(s, e)
    ensures
      var h, over := NextHalf(HalfOf(s, e.side), e), HalfOf(s, Other(e.side)).ended;
      Step(s, e) == match e
        case ReadFailed(In) => State(h, s.out, Shut(s.client, true, over), Shut(s.server, false, over))
        case ReadFailed(Out) => State(s.inn, h, Shut(s.client, false, over), Shut(s.server, true, over))
        case _ => With(s, e.side, h)
  {
  }

  /** The relay part of a session; the two reads have just been started when it is made. */
  class Session {
    var flag1: bool
    var flag2: bool
    const writeData: array<Byte>
    const readData: array<Byte>
    var client: Sock
    var server: Sock
    var inPending: multiset<Op>
    var outPending: multiset<Op>
    ghost var inGot: seq<Byte>
    ghost var inSent: seq<Byte>
    ghost var outGot: seq<Byte>
    ghost var outSent: seq<Byte>

    ghost function InHalf(): Half
      reads `inPending, `flag1, `inGot, `inSent, writeData
    {
      Half(inPending, writeData[..], flag1, inGot, inSent)
    }

    ghost function OutHalf(): Half
      reads `outPending, `flag2, `outGot, `outSent, readData
    {
      Half(outPending, readData[..], flag2, outGot, outSent)
    }

    ghost function View(): State
      reads this, writeData, readData
    {
      State(InHalf(), OutHalf(), client, server)
    }

    ghost predicate Valid()
      reads this, writeData, readData
    {
      writeData != readData && Inv(View())
    }

    constructor ()
      ensures Valid() && Begins(View()) && fresh(writeData) && fresh(readData)
    {
      flag1, flag2 := false, false;
      writeData := new Byte[MAX_LENGTH];
      readData := new Byte[MAX_LENGTH];
      client, server := Sock(false, false, false), Sock(false, false, false);
      inPending, outPending := multiset{}, multiset{};
      inGot, inSent, outGot, outSent := [], [], [], [];
      new;
      InDoRead();
      OutDoRead();
      assert multiset{} + multiset{Read} == multiset{Read};
      assert View() == Start(writeData[..], readData[..]);
    }

    method InDoRead()
      modifies `inPending
      ensures inPending == old(inPending) + multiset{Read}
    {
      inPending := inPending + multiset{Read};
    }

    method InDoWrite(length: nat)
      modifies `inPending
      ensures inPending == old(inPending) + multiset{Send(length)}
    {
      inPending := inPending + multiset{Send(length)};
    }

    method OutDoRead()
      modifies `outPending
      ensures outPending == old(outPending) + multiset{Read}
    {
      outPending := outPending + multiset{Read};
    }

    method OutDoWrite(length: nat)
      modifies `outPending
      ensures outPending == old(outPending) + multiset{Send(length)}
    {
      outPending := outPending + multiset{Send(length)};
    }

    static method Fill(buffer: array<Byte>, data: seq<Byte>)
      requires |data| <= buffer.Length
      modifies buffer
      ensures buffer[..] == data + old(buffer[..])[|data|..]
    {
      for i := 0 to |data|
        invariant forall k :: 0 <= k < i ==> buffer[k] == data[k]
        invariant forall k :: i <= k < buffer.Length ==> buffer[k] == old(buffer[k])
      {
        buffer[i] := data[i];
      }
    }

    method InReadHandler(failed: bool, data: seq<Byte>)
      requires Valid() && Enabled(View(), if failed then ReadFailed(In) else ReadDone(In, data))
      modifies `inPending, `inGot, `flag1, `client, `server, writeData
      ensures Valid() && View() == Step(old(View()), if failed then ReadFailed(In) else ReadDone(In, data))
    {
      hide Inv, Enabled, Received, Completed;
      ghost var v, e := View(), if failed then ReadFailed(In) else ReadDone(In, data);
      EnabledFits(v, e);
      StepIs(v, e);
      StepKeepsInv(v, e);
      hide Step;
      InCompleted(Read);
      if !failed {
        InReceived(data);
      } else {
        InEnded();
      }
    }

    method InSendHandler(failed: bool, asked: nat, sent: nat)
      requires Valid() && Enabled(View(), if failed then SendFailed(In, asked) else SendDone(In, asked, sent))
      modifies `inPending, `inSent
      ensures Valid() && View() == Step(old(View()), if failed then SendFailed(In, asked) else SendDone(In, asked, sent))
    {
      hide Inv, Enabled, Acknowledged, Completed;
      ghost var v, e := View(), if failed then SendFailed(In, asked) else SendDone(In, asked, sent);
      EnabledFits(v, e);
      StepIs(v, e);
      StepKeepsInv(v, e);
      hide Step;
      InCompleted(Send(asked));
      if !failed {
        InSent(asked, sent);
      }
    }

    method InCompleted(op: Op)
      modifies `inPending
      ensures InHalf() == Completed(old(InHalf()), op)
    {
      inPending := inPending - multiset{op};
    }

    method InReceived(data: seq<Byte>)
      requires |data| <= writeData.Length && writeData != readData
      modifies `inPending, `inGot, writeData
      ensures |data| <= |old(InHalf()).buffer| && InHalf() == Received(old(InHalf()), data)
    {
      Fill(writeData, data);
      inGot := inGot + data;
      InDoWrite(|data|);
    }

    method InEnded()
      modifies `flag1, `client, `server
      ensures InHalf() == old(InHalf()).(ended := true)
      ensures client == Shut(old(client), true, flag2) && server == Shut(old(server), false, flag2)
    {
      flag1 := true;
      client, server := client.(recvShut := true), server.(sendShut := true);
      if flag2 {
        client, server := client.(closed := true), server.(closed := true);
      }
    }

    method InSent(asked: nat, sent: nat)
      requires sent <= asked && sent <= writeData.Length
      modifies `inPending, `inSent
      ensures sent <= |old(InHalf()).buffer| && InHalf() == Acknowledged(old(InHalf()), asked, sent)
    {
      inSent := inSent + writeData[..][..sent];
      if asked != sent {
        InDoWrite(asked - sent);
      } else {
        InDoRead();
      }
    }

    method OutReadHandler(failed: bool, data: seq<Byte>)
      requires Valid() && Enabled(View(), if failed then ReadFailed(Out) else ReadDone(Out, data))
      modifies `outPending, `outGot, `flag2, `client, `server, readData
      ensures Valid() && View() == Step(old(View()), if failed then ReadFailed(Out) else ReadDone(Out, data))
    {
      hide Inv, Enabled, Received, Completed;
      ghost var v, e := View(), if failed then ReadFailed(Out) else ReadDone(Out, data);
      EnabledFits(v, e);
      StepIs(v, e);
      StepKeepsInv(v, e);
      hide Step;
      OutCompleted(Read);
      if !failed {
        OutReceived(data);
      } else {
        OutEnded();
      }
    }

    method OutSendHandler(failed: bool, asked: nat, sent: nat)
      requires Valid() && Enabled(View(), if failed then SendFailed(Out, asked) else SendDone(Out, asked, sent))
      modifies `outPending, `outSent
      ensures Valid() && View() == Step(old(View()), if failed then SendFailed(Out, asked) else SendDone(Out, asked, sent))
    {
      hide Inv, Enabled, Acknowledged, Completed;
      ghost var v, e := View(), if failed then SendFailed(Out, asked) else SendDone(Out, asked, sent);
      EnabledFits(v, e);
      StepIs(v, e);
      StepKeepsInv(v, e);
      hide Step;
      OutCompleted(Send(asked));
      if !failed {
        OutSent(asked, sent);
      }
    }

    method OutCompleted(op: Op)
      modifies `outPending
      ensures OutHalf() == Completed(old(OutHalf()), op)
    {
      outPending := outPending - multiset{op};
    }

    method OutReceived(data: seq<Byte>)
      requires |data| <= readData.Length && writeData != readData
      modifies `outPending, `outGot, readData
      ensures |data| <= |old(OutHalf()).buffer| && OutHalf() == Received(old(OutHalf()), data)
    {
      Fill(readData, data);
      outGot := outGot + data;
      OutDoWrite(|data|);
    }

    method OutEnded()
      modifies `flag2, `client, `server
      ensures OutHalf() == old(OutHalf()).(ended := true)
      ensures server == Shut(old(server), true, flag1) && client == Shut(old(client), false, flag1)
    {
      flag2 := true;
      server, client := server.(recvShut := true), client.(sendShut := true);
      if flag1 {
        client, server := client.(closed := true), server.(closed := true);
      }
    }

    method OutSent(asked: nat, sent: nat)
      requires sent <= asked && sent <= readData.Length
      modifies `outPending, `outSent
      ensures sent <= |old(OutHalf()).buffer| && OutHalf() == Acknowledged(old(OutHalf()), asked, sent)
    {
      outSent := outSent + readData[..][..sent];
      if asked != sent {
        OutDoWrite(asked - sent);
      } else {
        OutDoRead();
      }
    }

    /** One session over any completions, in the order in which they come. */
    method Run(events: seq<Event>)
      requires Valid() && After(View(), events).Some?
      modifies this, writeData, readData
      ensures Valid() && View() == After(old(View()), events).value
    {
      hide Step, Enabled, Inv;
      ghost var start := View();
      assert events[..0] == [] && After(start, []) == Some(start);
      hide After;
      for i := 0 to |events|
        invariant Valid() && After(start, events[..i]) == Some(View())
      {
        var e := events[i];
        NextInRun(start, events, i, View());
        match e {
          case ReadDone(side, data) => if side.In? { InReadHandler(false, data); } else { OutReadHandler(false, data); }
          case ReadFailed(side) => if side.In? { InReadHandler(true, []); } else { OutReadHandler(true, []); }
          case SendDone(side, asked, n) => if side.In? { InSendHandler(false, asked, n); } else { OutSendHandler(false, asked, n); }
          case SendFailed(side, asked) => if side.In? { InSendHandler(true, asked, 0); } else { OutSendHandler(true, asked, 0); }
        }
      }
      assert events[..|events|] == events;
    }
  }

  lemma NextInRun(start: State, events: seq<Event>, i: nat, s: State)
    requires i < |events| && After(start, events).Some? && After(start, events[..i]) == Some(s)
    ensures Enabled(s, events[i]) && After(start, events[..i + 1]) == Some(Step(s, events[i]))
  {
    PossibleUpTo(start, events, i + 1);
    hide Enabled, Step;
    assert events[..i + 1][..i] == events[..i] && events[..i + 1][i] == events[i];
  }

  lemma {:induction false} PossibleUpTo(start: State, events: seq<Event>, n: nat)
    requires n <= |events| && After(start, events).Some?
    ensures After(start, events[..n]).Some?
    decreases |events|
  {
    if n == |events| {
      assert events[..n] == events;
    } else {
      assert events[..|events| - 1][..n] == events[..n];
      PossibleUpTo(start, events[..|events| - 1], n);
    }
  }
}
