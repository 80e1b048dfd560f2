/** Where packets come from: in every run, what is in flight on a channel is an unbroken stretch, in order, of
    what was sent on it, and everything was sent by connecting or by whoever was admin at that time. */
module IbcFlight {
  import opened IbcMsg
  import opened IbcProtocol
  import Reflect

  /** Packets in flight, oldest first: those whose acknowledgement is on its way back, then those on their way. */
  function Flight(l: Link): seq<Packet> {
    seq(|l.acks|, k requires 0 <= k < |l.acks| => l.acks[k].packet) + l.packets
  }

  /** A packet, and the position in the run of the event that sent it. */
  datatype Sending = Sending(at: nat, packet: Packet)

  function Packets(sent: seq<Sending>): seq<Packet> {
    seq(|sent|, k requires 0 <= k < |sent| => sent[k].packet)
  }

  /** The worlds of a run: before every event, and at the end. */
  ghost function Worlds(w: World, es: seq<Event>): (xs: seq<World>)
    ensures |xs| == |es| + 1 && xs[0] == w
    decreases |es|
  {
    if es == [] then [w] else [w] + Worlds(Step(w, es[0]), es[1..])
  }

  /** Between two worlds a packet was put on link i. */
  predicate Enters(x: World, y: World, i: nat) {
    i < |x.links| && i < |y.links| && |y.links[i].packets| > |x.links[i].packets|
  }

  /** Everything a run puts on link i, in order. */
  function Sent(xs: seq<World>, i: nat): seq<Sending>
    requires xs != []
    decreases |xs|
  {
    if |xs| == 1 then []
    else
      var n := |xs| - 2;
      Sent(xs[..n + 1], i) +
      if Enters(xs[n], xs[n + 1], i) then
        var packets := xs[n + 1].links[i].packets;
        [Sending(n, packets[|packets| - 1])]
      else []
  }

  /** The packet is the greeting of a connect, or was sent by the admin of that moment. */
  ghost predicate Authorized(x: World, e: Event, i: nat, p: Packet) {
    i < |x.links| &&
    ((e.Connect? && e.link == i && e.side == SideA && p == WhoAmI) || e == Send(x.admin, x.links[i].a, p))
  }

  // ----- one step on one link -----

  predicate Early(e: End) {
    e in {Absent, Init, TryOpen}
  }

  /** A's end may advance or close, but neither opens nor comes back. */
  predicate Settles(l: Link, l': Link) {
    && (l'.aEnd == Open ==> l.aEnd == Open)
    && (Early(l'.aEnd) ==> Early(l.aEnd))
  }

  ghost predicate Queued(x: World, e: Event, i: nat, l: Link, l': Link) {
    && l'.aEnd == Open && (if e.Connect? then Early(l.aEnd) else l.aEnd == Open)
    && l'.acks == l.acks && |l'.packets| == |l.packets| + 1 && l'.packets[..|l.packets|] == l.packets
    && Authorized(x, e, i, l'.packets[|l.packets|])
  }

  ghost predicate Delivered(l: Link, l': Link) {
    && l.packets != [] && l'.packets == l.packets[1..] && |l'.acks| == |l.acks| + 1
    && l'.acks[..|l.acks|] == l.acks && l'.acks[|l.acks|].packet == l.packets[0]
  }

  /** All that can happen to the packets of a link. */
  ghost predicate Moved(x: World, e: Event, i: nat, l: Link, l': Link) {
    || Queued(x, e, i, l, l')
    || (Settles(l, l') &&
        (|| (l'.packets == l.packets && l'.acks == l.acks)
         || Delivered(l, l')
         || (l.acks != [] && l'.acks == l.acks[1..] && l'.packets == l.packets)
         || (l'.aEnd == Closed && l'.acks == l.acks && l'.packets == [])))
  }

  /** What a step may do to link i, if it exists, or to the link it opens. */
  ghost predicate MovedLink(x: World, e: Event, y: World, i: nat) {
    if i < |x.links| then i < |y.links| && Moved(x, e, i, x.links[i], y.links[i])
    else i < |y.links| ==> y.links[i].packets == [] && y.links[i].acks == [] && Early(y.links[i].aEnd)
  }

  lemma SetLinkMoves(x: World, e: Event, y: World, k: nat, l: Link, i: nat)
    requires k < |x.links| && y.links == x.links[k := l] && (k == i ==> Moved(x, e, i, x.links[i], l))
    ensures MovedLink(x, e, y, i)
  {
  }

  lemma UnchangedMoves(x: World, e: Event, y: World, i: nat)
    requires y.links == x.links
    ensures MovedLink(x, e, y, i)
  {
  }

  lemma ConnectBMoves(x: World, e: Event, k: nat, address: Reflect.Addr, i: nat)
    requires k < |x.links|
    ensures MovedLink(x, e, ConnectB(x, k, address), i)
  {
    var y := ConnectB(x, k, address);
    if y == x {
      UnchangedMoves(x, e, y, i);
    } else {
      SetLinkMoves(x, e, y, k, x.links[k].(bEnd := Open), i);
    }
  }

  lemma CloseBMoves(x: World, e: Event, k: nat, balance: Coins, sendSucceeds: bool, i: nat)
    requires k < |x.links|
    ensures MovedLink(x, e, CloseB(x, k, balance, sendSucceeds), i)
  {
    var y := CloseB(x, k, balance, sendSucceeds);
    if y == x {
      UnchangedMoves(x, e, y, i);
    } else {
      SetLinkMoves(x, e, y, k, x.links[k].(bEnd := Closed), i);
    }
  }

  lemma ReceiveBMoves(x: World, e: Event, k: nat, balance: Coins, i: nat)
    requires k < |x.links| && x.links[k].packets != []
    ensures MovedLink(x, e, ReceiveB(x, k, balance), i)
  {
    var y, l := ReceiveB(x, k, balance), x.links[k];
    if y == x {
      UnchangedMoves(x, e, y, i);
    } else {
      var ack := y.links[k].acks[|l.acks|];
      var l' := l.(packets := l.packets[1..], acks := l.acks + [ack]);
      assert y.links == x.links[k := l'];
      assert Delivered(l, l');
      SetLinkMoves(x, e, y, k, l', i);
    }
  }

  lemma ChannelMoves(x: World, e: Event, i: nat)
    requires e.OpenInit? || e.OpenTry? || e.Connect? || e.Close?
    ensures MovedLink(x, e, Step(x, e), i)
  {
    var y := Step(x, e);
    if y == x {
      UnchangedMoves(x, e, y, i);
    } else {
      match e
      case OpenInit(_, _, _, _, _) =>
      case OpenTry(k, _) =>
        SetLinkMoves(x, e, y, k, y.links[k], i);
      case Connect(k, side, address) =>
        if side == SideA {
          SetLinkMoves(x, e, y, k, y.links[k], i);
        } else {
          ConnectBMoves(x, e, k, address, i);
        }
      case Close(k, side, balance, sendSucceeds) =>
        if side == SideA {
          SetLinkMoves(x, e, y, k, y.links[k], i);
        } else {
          CloseBMoves(x, e, k, balance, sendSucceeds, i);
        }
    }
  }

  lemma PacketMoves(x: World, e: Event, i: nat)
    requires e.Receive? || e.Acknowledge? || e.Timeout? || e.Send?
    ensures MovedLink(x, e, Step(x, e), i)
  {
    var y := Step(x, e);
    if y == x {
      UnchangedMoves(x, e, y, i);
    } else {
      match e
      case Receive(k, balance) => ReceiveBMoves(x, e, k, balance, i);
      case Acknowledge(k, _) => SetLinkMoves(x, e, y, k, y.links[k], i);
      case Timeout(k) => SetLinkMoves(x, e, y, k, y.links[k], i);
      case Send(_, channel, _) =>
        var k := FindLink(x, channel).value;
        SetLinkMoves(x, e, y, k, y.links[k], i);
    }
  }

  lemma StepMoves(x: World, e: Event, i: nat)
    ensures MovedLink(x, e, Step(x, e), i)
  {
    if e.OpenInit? || e.OpenTry? || e.Connect? || e.Close? {
      ChannelMoves(x, e, i);
    } else if e.Receive? || e.Acknowledge? || e.Timeout? || e.Send? {
      PacketMoves(x, e, i);
    } else {
      UnchangedMoves(x, e, Step(x, e), i);
    }
  }

  // ----- runs -----

  ghost predicate AllMove(xs: seq<World>, es: seq<Event>, i: nat) {
    |xs| == |es| + 1 && forall k | 0 <= k < |es| :: MovedLink(xs[k], es[k], xs[k + 1], i)
  }

  lemma {:induction false} WorldsMove(w: World, es: seq<Event>, i: nat)
    ensures AllMove(Worlds(w, es), es, i)
    decreases |es|
  {
    if es != [] {
      StepMoves(w, es[0], i);
      WorldsMove(Step(w, es[0]), es[1..], i);
      ConsMoves(w, es, Worlds(Step(w, es[0]), es[1..]), i);
    }
  }

  lemma ConsMoves(w: World, es: seq<Event>, xs: seq<World>, i: nat)
    requires es != [] && AllMove(xs, es[1..], i) && MovedLink(w, es[0], xs[0], i)
    ensures AllMove([w] + xs, es, i)
  {
    forall k | 0 <= k < |es| ensures MovedLink(([w] + xs)[k], es[k], ([w] + xs)[k + 1], i) {
      if k > 0 {
        assert MovedLink(xs[k - 1], es[1..][k - 1], xs[k], i);
      }
    }
  }

  lemma {:induction false} WorldsEnd(w: World, es: seq<Event>)
    ensures Worlds(w, es)[|es|] == Run(w, es)
    decreases |es|
  {
    if es != [] {
      WorldsEnd(Step(w, es[0]), es[1..]);
    }
  }

  /** What is in flight is a stretch of what was sent, up to the last packet as long as A's end is not closed. */
  ghost predicate Stretch(sent: seq<Packet>, l: Link, lo: nat, hi: nat) {
    lo <= hi <= |sent| && Flight(l) == sent[lo..hi] && (l.aEnd != Closed ==> hi == |sent|)
  }

  ghost predicate Accounted(sent: seq<Sending>, l: Link) {
    && (exists lo, hi :: Stretch(Packets(sent), l, lo, hi))
    && (Early(l.aEnd) ==> sent == [])
    && (l.aEnd == Open ==> sent != [])
  }

  lemma StretchQueued(sent: seq<Packet>, l: Link, l': Link, lo: nat, p: Packet)
    requires Stretch(sent, l, lo, |sent|)
    requires l'.acks == l.acks && l'.packets == l.packets + [p]
    ensures Stretch(sent + [p], l', lo, |sent| + 1)
  {
    assert Flight(l') == Flight(l) + [p];
    assert (sent + [p])[lo..|sent| + 1] == sent[lo..] + [p];
  }

  lemma DeliveredFlight(l: Link, l': Link)
    requires Delivered(l, l')
    ensures Flight(l') == Flight(l)
  {
    var n := |l.acks|;
    forall k | 0 <= k < |Flight(l)| ensures Flight(l')[k] == Flight(l)[k] {
      if k < n {
        assert l'.acks[..n][k] == l.acks[k];
      }
    }
  }

  lemma StretchMoved(sent: seq<Packet>, x: World, e: Event, i: nat, l: Link, l': Link, lo: nat, hi: nat)
    requires Stretch(sent, l, lo, hi) && Moved(x, e, i, l, l') && !Queued(x, e, i, l, l')
    ensures exists lo', hi' :: Stretch(sent, l', lo', hi')
  {
    if Delivered(l, l') {
      DeliveredFlight(l, l');
      assert Stretch(sent, l', lo, hi);
    } else if l'.packets == l.packets && l'.acks == l.acks {
      assert Flight(l') == Flight(l);
      assert Stretch(sent, l', lo, hi);
    } else if l.acks != [] && l'.acks == l.acks[1..] && l'.packets == l.packets {
      assert Flight(l') == Flight(l)[1..];
      assert Flight(l)[1..] == sent[lo + 1..hi];
      assert Stretch(sent, l', lo + 1, hi);
    } else {
      var hi' := lo + |l.acks|;
      assert Flight(l') == Flight(l)[..|l.acks|];
      assert Stretch(sent, l', lo, hi');
    }
  }

  /** What was sent was authorized, one event after another, and only the first packet is a greeting. */
  ghost predicate Logged(xs: seq<World>, es: seq<Event>, i: nat, sent: seq<Sending>)
    requires |xs| == |es| + 1
  {
    && (forall j, k | 0 <= j < k < |sent| :: sent[j].at < sent[k].at)
    && (forall j | 0 <= j < |sent| ::
          && sent[j].at < |es|
          && Authorized(xs[sent[j].at], es[sent[j].at], i, sent[j].packet)
          && (es[sent[j].at].Connect? <==> j == 0))
  }

  ghost predicate Traced(xs: seq<World>, es: seq<Event>, i: nat)
    requires |xs| == |es| + 1
  {
    var sent, x := Sent(xs, i), xs[|es|];
    Logged(xs, es, i, sent) && if i < |x.links| then Accounted(sent, x.links[i]) else sent == []
  }

  lemma LoggedLonger(xs: seq<World>, es: seq<Event>, i: nat, sent: seq<Sending>)
    requires |xs| == |es| + 1 && es != [] && Logged(xs[..|es|], es[..|es| - 1], i, sent)
    ensures Logged(xs, es, i, sent)
  {
  }

  lemma LoggedOneMore(xs: seq<World>, es: seq<Event>, i: nat, sent: seq<Sending>, p: Packet)
    requires |xs| == |es| + 1 && es != [] && Logged(xs[..|es|], es[..|es| - 1], i, sent)
    requires Authorized(xs[|es| - 1], es[|es| - 1], i, p) && (es[|es| - 1].Connect? <==> sent == [])
    ensures Logged(xs, es, i, sent + [Sending(|es| - 1, p)])
  {
    LoggedLonger(xs, es, i, sent);
  }

  lemma {:induction false} AllTraced(xs: seq<World>, es: seq<Event>, i: nat)
    requires AllMove(xs, es, i) && xs[0].links == []
    ensures Traced(xs, es, i)
    decreases |es|
  {
    if es != [] {
      var n := |es| - 1;
      assert AllMove(xs[..n + 1], es[..n], i);
      AllTraced(xs[..n + 1], es[..n], i);
      StepTraced(xs, es, i);
    }
  }

  lemma StepTraced(xs: seq<World>, es: seq<Event>, i: nat)
    requires |xs| == |es| + 1 && es != [] && Traced(xs[..|es|], es[..|es| - 1], i)
    requires MovedLink(xs[|es| - 1], es[|es| - 1], xs[|es|], i)
    ensures Traced(xs, es, i)
  {
    var n := |es| - 1;
    var x, y, before := xs[n], xs[n + 1], Sent(xs[..n + 1], i);
    LoggedLonger(xs, es, i, before);
    if i < |x.links| {
      var l, l' := x.links[i], y.links[i];
      var lo, hi :| Stretch(Packets(before), l, lo, hi);
      if Queued(x, es[n], i, l, l') {
        QueuedTraced(xs, es, i, lo);
      } else {
        assert Sent(xs, i) == before;
        StretchMoved(Packets(before), x, es[n], i, l, l', lo, hi);
      }
    } else if i < |y.links| {
      assert Stretch(Packets(before), y.links[i], 0, 0);
    }
  }

  lemma QueuedTraced(xs: seq<World>, es: seq<Event>, i: nat, lo: nat)
    requires |xs| == |es| + 1 && es != [] && Traced(xs[..|es|], es[..|es| - 1], i)
    requires var x, y, n := xs[|es| - 1], xs[|es|], |es| - 1;
             var sent := Packets(Sent(xs[..n + 1], i));
             && i < |x.links| && i < |y.links| && Queued(x, es[n], i, x.links[i], y.links[i])
             && Stretch(sent, x.links[i], lo, |sent|)
    ensures Traced(xs, es, i)
  {
    var n := |es| - 1;
    var l, l', before := xs[n].links[i], xs[n + 1].links[i], Sent(xs[..n + 1], i);
    var p := l'.packets[|l.packets|];
    assert l'.packets == l.packets + [p];
    assert Sent(xs, i) == before + [Sending(n, p)];
    StretchQueued(Packets(before), l, l', lo, p);
    assert Packets(before + [Sending(n, p)]) == Packets(before) + [p];
    LoggedOneMore(xs, es, i, before, p);
  }

  /** What is in flight is an unbroken stretch of what was sent, in order. */
  ghost predicate InOrder(sent: seq<Sending>, l: Link) {
    exists lo, hi :: 0 <= lo <= hi <= |sent| && Flight(l) == Packets(sent)[lo..hi]
  }

  /** In every run, for every channel: what is in flight is an unbroken stretch of what was sent on it, in order;
      it was sent one event after another, the first packet being the greeting of the connect and every other one
      sent by whoever was admin at that time. */
  lemma EveryPacketWasSent(w: World, es: seq<Event>, i: nat)
    requires Initial(w)
    ensures var xs := Worlds(w, es);
            && xs[|es|] == Run(w, es)
            && Logged(xs, es, i, Sent(xs, i))
            && (i < |xs[|es|].links| ==> InOrder(Sent(xs, i), xs[|es|].links[i]))
  {
    WorldsEnd(w, es);
    WorldsMove(w, es, i);
    AllTraced(Worlds(w, es), es, i);
    TracedInOrder(Worlds(w, es), es, i);
  }

  lemma TracedInOrder(xs: seq<World>, es: seq<Event>, i: nat)
    requires |xs| == |es| + 1 && Traced(xs, es, i)
    ensures i < |xs[|es|].links| ==> InOrder(Sent(xs, i), xs[|es|].links[i])
  {
    if i < |xs[|es|].links| {
      var sent, l := Sent(xs, i), xs[|es|].links[i];
      var lo: nat, hi: nat :| Stretch(Packets(sent), l, lo, hi);
      assert 0 <= lo <= hi <= |sent| && Flight(l) == Packets(sent)[lo..hi];
    }
  }
}
