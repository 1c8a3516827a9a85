/** The `useChatSocket` effect: with a socket and a chat id it emits the join,
    registers three listeners that forward only events about that chat, and
    its cleanup removes listeners by event name. Several components subscribe
    on the one shared socket; each effect run is told apart by its `owner`. */
module ChatSocketHook {
  import opened Base
  import opened ChatModel
  import opened EventBus

  /** The names the cleanup releases: every name but `chat:join`. */
  predicate SessionEvent(n: EventName) {
    n == ChatMessage || n == MembersAdded || n == MembersRemoved
  }

  /** The three listeners one effect run registers, in order. The
      `chat:message` listener calls `onNewMessage` without checking it. */
  function Registrations(owner: nat, chatId: string, hasAdded: bool, hasRemoved: bool): (r: seq<Listener>)
    ensures |r| == 3
    ensures forall l :: l in r ==> l.owner == owner && l.chatId == chatId && SessionEvent(l.event)
  {
    [ Listener(owner, ChatMessage, chatId, true),
      Listener(owner, MembersAdded, chatId, hasAdded),
      Listener(owner, MembersRemoved, chatId, hasRemoved) ]
  }

  /** The subscription lets `ev` through: it is about the subscribed chat and
      the matching callback was supplied. */
  predicate Accepts(chatId: string, hasAdded: bool, hasRemoved: bool, ev: Inbound) {
    && ChatOf(ev) == chatId
    && match ev
       case InMessage(_) => true
       case InMembersAdded(_, _) => hasAdded
       case InMembersRemoved(_, _) => hasRemoved
  }

  /** One run of the effect body. */
  method Subscribe(socket: Socket?, chatId: string, activeUserId: string, owner: nat, hasAdded: bool, hasRemoved: bool)
    returns (subscribed: bool)
    modifies socket
    ensures subscribed <==> socket != null && chatId != ""
    ensures socket != null && !subscribed ==>
      socket.listeners == old(socket.listeners) && socket.sent == old(socket.sent)
    ensures subscribed ==>
      && socket.sent == old(socket.sent) + [Join(chatId, activeUserId)]
      && socket.listeners == old(socket.listeners) + Registrations(owner, chatId, hasAdded, hasRemoved)
  {
    if socket == null || chatId == "" {
      return false;
    }
    socket.Emit(Join(chatId, activeUserId));
    socket.On(Listener(owner, ChatMessage, chatId, true));
    socket.On(Listener(owner, MembersAdded, chatId, hasAdded));
    socket.On(Listener(owner, MembersRemoved, chatId, hasRemoved));
    return true;
  }

  /** The listener table after the cleanup's three `off(name)` calls. */
  function OffAll(ls: seq<Listener>): (r: seq<Listener>)
    ensures forall l :: l in r <==> l in ls && !SessionEvent(l.event)
  {
    WithoutEvent(WithoutEvent(WithoutEvent(ls, ChatMessage), MembersAdded), MembersRemoved)
  }

  /** The cleanup the effect returns: every listener for the three names goes,
      whichever subscription registered it. */
  method Cleanup(socket: Socket)
    modifies socket
    ensures socket.listeners == OffAll(old(socket.listeners)) && socket.sent == old(socket.sent)
  {
    socket.Off(ChatMessage);
    socket.Off(MembersAdded);
    socket.Off(MembersRemoved);
  }

  /** A dependency change: the previous run's cleanup, then the effect again.
      `previous` is the socket the previous run's cleanup closed over, null
      when that run returned at the guard and left no cleanup. */
  method Rerun(previous: Socket?, socket: Socket?, chatId: string, activeUserId: string,
               owner: nat, hasAdded: bool, hasRemoved: bool)
    returns (subscribed: bool)
    modifies previous, socket
    ensures subscribed <==> socket != null && chatId != ""
    ensures previous != null && previous != socket ==>
      previous.listeners == OffAll(old(previous.listeners)) && previous.sent == old(previous.sent)
    ensures socket != null ==>
      socket.sent == old(socket.sent) + (if subscribed then [Join(chatId, activeUserId)] else [])
    ensures socket != null ==>
      socket.listeners ==
        (if socket == previous then OffAll(old(socket.listeners)) else old(socket.listeners))
        + (if subscribed then Registrations(owner, chatId, hasAdded, hasRemoved) else [])
  {
    if previous != null {
      Cleanup(previous);
    }
    subscribed := Subscribe(socket, chatId, activeUserId, owner, hasAdded, hasRemoved);
  }

  // ---------------------------------------------------------------------
  // What reaches the callbacks
  // ---------------------------------------------------------------------

  /** `OwnerFires` in terms of membership. */
  lemma OwnerFiresIn(ls: seq<Listener>, owner: nat, ev: Inbound)
    ensures OwnerFires(ls, owner, ev) <==> exists l :: l in ls && l.owner == owner && Fires(l, ev)
  {
    if exists l :: l in ls && l.owner == owner && Fires(l, ev) {
      var l :| l in ls && l.owner == owner && Fires(l, ev);
      var j :| 0 <= j < |ls| && ls[j] == l;
    }
  }

  /** The listeners of one run fire exactly for the events the subscription accepts. */
  lemma RegistrationsFire(owner: nat, chatId: string, hasAdded: bool, hasRemoved: bool, ev: Inbound)
    ensures (exists l :: l in Registrations(owner, chatId, hasAdded, hasRemoved) && Fires(l, ev))
            <==> Accepts(chatId, hasAdded, hasRemoved, ev)
  {
    var r := Registrations(owner, chatId, hasAdded, hasRemoved);
    if Accepts(chatId, hasAdded, hasRemoved, ev) {
      match ev
      case InMessage(_) => assert Fires(r[0], ev);
      case InMembersAdded(_, _) => assert Fires(r[1], ev);
      case InMembersRemoved(_, _) => assert Fires(r[2], ev);
    }
  }

  /** A fresh subscription's callbacks run for an inbound event if and only if
      it is about the subscribed chat and the matching callback was supplied,
      whatever else is registered on the socket. */
  lemma SubscriptionFilters(ls: seq<Listener>, owner: nat, chatId: string, hasAdded: bool, hasRemoved: bool, ev: Inbound)
    requires forall l :: l in ls ==> l.owner != owner
    ensures HasCall(Deliver(ls + Registrations(owner, chatId, hasAdded, hasRemoved), ev), owner)
            <==> Accepts(chatId, hasAdded, hasRemoved, ev)
  {
    var r := Registrations(owner, chatId, hasAdded, hasRemoved);
    DeliverReaches(ls + r, ev, owner);
    OwnerFiresIn(ls + r, owner, ev);
    RegistrationsFire(owner, chatId, hasAdded, hasRemoved, ev);
    if exists l :: l in r && Fires(l, ev) {
      var l :| l in r && Fires(l, ev);
      assert l in ls + r;
    }
  }

  /** After the cleanup no callback runs for any inbound event, whoever
      registered the listeners. */
  lemma CleanupSilences(ls: seq<Listener>, ev: Inbound)
    ensures Deliver(OffAll(ls), ev) == []
  {
    forall l | l in OffAll(ls) ensures !Fires(l, ev) {
      assert !SessionEvent(l.event);
    }
    DeliverNone(OffAll(ls), ev);
  }

  /** The listeners of one run deliver the one call its subscription accepts. */
  lemma RegistrationsDeliver(owner: nat, chatId: string, hasAdded: bool, hasRemoved: bool, ev: Inbound)
    ensures Deliver(Registrations(owner, chatId, hasAdded, hasRemoved), ev)
            == if Accepts(chatId, hasAdded, hasRemoved, ev) then [CallFor(owner, ev)] else []
  {
    var r := Registrations(owner, chatId, hasAdded, hasRemoved);
    assert r[1..][1..][1..] == [];
    assert Deliver(r[1..][1..], ev) == (if Fires(r[2], ev) then [CallFor(owner, ev)] else []);
    assert Deliver(r[1..], ev) == (if Fires(r[1], ev) then [CallFor(owner, ev)] else []) + Deliver(r[1..][1..], ev);
    assert Deliver(r, ev) == (if Fires(r[0], ev) then [CallFor(owner, ev)] else []) + Deliver(r[1..], ev);
  }

  /** After a re-run on the same socket (for instance on switching chat),
      an inbound event reaches exactly the re-run subscription, and only when
      it accepts the event: events for the old chat reach nobody. */
  lemma RerunDelivers(ls: seq<Listener>, owner: nat, chatId: string, hasAdded: bool, hasRemoved: bool, ev: Inbound)
    ensures Deliver(OffAll(ls) + Registrations(owner, chatId, hasAdded, hasRemoved), ev)
            == if Accepts(chatId, hasAdded, hasRemoved, ev) then [CallFor(owner, ev)] else []
  {
    DeliverAppend(OffAll(ls), Registrations(owner, chatId, hasAdded, hasRemoved), ev);
    CleanupSilences(ls, ev);
    RegistrationsDeliver(owner, chatId, hasAdded, hasRemoved, ev);
  }

  // ---------------------------------------------------------------------
  // Two subscriptions on one socket
  // ---------------------------------------------------------------------

  /** As written: two subscriptions to the same chat (the message list and
      the message input both subscribe). When one of them re-runs, its
      by-name cleanup also removes the other's listener, so a message for the
      chat that used to reach the other subscription now reaches only the
      re-run one. */
  lemma SiblingRerunDropsListener(m: Message, other: nat, owner: nat)
    requires other != owner
    ensures HasCall(Deliver(Registrations(other, m.chatId, false, false)
                            + Registrations(owner, m.chatId, false, false), InMessage(m)), other)
    ensures Deliver(OffAll(Registrations(other, m.chatId, false, false)
                           + Registrations(owner, m.chatId, false, false))
                    + Registrations(owner, m.chatId, false, false), InMessage(m))
            == [NewMessage(owner, m)]
  {
    var a := Registrations(other, m.chatId, false, false);
    var b := Registrations(owner, m.chatId, false, false);
    DeliverAppend(a, b, InMessage(m));
    RegistrationsDeliver(other, m.chatId, false, false, InMessage(m));
    assert Deliver(a + b, InMessage(m))[0].owner == other;
    RerunDelivers(a + b, owner, m.chatId, false, false, InMessage(m));
  }

  /** The listener table after removing only one subscription's own three
      handlers (`off(name, handler)` for each name). */
  function ReleaseOwn(ls: seq<Listener>, owner: nat): (r: seq<Listener>)
    ensures forall l :: l in r <==> l in ls && !(l.owner == owner && SessionEvent(l.event))
  {
    WithoutHandler(WithoutHandler(WithoutHandler(ls, ChatMessage, owner), MembersAdded, owner), MembersRemoved, owner)
  }

  /** A cleanup that removes only this run's handlers. */
  method CleanupOwn(socket: Socket, owner: nat)
    modifies socket
    ensures socket.listeners == ReleaseOwn(old(socket.listeners), owner) && socket.sent == old(socket.sent)
  {
    socket.OffHandler(ChatMessage, owner);
    socket.OffHandler(MembersAdded, owner);
    socket.OffHandler(MembersRemoved, owner);
  }

  /** A dependency change with the handler-scoped cleanup. */
  method RerunScoped(previous: Socket?, socket: Socket?, chatId: string, activeUserId: string,
                     owner: nat, hasAdded: bool, hasRemoved: bool)
    returns (subscribed: bool)
    modifies previous, socket
    ensures subscribed <==> socket != null && chatId != ""
    ensures previous != null && previous != socket ==>
      previous.listeners == ReleaseOwn(old(previous.listeners), owner) && previous.sent == old(previous.sent)
    ensures socket != null ==>
      socket.sent == old(socket.sent) + (if subscribed then [Join(chatId, activeUserId)] else [])
    ensures socket != null ==>
      socket.listeners ==
        (if socket == previous then ReleaseOwn(old(socket.listeners), owner) else old(socket.listeners))
        + (if subscribed then Registrations(owner, chatId, hasAdded, hasRemoved) else [])
  {
    if previous != null {
      CleanupOwn(previous, owner);
    }
    subscribed := Subscribe(socket, chatId, activeUserId, owner, hasAdded, hasRemoved);
  }

  /** With the handler-scoped cleanup, a re-run of one subscription leaves
      every other subscription's deliveries as they were. */
  lemma ScopedRerunKeepsOthers(ls: seq<Listener>, owner: nat, chatId: string, hasAdded: bool, hasRemoved: bool,
                               ev: Inbound, other: nat)
    requires other != owner
    ensures HasCall(Deliver(ReleaseOwn(ls, owner) + Registrations(owner, chatId, hasAdded, hasRemoved), ev), other)
            <==> HasCall(Deliver(ls, ev), other)
  {
    var after := ReleaseOwn(ls, owner) + Registrations(owner, chatId, hasAdded, hasRemoved);
    DeliverReaches(after, ev, other);
    DeliverReaches(ls, ev, other);
    OwnerFiresIn(after, other, ev);
    OwnerFiresIn(ls, other, ev);
    if exists l :: l in ls && l.owner == other && Fires(l, ev) {
      var l :| l in ls && l.owner == other && Fires(l, ev);
      assert l in after;
    }
  }

  /** Corrected: in the two-subscription situation above, the other
      subscription still receives the message after the re-run. */
  lemma ScopedSiblingRerunKeepsListener(m: Message, other: nat, owner: nat)
    requires other != owner
    ensures HasCall(Deliver(ReleaseOwn(Registrations(other, m.chatId, false, false)
                                       + Registrations(owner, m.chatId, false, false), owner)
                            + Registrations(owner, m.chatId, false, false), InMessage(m)), other)
  {
    var a := Registrations(other, m.chatId, false, false);
    var b := Registrations(owner, m.chatId, false, false);
    DeliverAppend(a, b, InMessage(m));
    RegistrationsDeliver(other, m.chatId, false, false, InMessage(m));
    assert Deliver(a + b, InMessage(m))[0].owner == other;
    ScopedRerunKeepsOthers(a + b, owner, m.chatId, false, false, InMessage(m), other);
  }
}
