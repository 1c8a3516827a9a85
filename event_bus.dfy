/** The shared socket as an abstract event bus: the log of what the client
    has emitted, and the table of registered listeners, in registration
    order. Delivering an inbound event calls, in that order, every listener
    registered for the event's name whose chat filter and callback let it
    through. */
module EventBus {
  import opened Base
  import opened ChatModel

  /** The event names the chat session uses: `chat:join`, `chat:message`,
      `group:membersAdded`, `group:membersRemoved`. */
  datatype EventName = ChatJoin | ChatMessage | MembersAdded | MembersRemoved

  /** What the client emits. */
  datatype Outbound =
    | Join(chatId: string, userId: string)
    | Publish(chatId: string, senderId: string, content: string, mediaUrl: Option<string>)

  /** What the server pushes. */
  datatype Inbound =
    | InMessage(message: Message)
    | InMembersAdded(chatId: string, newMembers: seq<string>)
    | InMembersRemoved(chatId: string, removedMembers: seq<string>)

  function NameOf(ev: Inbound): EventName {
    match ev
    case InMessage(_) => ChatMessage
    case InMembersAdded(_, _) => MembersAdded
    case InMembersRemoved(_, _) => MembersRemoved
  }

  /** The chat an inbound event is about. */
  function ChatOf(ev: Inbound): string {
    match ev
    case InMessage(m) => m.chatId
    case InMembersAdded(c, _) => c
    case InMembersRemoved(c, _) => c
  }

  /** One registered listener: the subscription (`owner`) whose effect run
      registered it, the name it listens to, the chat id it compares the
      event against, and whether the callback it forwards to was supplied. */
  datatype Listener = Listener(owner: nat, event: EventName, chatId: string, hasCallback: bool)

  /** A callback invocation: whose callback ran, and with what argument. */
  datatype Call =
    | NewMessage(owner: nat, message: Message)
    | AddedMembers(owner: nat, ids: seq<string>)
    | RemovedMembers(owner: nat, ids: seq<string>)

  /** The call a listener of `owner` makes for `ev`: the message itself, or
      the member list the event carries. */
  function CallFor(owner: nat, ev: Inbound): (c: Call)
    ensures c.owner == owner
    ensures ev.InMessage? <==> c.NewMessage?
    ensures ev.InMessage? ==> c.message == ev.message
    ensures ev.InMembersAdded? ==> c == AddedMembers(owner, ev.newMembers)
    ensures ev.InMembersRemoved? ==> c == RemovedMembers(owner, ev.removedMembers)
  {
    match ev
    case InMessage(m) => NewMessage(owner, m)
    case InMembersAdded(_, ids) => AddedMembers(owner, ids)
    case InMembersRemoved(_, ids) => RemovedMembers(owner, ids)
  }

  /** The listener is registered for this event's name, its chat filter
      matches, and it has a callback to forward to. */
  predicate Fires(l: Listener, ev: Inbound) {
    l.event == NameOf(ev) && l.chatId == ChatOf(ev) && l.hasCallback
  }

  /** The callbacks an inbound event triggers, in registration order. */
  function Deliver(ls: seq<Listener>, ev: Inbound): (r: seq<Call>)
    ensures |r| <= |ls|
    ensures forall k :: 0 <= k < |r| ==> r[k] == CallFor(r[k].owner, ev)
  {
    if ls == [] then []
    else (if Fires(ls[0], ev) then [CallFor(ls[0].owner, ev)] else []) + Deliver(ls[1..], ev)
  }

  /** Some callback of `owner` is among the calls. */
  predicate HasCall(cs: seq<Call>, owner: nat) {
    exists k :: 0 <= k < |cs| && cs[k].owner == owner
  }

  /** Some listener of `owner` lets the event through. */
  predicate OwnerFires(ls: seq<Listener>, owner: nat, ev: Inbound) {
    exists j :: 0 <= j < |ls| && ls[j].owner == owner && Fires(ls[j], ev)
  }

  /** Delivery over two listener tables one after the other. */
  lemma {:induction false} DeliverAppend(a: seq<Listener>, b: seq<Listener>, ev: Inbound)
    ensures Deliver(a + b, ev) == Deliver(a, ev) + Deliver(b, ev)
  {
    if a == [] {
      assert a + b == b;
    } else {
      assert (a + b)[1..] == a[1..] + b;
      DeliverAppend(a[1..], b, ev);
    }
  }

  /** A subscriber's callback runs exactly when one of its listeners fires. */
  lemma {:induction false} DeliverReaches(ls: seq<Listener>, ev: Inbound, owner: nat)
    ensures HasCall(Deliver(ls, ev), owner) <==> OwnerFires(ls, owner, ev)
  {
    if ls != [] {
      DeliverReaches(ls[1..], ev, owner);
      var head := if Fires(ls[0], ev) then [CallFor(ls[0].owner, ev)] else [];
      assert Deliver(ls, ev) == head + Deliver(ls[1..], ev);
      HasCallAppend(head, Deliver(ls[1..], ev), owner);
      OwnerFiresCons(ls, owner, ev);
      assert HasCall(head, owner) <==> ls[0].owner == owner && Fires(ls[0], ev) by {
        if HasCall(head, owner) {
          assert head[0].owner == owner;
        }
        if ls[0].owner == owner && Fires(ls[0], ev) {
          assert head[0].owner == owner;
        }
      }
    }
  }

  lemma HasCallAppend(a: seq<Call>, b: seq<Call>, owner: nat)
    ensures HasCall(a + b, owner) <==> HasCall(a, owner) || HasCall(b, owner)
  {
    if HasCall(a + b, owner) {
      var k :| 0 <= k < |a + b| && (a + b)[k].owner == owner;
      if k >= |a| {
        assert b[k - |a|] == (a + b)[k];
      } else {
        assert a[k] == (a + b)[k];
      }
    }
    if HasCall(a, owner) {
      var k :| 0 <= k < |a| && a[k].owner == owner;
      assert (a + b)[k] == a[k];
    }
    if HasCall(b, owner) {
      var k :| 0 <= k < |b| && b[k].owner == owner;
      assert (a + b)[|a| + k] == b[k];
    }
  }

  lemma OwnerFiresCons(ls: seq<Listener>, owner: nat, ev: Inbound)
    requires ls != []
    ensures OwnerFires(ls, owner, ev) <==> (ls[0].owner == owner && Fires(ls[0], ev)) || OwnerFires(ls[1..], owner, ev)
  {
    if OwnerFires(ls[1..], owner, ev) {
      var j :| 0 <= j < |ls[1..]| && ls[1..][j].owner == owner && Fires(ls[1..][j], ev);
      assert ls[j + 1] == ls[1..][j];
    }
    if OwnerFires(ls, owner, ev) {
      var j :| 0 <= j < |ls| && ls[j].owner == owner && Fires(ls[j], ev);
      if j > 0 {
        assert ls[1..][j - 1] == ls[j];
      }
    }
  }

  /** When no listener fires, no callback runs. */
  lemma {:induction false} DeliverNone(ls: seq<Listener>, ev: Inbound)
    requires forall l :: l in ls ==> !Fires(l, ev)
    ensures Deliver(ls, ev) == []
  {
    if ls != [] {
      assert forall l :: l in ls[1..] ==> l in ls;
      DeliverNone(ls[1..], ev);
    }
  }

  /** `socket.off(name)`: every listener registered for `name` is dropped,
      whoever registered it; the others stay, in order. */
  function WithoutEvent(ls: seq<Listener>, name: EventName): (r: seq<Listener>)
    ensures forall l :: l in r <==> l in ls && l.event != name
  {
    Filter(ls, (l: Listener) => l.event != name)
  }

  /** `socket.off(name, handler)`: only the given subscriber's listener for
      `name` is dropped. */
  function WithoutHandler(ls: seq<Listener>, name: EventName, owner: nat): (r: seq<Listener>)
    ensures forall l :: l in r <==> l in ls && !(l.event == name && l.owner == owner)
  {
    Filter(ls, (l: Listener) => !(l.event == name && l.owner == owner))
  }

  /** The shared client socket. */
  class Socket {
    var listeners: seq<Listener>
    var sent: seq<Outbound>

    constructor ()
      ensures listeners == [] && sent == []
    {
      listeners := [];
      sent := [];
    }

    /** `socket.emit`: the event joins the outbound log. */
    method Emit(o: Outbound)
      modifies this
      ensures sent == old(sent) + [o] && listeners == old(listeners)
    {
      sent := sent + [o];
    }

    /** `socket.on`: the listener is registered after the existing ones. */
    method On(l: Listener)
      modifies this
      ensures listeners == old(listeners) + [l] && sent == old(sent)
    {
      listeners := listeners + [l];
    }

    /** `socket.off(name)`. */
    method Off(name: EventName)
      modifies this
      ensures listeners == WithoutEvent(old(listeners), name) && sent == old(sent)
    {
      listeners := WithoutEvent(listeners, name);
    }

    /** `socket.off(name, handler)`. */
    method OffHandler(name: EventName, owner: nat)
      modifies this
      ensures listeners == WithoutHandler(old(listeners), name, owner) && sent == old(sent)
    {
      listeners := WithoutHandler(listeners, name, owner);
    }
  }
}
