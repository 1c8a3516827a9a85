/** The message composer: its text and pending attachments, the send guard,
    the `chat:message` it emits, the message it hands to the store, and the
    attachment list's add and remove. */
module MessageInput {
  import opened Base
  import opened ChatModel
  import opened EventBus
  import ChatSlice
  import Store

  /** The `accept` filter for the file picker of a menu entry. */
  function AcceptType(kind: string): (r: string)
    ensures kind in {"image", "video", "audio"} ==> r == kind + "/*"
    ensures kind !in {"image", "video", "audio"} ==> r == "*/*"
  {
    match kind
    case "image" => "image/*"
    case "video" => "video/*"
    case "audio" => "audio/*"
    case _ => "*/*"
  }

  /** The send guard: there is a socket, and the text is not blank or some
      attachment is pending. */
  function CanSend(text: string, attachments: seq<Attachment>, hasSocket: bool): (b: bool)
    ensures b <==> hasSocket && (!IsBlank(text) || attachments != [])
  {
    (Trim(text) != [] || |attachments| != 0) && hasSocket
  }

  /** The `mediaUrl` of the emitted message: the last attachment's URL. */
  function MediaUrl(attachments: seq<Attachment>): (r: Option<string>)
    ensures r.None? <==> attachments == []
    ensures r.Some? ==> r.value == attachments[|attachments| - 1].url
  {
    if attachments == [] then None else Some(attachments[|attachments| - 1].url)
  }

  /** A falsy value replaced by a default (`v || d`). */
  function OrElse(v: string, d: string): (r: string)
    ensures v != "" ==> r == v
    ensures v == "" ==> r == d
  {
    if v == "" then d else v
  }

  /** The payload the composer gives to `sendMessage`. The sender falls back
      to `"1"` / `"You"`; the kind is `file` exactly when something is
      attached, and the attachment list is absent when nothing is. */
  function DraftFor(activeChatId: string, userId: string, userName: string, text: string,
                    attachments: seq<Attachment>): (d: ChatSlice.Draft)
    ensures d.chatId == activeChatId && d.content == text
    ensures d.senderId == OrElse(userId, "1") && d.senderName == OrElse(userName, "You")
    ensures d.kind == File <==> attachments != []
    ensures d.kind == Text <==> attachments == []
    ensures d.attachments.None? <==> attachments == []
    ensures d.attachments.Some? ==> d.attachments.value == attachments
  {
    ChatSlice.Draft(activeChatId, text, OrElse(userId, "1"), OrElse(userName, "You"),
                    if |attachments| > 0 then Some(attachments) else None,
                    if |attachments| > 0 then File else Text)
  }

  /** What the browser reports for a selected file. */
  datatype FileInfo = FileInfo(name: string, size: nat, mimeType: string)

  /** The attachments made from the selected files; `idOf(k)` and `urlOf(k)`
      stand for the id and the object URL generated for the `k`-th file. */
  function ToAttachments(files: seq<FileInfo>, idOf: nat -> string, urlOf: nat -> string): (r: seq<Attachment>)
    ensures |r| == |files|
    ensures forall k :: 0 <= k < |files| ==>
      r[k] == Attachment(idOf(k), files[k].name, files[k].size, files[k].mimeType, urlOf(k))
  {
    seq(|files|, k requires 0 <= k < |files| =>
      Attachment(idOf(k), files[k].name, files[k].size, files[k].mimeType, urlOf(k)))
  }

  /** The attachment list without the entries carrying `id`. */
  function WithoutAttachment(attachments: seq<Attachment>, id: string): (r: seq<Attachment>)
    ensures forall a :: a in r <==> a in attachments && a.id != id
  {
    Filter(attachments, (a: Attachment) => a.id != id)
  }

  /** Removal keeps the survivors in their order: it distributes over a split. */
  lemma WithoutAttachmentSplit(xs: seq<Attachment>, ys: seq<Attachment>, id: string)
    ensures WithoutAttachment(xs + ys, id) == WithoutAttachment(xs, id) + WithoutAttachment(ys, id)
  {
    FilterAppend(xs, ys, (a: Attachment) => a.id != id);
  }

  /** Removing an attachment just added, under an id no earlier attachment
      has, gives back the earlier list. */
  lemma RemoveUndoesAttach(prev: seq<Attachment>, a: Attachment)
    requires forall b :: b in prev ==> b.id != a.id
    ensures WithoutAttachment(prev + [a], a.id) == prev
  {
    WithoutAttachmentSplit(prev, [a], a.id);
    FilterKeepsAll(prev, (b: Attachment) => b.id != a.id);
    assert WithoutAttachment([a], a.id) == [];
  }

  /** The composer's component state. */
  class Composer {
    var text: string
    var attachments: seq<Attachment>

    constructor ()
      ensures text == "" && attachments == []
    {
      text := "";
      attachments := [];
    }

    /** `handleSend`. `messageId` and `sentAt` are the id and time the store
        gives the message. */
    method HandleSend(socket: EventBus.Socket?, store: Store.ChatStore, userId: string, userName: string,
                      messageId: string, sentAt: string)
      returns (sent: bool)
      modifies this, socket, store
      ensures sent <==> CanSend(old(text), old(attachments), socket != null)
      ensures !sent ==>
        && text == old(text) && attachments == old(attachments)
        && store.State() == old(store.State())
        && (socket != null ==> socket.sent == old(socket.sent) && socket.listeners == old(socket.listeners))
      ensures sent ==>
        && socket.sent == old(socket.sent) + [Publish(old(store.activeChatId), userId, old(text), MediaUrl(old(attachments)))]
        && socket.listeners == old(socket.listeners)
        && store.State() == ChatSlice.SendMessage(old(store.State()),
             DraftFor(old(store.activeChatId), userId, userName, old(text), old(attachments)), messageId, sentAt)
        && text == "" && attachments == []
      ensures Valid(old(store.State())) ==> Valid(store.State())
    {
      if !CanSend(text, attachments, socket != null) {
        return false;
      }
      socket.Emit(Publish(store.activeChatId, userId, text, MediaUrl(attachments)));
      store.SendMessage(DraftFor(store.activeChatId, userId, userName, text, attachments), messageId, sentAt);
      text := "";
      attachments := [];
      return true;
    }

    /** `handleFileChange`: the new attachments go after the existing ones;
        no file list changes nothing. */
    method HandleFileChange(files: Option<seq<FileInfo>>, idOf: nat -> string, urlOf: nat -> string)
      modifies this
      ensures files.None? ==> attachments == old(attachments)
      ensures files.Some? ==> attachments == old(attachments) + ToAttachments(files.value, idOf, urlOf)
      ensures text == old(text)
    {
      if files.None? {
        return;
      }
      attachments := attachments + ToAttachments(files.value, idOf, urlOf);
    }

    /** `removeAttachment`. */
    method RemoveAttachment(id: string)
      modifies this
      ensures attachments == WithoutAttachment(old(attachments), id)
      ensures text == old(text)
    {
      attachments := WithoutAttachment(attachments, id);
    }
  }
}
