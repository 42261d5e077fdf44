// The chat window: the live message list of one chat and the composer.
// The store query orders messages by `createdAt`; the component keeps
// whatever order the snapshot has. Sending writes one message document and
// touches nothing else: there is no local echo, and the chat's
// `lastMessage`/`updatedAt` are not updated here.
module ChatWindow {
  import opened Common
  import opened Store
  import Text

  /** A message document; `createdAt` is the server time, once assigned. */
  datatype MessageData = MessageData(text: string, senderId: string, createdAt: Option<Stamp>)

  type Message = Entry<MessageData>

  /** The document `addDoc` is given by a send. */
  function OutgoingMessage(text: string, senderId: string): MessageData {
    MessageData(text, senderId, Some(ServerTime))
  }

  class ChatWindowView {
    /** The open chat; '' stands for a missing (falsy) id. */
    const chatId: string
    /** `currentUser.uid` */
    const currentUid: string
    /** Whether the message listener was attached (only for a truthy chat id). */
    const subscribed: bool
    var messages: seq<Message>
    var newMessage: string
    var loading: bool

    constructor (chatId: string, currentUid: string)
      ensures this.chatId == chatId && this.currentUid == currentUid
      ensures subscribed <==> chatId != ""
      ensures messages == [] && newMessage == "" && loading
    {
      this.chatId := chatId;
      this.currentUid := currentUid;
      subscribed := chatId != "";
      messages := [];
      newMessage := "";
      loading := true;
    }

    /** A snapshot replaces the messages, in snapshot order, and ends loading. */
    method OnSnapshot(docs: seq<Doc<MessageData>>)
      requires subscribed
      modifies this`messages, this`loading
      ensures messages == Hydrate(docs) && !loading
    {
      messages := Hydrate(docs);
      loading := false;
    }

    /** The input's `onChange`. */
    method Edit(text: string)
      modifies this`newMessage
      ensures newMessage == text
    {
      newMessage := text;
    }

    /**
     * `disabled={!newMessage.trim()}` on the send button, negated: the
     * button is enabled exactly when the composer holds a character that
     * is not white space.
     */
    function CanSend(): (enabled: bool)
      reads this
      ensures enabled <==> exists i :: 0 <= i < |newMessage| && !Text.IsWhitespace(newMessage[i])
    {
      !Text.IsBlank(newMessage)
    }

    /**
     * `msg.senderId === currentUser.uid`: the bubble is drawn as the
     * user's own exactly when the user sent it, so every message this view
     * writes is drawn as its own.
     */
    function IsMine(msg: Message): (mine: bool)
      ensures mine <==> msg.data.senderId == currentUid
      ensures msg.data == OutgoingMessage(msg.data.text, currentUid) ==> mine
    {
      msg.data.senderId == currentUid
    }

    /**
     * `handleSendMessage`. Blank input returns before any write. Without a
     * chat id the message path cannot be built, so the `catch` runs: no
     * write, and the composer keeps its text. Otherwise the untrimmed text
     * is written with the user's id; the composer is cleared only when the
     * write succeeded, and on failure only an error is reported. Returns
     * the document written, if a write was attempted.
     */
    method SendMessage(writeSucceeds: bool) returns (written: Option<MessageData>)
      modifies this`newMessage
      ensures written.Some? <==> old(CanSend()) && chatId != ""
      ensures written.Some? ==> written.value == OutgoingMessage(old(newMessage), currentUid)
      ensures written.Some? ==> !Text.IsBlank(written.value.text)
      ensures newMessage == (if written.Some? && writeSucceeds then "" else old(newMessage))
    {
      if Text.IsBlank(newMessage) {
        return None;
      }
      if chatId == "" {
        return None;
      }
      written := Some(OutgoingMessage(newMessage, currentUid));
      if writeSucceeds {
        newMessage := "";
      }
    }
  }
}
