/** The chat panel of a conversation (src/components/Chat.tsx): it loads the
    conversation's messages, sends the trimmed input and appends the server's
    copy, and marks each message as the signed-in user's own or the other's. */
module Chat {
  import opened Wrappers
  import opened Strings
  import opened Records

  /** The server's answer to POST /messages: the stored message, or a refusal
      that may carry the server's own error text. */
  datatype Reply = Delivered(message: Message) | Refused(serverMessage: Option<string>)

  /** The side a message bubble is drawn on. */
  datatype Side = Own | Other

  /** `message.userId === currentUser?._id`: the signed-in user's messages go to
      the right, everything else (and everything when nobody is signed in) to the left. */
  function SideOf(m: Message, me: Option<User>): (side: Side)
    ensures side == Own <==> me.Some? && m.userId == me.value.id
  {
    if IsCurrentUser(m.userId, me) then Own else Other
  }

  /** The send button is disabled while a send is in flight or while the input
      holds nothing but white space. */
  predicate SendDisabled(newMessage: string, loading: bool)
  {
    IsBlank(newMessage) || loading
  }

  lemma SendDisabledIff(newMessage: string, loading: bool)
    ensures SendDisabled(newMessage, loading) <==> loading || forall i :: 0 <= i < |newMessage| ==> IsSpace(newMessage[i])
  {
    BlankIffAllSpace(newMessage);
  }

  /** The error toast after a refused send: the server's message when it has a
      non-empty one, the generic text otherwise. */
  function SendErrorText(serverMessage: Option<string>): (t: string)
    ensures t != ""
    ensures IsPresent(serverMessage) ==> t == serverMessage.value
    ensures !IsPresent(serverMessage) ==> t == "Failed to send message"
  {
    if IsPresent(serverMessage) then serverMessage.value else "Failed to send message"
  }

  /** The list, the input and the toast after a send that reached the server:
      success appends the stored message and clears the input; a refusal keeps
      both and shows the error text. */
  predicate SendOutcome(reply: Reply, messagesBefore: seq<Message>, inputBefore: string,
                        messages: seq<Message>, input: string, toast: Option<string>)
  {
    match reply
    case Delivered(m) =>
      messages == messagesBefore + [m] && input == "" && toast == Some("Message sent!")
    case Refused(serverMessage) =>
      messages == messagesBefore && input == inputBefore && toast == Some(SendErrorText(serverMessage))
  }

  /** The component state of the chat panel for one conversation. */
  class ChatBox {
    const conversationId: string
    var messages: seq<Message>
    var newMessage: string
    var loading: bool

    constructor (id: string)
      ensures conversationId == id && messages == [] && newMessage == "" && !loading
    {
      conversationId := id;
      messages := [];
      newMessage := "";
      loading := false;
    }

    /** The input's change handler. */
    method SetNewMessage(text: string)
      modifies this
      ensures newMessage == text && messages == old(messages) && loading == old(loading)
    {
      newMessage := text;
    }

    /** The load effect: GET /messages/:conversationId when the id is non-empty;
        the answer replaces the list, a failure only raises a toast. */
    method FetchMessages(response: Outcome<seq<Message>>) returns (requested: bool, toast: Option<string>)
      modifies this
      ensures requested <==> conversationId != ""
      ensures requested && response.Ok? ==> messages == response.payload && toast == None
      ensures requested && response.Fail? ==> messages == old(messages) && toast == Some("Failed to load messages")
      ensures !requested ==> messages == old(messages) && toast == None
      ensures newMessage == old(newMessage) && loading == old(loading)
    {
      requested := conversationId != "";
      toast := None;
      if requested {
        if response.Ok? {
          messages := response.payload;
        } else {
          toast := Some("Failed to load messages");
        }
      }
    }

    /** The form's submit handler. A blank input or a missing user stops it before
        anything happens; otherwise the trimmed text is sent. */
    method HandleSendMessage(me: Option<User>, reply: Reply)
      returns (sent: Option<string>, toast: Option<string>, ghost loadingAtRequest: bool)
      modifies this
      ensures IsBlank(old(newMessage)) || me.None? ==>
        && sent == None && toast == None
        && messages == old(messages) && newMessage == old(newMessage) && loading == old(loading)
      ensures !IsBlank(old(newMessage)) && me.Some? ==>
        && sent == Some(Trim(old(newMessage)))
        && loadingAtRequest && !loading
        && SendOutcome(reply, old(messages), old(newMessage), messages, newMessage, toast)
      ensures sent.Some? ==> !IsBlank(sent.value) && |sent.value| <= |old(newMessage)|
      ensures sent.Some? ==> !SendDisabled(old(newMessage), false)
    {
      sent := None;
      toast := None;
      loadingAtRequest := loading;
      if IsBlank(newMessage) || me.None? {
        return;
      }
      var text := Trim(newMessage);
      TrimIdempotent(newMessage);
      sent := Some(text);
      toast, loadingAtRequest := PostMessage(reply);
    }

    /** The `try` block of the send: loading is set for the request; the server's
        message is appended and the input cleared on success, only a toast is
        raised on failure, and loading is reset either way. */
    method PostMessage(reply: Reply) returns (toast: Option<string>, ghost loadingAtRequest: bool)
      modifies this
      ensures loadingAtRequest && !loading
      ensures SendOutcome(reply, old(messages), old(newMessage), messages, newMessage, toast)
    {
      loading := true;
      loadingAtRequest := loading;
      match reply {
        case Delivered(m) =>
          messages := messages + [m];
          newMessage := "";
          toast := Some("Message sent!");
        case Refused(serverMessage) =>
          toast := Some(SendErrorText(serverMessage));
      }
      loading := false;
    }
  }
}
