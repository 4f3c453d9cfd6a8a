/**
 * The logic of the chat view in src/components/chat/ChatRoom.tsx: the input
 * text and the error shown under it, the send handler with its validation
 * gate, the rule that disables the send button, and the effect that loads
 * and subscribes when the view mounts and unsubscribes when it goes away.
 *
 * The signed-in user is the auth store's `user`, passed in; the chat store is
 * the object the view drives. What the service answers to each call the
 * store makes is a parameter, as in the store itself.
 */
module ChatRoom {
  import opened Types
  import opened Text
  import opened Validation
  import opened ChatStore

  /** The state the view keeps of its own: the text being typed and the message error. */
  class ChatRoom {
    var newMessage: string
    var messageError: string

    /** The view as first rendered: an empty input and no error. */
    constructor ()
      ensures newMessage == "" && messageError == ""
    {
      newMessage, messageError := "", "";
    }

    /**
     * The send button's `disabled={!newMessage.trim()}`: disabled exactly
     * when the input holds white space only, which is also exactly when
     * validateMessage reports the message as empty.
     */
    function SendDisabled(): (disabled: bool)
      reads this
      ensures disabled <==> IsBlank(newMessage)
      ensures disabled <==> MessageEmpty in FailedMessages(MessageChecks(newMessage))
    {
      TrimEmptyIffBlank(newMessage);
      FailedMessagesOfTwo(MessageChecks(newMessage));
      Trim(newMessage) == ""
    }

    /** The input's onChange: the new text replaces the old, and a shown error is cleared. */
    method OnInputChange(value: string)
      modifies this
      ensures newMessage == value
      ensures messageError == ""
    {
      newMessage := value;
      if messageError != "" {
        messageError := "";
      }
    }

    /**
     * handleSendMessage. With no signed-in user nothing happens. Content
     * validateMessage rejects gets its first error shown and is not sent;
     * the chat store is untouched. Otherwise the error is cleared, the
     * content goes to sendMessage with the user's id, name and avatar, and
     * the input is emptied. `sent` is what was handed to sendMessage.
     */
    method HandleSendMessage(user: Option<AuthUser>, chat: ChatStore, inserted: Settled<Option<Message>>)
      returns (sent: Option<NewMessage>)
      modifies this, chat
      ensures user.None? ==> sent == None && unchanged(this) && unchanged(chat)
      ensures user.Some? && (IsBlank(old(newMessage)) || |old(newMessage)| > MaxMessageLength) ==>
        && sent == None
        && messageError == (if IsBlank(old(newMessage)) then MessageEmpty else MessageTooLong)
        && newMessage == old(newMessage)
        && unchanged(chat)
      ensures user.Some? && !IsBlank(old(newMessage)) && |old(newMessage)| <= MaxMessageLength ==>
        && sent == Some(NewMessage(old(newMessage), user.value.id, user.value.username, user.value.avatarUrl))
        && messageError == "" && newMessage == ""
        && chat.messages == old(chat.messages) + InsertedRows(inserted)
        && chat.error == (if inserted.Rejected? then Some(SendMessageFailed) else old(chat.error))
        && chat.onlineUsers == old(chat.onlineUsers) && chat.isLoading == old(chat.isLoading)
        && chat.messageChannel == old(chat.messageChannel)
        && chat.userStatusChannel == old(chat.userStatusChannel)
    {
      if user.None? {
        return None;
      }
      var validation := ValidateMessage(newMessage);
      if !validation.isValid {
        messageError := validation.errors[0];
        return None;
      }
      messageError := "";
      var request := NewMessage(newMessage, user.value.id, user.value.username, user.value.avatarUrl);
      chat.SendMessage(request, inserted);
      newMessage := "";
      sent := Some(request);
    }

    /**
     * The mount effect: with a signed-in user, messages and online users are
     * loaded and both channels subscribed, in that order; without one the
     * store is untouched.
     */
    method Mount(user: Option<AuthUser>, chat: ChatStore,
                 page: Settled<seq<Message>>, users: Settled<seq<User>>,
                 messageOffer: Channel, statusOffer: Channel)
      modifies chat
      ensures user.None? ==> unchanged(chat)
      ensures user.Some? ==>
        && !chat.isLoading
        && chat.messages == (if page.Resolved? then Reverse(page.value) else old(chat.messages))
        && chat.onlineUsers == (if users.Resolved? then users.value else old(chat.onlineUsers))
        && chat.error == (if users.Rejected? then Some(LoadOnlineUsersFailed)
                          else if page.Rejected? then Some(LoadMessagesFailed)
                          else None)
        && chat.messageChannel == (if old(chat.messageChannel).Some? then old(chat.messageChannel) else Some(messageOffer))
        && chat.userStatusChannel == (if old(chat.userStatusChannel).Some? then old(chat.userStatusChannel) else Some(statusOffer))
    {
      if user.Some? {
        chat.LoadMessages(page);
        chat.LoadOnlineUsers(users);
        var subscribedToMessages := chat.SubscribeToMessages(messageOffer);
        var subscribedToStatus := chat.SubscribeToUserStatus(statusOffer);
      }
    }

    /** The effect's cleanup: unsubscribe, whether or not a user was present; both slots end empty. */
    method Cleanup(chat: ChatStore) returns (released: seq<Channel>)
      modifies chat
      ensures released == (if old(chat.messageChannel).Some? then [old(chat.messageChannel).value] else [])
                        + (if old(chat.userStatusChannel).Some? then [old(chat.userStatusChannel).value] else [])
      ensures chat.messageChannel == None && chat.userStatusChannel == None
      ensures chat.messages == old(chat.messages) && chat.onlineUsers == old(chat.onlineUsers)
      ensures chat.isLoading == old(chat.isLoading) && chat.error == old(chat.error)
    {
      released := chat.Unsubscribe();
    }
  }

  /**
   * A view mounted for a signed-in user and then taken down releases exactly
   * the channels the mount opened, message channel first, when the store
   * held none before.
   */
  method MountThenCleanup(user: AuthUser, page: Settled<seq<Message>>, users: Settled<seq<User>>,
                          messageOffer: Channel, statusOffer: Channel)
    returns (released: seq<Channel>)
    ensures released == [messageOffer, statusOffer]
  {
    var chat := new ChatStore();
    var view := new ChatRoom();
    view.Mount(Some(user), chat, page, users, messageOffer, statusOffer);
    released := view.Cleanup(chat);
  }

  /**
   * Typing white space only and pressing send shows "Message cannot be
   * empty"; typing again clears it, and a valid message is then sent and
   * appended once the insert returns its row.
   */
  method BlankThenValidSend(user: AuthUser, blank: string, text: string, row: Message)
    returns (shownError: string, sent: Option<NewMessage>, shown: seq<Message>)
    requires IsBlank(blank)
    requires !IsBlank(text) && |text| <= MaxMessageLength
    ensures shownError == MessageEmpty
    ensures sent == Some(NewMessage(text, user.id, user.username, user.avatarUrl))
    ensures shown == [row]
  {
    var chat := new ChatStore();
    var view := new ChatRoom();
    view.OnInputChange(blank);
    var none := view.HandleSendMessage(Some(user), chat, Resolved(Some(row)));
    shownError := view.messageError;
    view.OnInputChange(text);
    sent := view.HandleSendMessage(Some(user), chat, Resolved(Some(row)));
    shown := chat.messages;
  }
}
