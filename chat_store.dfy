/**
 * The chat store of src/stores/chat/chatStore.ts: the message list, the
 * online-user list, the loading and error flags and the two realtime
 * subscription slots, with every action of the store.
 *
 * Each asynchronous action is one atomic step; what the chat service
 * answers (a page of messages, an inserted row, a list of users, or a
 * rejection) is a parameter, and so is the channel handle a subscription
 * would return. Calls the store makes to the service that have no effect on
 * the store's state (releasing a channel) are reported as results.
 */
module ChatStore {
  import opened Types

  const LoadMessagesFailed := "Failed to load messages"
  const SendMessageFailed := "Failed to send message"
  const LoadOnlineUsersFailed := "Failed to load online users"

  /** A realtime channel handle returned by the chat service's subscribe calls. */
  datatype Channel = Channel(handle: nat)

  /** The arguments `sendMessage` forwards to the chat service's insert. */
  datatype NewMessage = NewMessage(content: string, userId: string, username: string, avatarUrl: Option<string>)

  // ------------------------------------------------------------ list helpers

  /** `Array.prototype.reverse`: the same elements, last first. */
  function Reverse<T>(s: seq<T>): (r: seq<T>)
    ensures |r| == |s|
  {
    if s == [] then [] else Reverse(s[1..]) + [s[0]]
  }

  /** Element `k` of the reversed list is element `|s| - 1 - k` of the original. */
  lemma {:induction false} ReverseAt<T>(s: seq<T>, k: nat)
    requires k < |s|
    ensures Reverse(s)[k] == s[|s| - 1 - k]
  {
    if k < |s| - 1 {
      ReverseAt(s[1..], k);
    }
  }

  /** Reversing twice gives back the original list. */
  lemma ReverseReverse<T>(s: seq<T>)
    ensures Reverse(Reverse(s)) == s
  {
    forall k | 0 <= k < |s| ensures Reverse(Reverse(s))[k] == s[k] {
      ReverseAt(Reverse(s), k);
      ReverseAt(s, |s| - 1 - k);
    }
  }

  /** The messages are ordered newest first by creation time, as the service returns a page. */
  ghost predicate NewestFirst(s: seq<Message>) {
    forall i, j :: 0 <= i < j < |s| ==> s[i].createdAt >= s[j].createdAt
  }

  /** The messages are ordered oldest first by creation time, as the chat view shows them. */
  ghost predicate OldestFirst(s: seq<Message>) {
    forall i, j :: 0 <= i < j < |s| ==> s[i].createdAt <= s[j].createdAt
  }

  /** Reversing a newest-first page gives an oldest-first list. */
  lemma ReverseNewestFirst(page: seq<Message>)
    requires NewestFirst(page)
    ensures OldestFirst(Reverse(page))
  {
    forall i, j | 0 <= i < j < |page| ensures Reverse(page)[i].createdAt <= Reverse(page)[j].createdAt {
      ReverseAt(page, i);
      ReverseAt(page, j);
    }
  }

  /** `users.map((u) => (u.id === user.id ? user : u))`. */
  function ReplaceById(users: seq<User>, user: User): (r: seq<User>)
    ensures |r| == |users|
    ensures forall k :: 0 <= k < |r| ==> r[k] == if users[k].id == user.id then user else users[k]
  {
    if users == [] then []
    else [if users[0].id == user.id then user else users[0]] + ReplaceById(users[1..], user)
  }

  /** The ids at every position are kept: no user is added, removed or moved. */
  lemma ReplaceByIdKeepsIds(users: seq<User>, user: User)
    ensures forall k :: 0 <= k < |users| ==> ReplaceById(users, user)[k].id == users[k].id
  {
  }

  /** A status update for a user who is not listed changes nothing. */
  lemma ReplaceByIdAbsent(users: seq<User>, user: User)
    requires forall k :: 0 <= k < |users| ==> users[k].id != user.id
    ensures ReplaceById(users, user) == users
  {
  }

  /** Applying the same status update twice is the same as applying it once. */
  lemma ReplaceByIdIdempotent(users: seq<User>, user: User)
    ensures ReplaceById(ReplaceById(users, user), user) == ReplaceById(users, user)
  {
  }

  /** How many entries of `s` equal `m`. */
  function Occurrences(s: seq<Message>, m: Message): nat {
    if s == [] then 0 else (if s[0] == m then 1 else 0) + Occurrences(s[1..], m)
  }

  /** Appending a message adds one occurrence of it, whatever the list already holds. */
  lemma {:induction false} OccurrencesAppend(s: seq<Message>, m: Message)
    ensures Occurrences(s + [m], m) == Occurrences(s, m) + 1
  {
    if s != [] {
      assert (s + [m])[1..] == s[1..] + [m];
      OccurrencesAppend(s[1..], m);
    } else {
      assert [m][1..] == [];
    }
  }

  /** The message the insert handed back, as a list of zero or one rows. */
  function InsertedRows(inserted: Settled<Option<Message>>): seq<Message> {
    if inserted.Resolved? && inserted.value.Some? then [inserted.value.value] else []
  }

  // ------------------------------------------------------------ the store

  class ChatStore {
    var messages: seq<Message>
    var onlineUsers: seq<User>
    var isLoading: bool
    var error: Option<string>
    var messageChannel: Option<Channel>
    var userStatusChannel: Option<Channel>

    /** The store as `create` initialises it. */
    constructor ()
      ensures messages == [] && onlineUsers == []
      ensures !isLoading && error == None
      ensures messageChannel == None && userStatusChannel == None
    {
      messages, onlineUsers := [], [];
      isLoading, error := false, None;
      messageChannel, userStatusChannel := None, None;
    }

    /**
     * loadMessages: clears the error and raises the loading flag; a fetched
     * (newest-first) page then replaces the list, reversed; a rejection
     * keeps the list and records the failure. The loading flag ends low.
     */
    method LoadMessages(fetched: Settled<seq<Message>>)
      modifies this
      ensures !isLoading
      ensures fetched.Resolved? ==> messages == Reverse(fetched.value) && error == None
      ensures fetched.Rejected? ==> messages == old(messages) && error == Some(LoadMessagesFailed)
      ensures onlineUsers == old(onlineUsers)
      ensures messageChannel == old(messageChannel) && userStatusChannel == old(userStatusChannel)
    {
      isLoading, error := true, None;
      match fetched {
        case Resolved(page) =>
          messages, isLoading := Reverse(page), false;
        case Rejected(_) =>
          error, isLoading := Some(LoadMessagesFailed), false;
      }
    }

    /**
     * sendMessage: the row the insert returns is appended at the tail (no
     * check that it is already there); a null row changes nothing; a
     * rejection records the failure. The loading flag is not touched.
     */
    method SendMessage(request: NewMessage, inserted: Settled<Option<Message>>)
      modifies this
      ensures messages == old(messages) + InsertedRows(inserted)
      ensures error == if inserted.Rejected? then Some(SendMessageFailed) else old(error)
      ensures isLoading == old(isLoading) && onlineUsers == old(onlineUsers)
      ensures messageChannel == old(messageChannel) && userStatusChannel == old(userStatusChannel)
    {
      match inserted {
        case Resolved(row) =>
          if row.Some? {
            messages := messages + [row.value];
          }
        case Rejected(_) =>
          error := Some(SendMessageFailed);
      }
    }

    /** loadOnlineUsers: the fetched list replaces the online users; a rejection records the failure. */
    method LoadOnlineUsers(fetched: Settled<seq<User>>)
      modifies this
      ensures onlineUsers == if fetched.Resolved? then fetched.value else old(onlineUsers)
      ensures error == if fetched.Rejected? then Some(LoadOnlineUsersFailed) else old(error)
      ensures messages == old(messages) && isLoading == old(isLoading)
      ensures messageChannel == old(messageChannel) && userStatusChannel == old(userStatusChannel)
    {
      match fetched {
        case Resolved(users) =>
          onlineUsers := users;
        case Rejected(_) =>
          error := Some(LoadOnlineUsersFailed);
      }
    }

    /** addMessage (the realtime insert callback): always appends, even a message already listed. */
    method AddMessage(message: Message)
      modifies this
      ensures messages == old(messages) + [message]
      ensures |messages| == |old(messages)| + 1 && old(messages) <= messages
      ensures Occurrences(messages, message) == Occurrences(old(messages), message) + 1
      ensures onlineUsers == old(onlineUsers) && isLoading == old(isLoading) && error == old(error)
      ensures messageChannel == old(messageChannel) && userStatusChannel == old(userStatusChannel)
    {
      messages := messages + [message];
      OccurrencesAppend(old(messages), message);
    }

    /** updateUserStatus (the realtime update callback): every entry with the user's id becomes the user. */
    method UpdateUserStatus(user: User)
      modifies this
      ensures onlineUsers == ReplaceById(old(onlineUsers), user)
      ensures messages == old(messages) && isLoading == old(isLoading) && error == old(error)
      ensures messageChannel == old(messageChannel) && userStatusChannel == old(userStatusChannel)
    {
      onlineUsers := ReplaceById(onlineUsers, user);
    }

    /**
     * subscribeToMessages: does nothing when a message channel is already
     * held; otherwise opens one (`offered` is the handle the service returns)
     * and keeps it. `subscribed` tells whether the service was called.
     */
    method SubscribeToMessages(offered: Channel) returns (subscribed: bool)
      modifies this
      ensures subscribed <==> old(messageChannel).None?
      ensures messageChannel == if subscribed then Some(offered) else old(messageChannel)
      ensures messages == old(messages) && onlineUsers == old(onlineUsers)
      ensures isLoading == old(isLoading) && error == old(error)
      ensures userStatusChannel == old(userStatusChannel)
    {
      if messageChannel.Some? {
        return false;
      }
      messageChannel := Some(offered);
      subscribed := true;
    }

    /** subscribeToUserStatus: the same guard over the user-status slot. */
    method SubscribeToUserStatus(offered: Channel) returns (subscribed: bool)
      modifies this
      ensures subscribed <==> old(userStatusChannel).None?
      ensures userStatusChannel == if subscribed then Some(offered) else old(userStatusChannel)
      ensures messages == old(messages) && onlineUsers == old(onlineUsers)
      ensures isLoading == old(isLoading) && error == old(error)
      ensures messageChannel == old(messageChannel)
    {
      if userStatusChannel.Some? {
        return false;
      }
      userStatusChannel := Some(offered);
      subscribed := true;
    }

    /**
     * unsubscribe: hands each channel that is held, message channel first,
     * to the service's unsubscribe (`released`), then empties both slots.
     */
    method Unsubscribe() returns (released: seq<Channel>)
      modifies this
      ensures released == (if old(messageChannel).Some? then [old(messageChannel).value] else [])
                        + (if old(userStatusChannel).Some? then [old(userStatusChannel).value] else [])
      ensures messageChannel == None && userStatusChannel == None
      ensures messages == old(messages) && onlineUsers == old(onlineUsers)
      ensures isLoading == old(isLoading) && error == old(error)
    {
      released := [];
      if messageChannel.Some? {
        released := released + [messageChannel.value];
      }
      if userStatusChannel.Some? {
        released := released + [userStatusChannel.value];
      }
      messageChannel, userStatusChannel := None, None;
    }

    /** clearError: only the error is reset. */
    method ClearError()
      modifies this
      ensures error == None
      ensures messages == old(messages) && onlineUsers == old(onlineUsers) && isLoading == old(isLoading)
      ensures messageChannel == old(messageChannel) && userStatusChannel == old(userStatusChannel)
    {
      error := None;
    }
  }

  // ------------------------------------------------------------ scenarios

  /**
   * A message the user sends is appended by sendMessage and appended again
   * when the realtime insert for the same row arrives: the list then holds
   * it twice.
   */
  method SendThenEcho(request: NewMessage, row: Message) returns (shown: seq<Message>)
    ensures shown == [row, row]
    ensures Occurrences(shown, row) == 2
  {
    var store := new ChatStore();
    store.SendMessage(request, Resolved(Some(row)));
    store.AddMessage(row);
    shown := store.messages;
  }

  /**
   * Subscribing twice keeps the first channel and does not call the service
   * again; unsubscribing releases exactly that channel, after which a new
   * subscription is accepted.
   */
  method SubscribeTwiceThenUnsubscribe(first: Channel, second: Channel)
    returns (openedAgain: bool, released: seq<Channel>, reopened: bool)
    ensures !openedAgain
    ensures released == [first]
    ensures reopened
  {
    var store := new ChatStore();
    var subscribed := store.SubscribeToMessages(first);
    openedAgain := store.SubscribeToMessages(second);
    released := store.Unsubscribe();
    reopened := store.SubscribeToMessages(second);
  }

  /** Loading twice replaces the list: the second page alone is shown, oldest first. */
  method LoadTwice(first: seq<Message>, second: seq<Message>) returns (shown: seq<Message>)
    requires NewestFirst(second)
    ensures shown == Reverse(second)
    ensures OldestFirst(shown)
    ensures |shown| == |second|
  {
    var store := new ChatStore();
    store.LoadMessages(Resolved(first));
    store.LoadMessages(Resolved(second));
    shown := store.messages;
    ReverseNewestFirst(second);
  }
}
