/** The messages page: a searchable list of conversations, one of which can
    be opened, and a form for typing a message to it. */
module Messages {
  import opened Lists
  import opened Text

  datatype Sender = User | Other

  datatype Status = Online | Offline | Away

  datatype Message = Message(id: int, text: string, sender: Sender, timestamp: string)

  datatype Conversation = Conversation(
    id: int,
    name: string,
    avatar: string,
    status: Status,
    lastMessage: string,
    lastMessageTime: string,
    unread: int,
    messages: seq<Message>)

  datatype Option<T> = None | Some(value: T)

  /** `filteredConversations`: the conversations whose name contains the
      query, ignoring case, in their original order. */
  function FilterConversations(conversations: seq<Conversation>, query: string): (r: seq<Conversation>)
    ensures IsSublist(r, conversations)
    ensures forall i :: 0 <= i < |r| ==> MatchesQuery(r[i].name, query)
    ensures forall i :: 0 <= i < |conversations| && MatchesQuery(conversations[i].name, query) ==>
              conversations[i] in r
  {
    Filter(conversations, (c: Conversation) => MatchesQuery(c.name, query))
  }

  /** A conversation is listed exactly when the lower-cased query is a
      substring of its lower-cased name. */
  lemma FilterConversationsKeepsExactly(conversations: seq<Conversation>, query: string, c: Conversation)
    ensures c in FilterConversations(conversations, query) <==>
      c in conversations && Occurs(Lower(query), Lower(c.name))
  {
    ContainsMeansOccurs(Lower(c.name), Lower(query));
  }

  /** An empty query lists every conversation. */
  lemma EmptySearchShowsAll(conversations: seq<Conversation>)
    ensures FilterConversations(conversations, "") == conversations
  {
    forall c | c in conversations ensures MatchesQuery(c.name, "") {
      EmptyQueryMatches(c.name);
    }
    FilterKeepsAll(conversations, (c: Conversation) => MatchesQuery(c.name, ""));
  }

  /** The guard of `handleSendMessage`: a draft that is not empty after
      `trim`, and an open conversation. */
  predicate PassesSendGuard(draft: string, active: Option<Conversation>)
  {
    Trim(draft) != "" && active.Some?
  }

  lemma SendGuardMeaning(draft: string, active: Option<Conversation>)
    ensures PassesSendGuard(draft, active) <==> !IsBlank(draft) && active.Some?
  {
    TrimEmptyIffBlank(draft);
  }

  /** The `MessagesPage` component's state; `conversations` is its
      hard-coded conversation list. */
  class MessagesPage {
    const conversations: seq<Conversation>
    var activeConversation: Option<Conversation>
    var newMessage: string
    var searchQuery: string

    constructor (initial: seq<Conversation>)
      ensures conversations == initial
      ensures activeConversation == None && newMessage == "" && searchQuery == ""
    {
      conversations := initial;
      activeConversation := None;
      newMessage := "";
      searchQuery := "";
    }

    function FilteredConversations(): seq<Conversation>
      reads this
    {
      FilterConversations(conversations, searchQuery)
    }

    /** The search box's change handler. */
    method SetSearchQuery(text: string)
      modifies this`searchQuery
      ensures searchQuery == text
    {
      searchQuery := text;
    }

    /** A click on a conversation in the list. */
    method SelectConversation(c: Conversation)
      modifies this`activeConversation
      ensures activeConversation == Some(c)
    {
      activeConversation := Some(c);
    }

    /** The message box's change handler. */
    method TypeMessage(text: string)
      modifies this`newMessage
      ensures newMessage == text
    {
      newMessage := text;
    }

    /** `handleSendMessage`: a blank draft or no open conversation returns at
        once; otherwise the "coming soon" notice is raised (`notified`) and the
        draft is cleared. No conversation and no message list is changed. */
    method HandleSendMessage() returns (notified: bool)
      modifies this`newMessage
      ensures notified <==> !IsBlank(old(newMessage)) && activeConversation.Some?
      ensures newMessage == if notified then "" else old(newMessage)
      ensures activeConversation == old(activeConversation)
    {
      SendGuardMeaning(newMessage, activeConversation);
      if Trim(newMessage) == "" || activeConversation.None? {
        return false;
      }
      notified := true;
      newMessage := "";
    }
  }
}
