/**
 * The Chat page: the contact list with its name search, and the message
 * list with the send handler.
 */
module Chat {
  import opened Text
  import opened Lists

  datatype Contact = Contact(
    id: int,
    name: string,
    avatar: string,
    initials: string,
    status: string,
    lastMessage: string,
    time: string,
    unread: nat)

  /** A message comes from the signed-in user ("me") or from a contact id. */
  datatype Sender = Me | FromContact(contactId: int)

  datatype Delivery = Sent | Delivered | Read

  datatype Message = Message(id: int, sender: Sender, text: string, timestamp: string, status: Delivery)

  const Contacts: seq<Contact> := [
    Contact(1, "John Doe", "/placeholder.svg", "JD", "online", "Hey, how are you?", "10:45 AM", 2),
    Contact(2, "Jane Smith", "/placeholder.svg", "JS", "online", "Got the files, thanks!", "Yesterday", 0),
    Contact(3, "Alex Johnson", "/placeholder.svg", "AJ", "offline",
            "Let me know when you finish the report", "Yesterday", 0),
    Contact(4, "Sarah Williams", "/placeholder.svg", "SW", "online",
            "The meeting is scheduled for tomorrow", "Monday", 0),
    Contact(5, "Michael Brown", "/placeholder.svg", "MB", "offline",
            "I'll send you the updated version", "Monday", 0)
  ]

  const InitialMessages: seq<Message> := [
    Message(1, FromContact(1), "Hey, how are you?", "10:45 AM", Read),
    Message(2, Me, "I'm good, thanks! Working on the dashboard project.", "10:47 AM", Read),
    Message(3, FromContact(1), "That sounds great! How is it going?", "10:48 AM", Read),
    Message(4, Me, "Making good progress. The design is almost complete, and I'm starting to implement the backend functionality.", "10:50 AM", Sent),
    Message(5, FromContact(1), "Awesome! Do you need any help with the API integration?", "10:51 AM", Delivered)
  ]

  // ---------------------------------------------------------------------------
  // Contact search
  // ---------------------------------------------------------------------------

  function NameMatches(searchQuery: string): Contact -> bool {
    (c: Contact) => Includes(ToLower(c.name), ToLower(searchQuery))
  }

  /** The contacts the search effect shows: all of them for an empty query. */
  function ShownContacts(contacts: seq<Contact>, searchQuery: string): seq<Contact> {
    if searchQuery == "" then contacts else Filter(contacts, NameMatches(searchQuery))
  }

  /**
   * An empty query shows every contact; otherwise a contact is shown exactly
   * when its lower-cased name contains the lower-cased query, in list order.
   * The empty-query branch agrees with the filter, so the shortcut is only one.
   */
  lemma ShownContactsSpec(contacts: seq<Contact>, searchQuery: string)
    ensures searchQuery == "" ==> ShownContacts(contacts, searchQuery) == contacts
    ensures forall c :: c in ShownContacts(contacts, searchQuery) <==>
      c in contacts && Includes(ToLower(c.name), ToLower(searchQuery))
    ensures IsSubsequence(ShownContacts(contacts, searchQuery), contacts)
    ensures ShownContacts(contacts, searchQuery) == Filter(contacts, NameMatches(searchQuery))
  {
    FilterIsSubsequence(contacts, NameMatches(searchQuery));
    if searchQuery == "" {
      assert ToLower(searchQuery) == "";
      FilterKeepsAll(contacts, NameMatches(searchQuery));
    }
  }

  // ---------------------------------------------------------------------------
  // Messages
  // ---------------------------------------------------------------------------

  /** Message ids are 1, 2, 3, ... in list order. */
  predicate SequentialIds(messages: seq<Message>) {
    forall i :: 0 <= i < |messages| ==> messages[i].id == i + 1
  }

  /** The message a send appends for the input text. */
  function Outgoing(messages: seq<Message>, text: string, now: string): Message {
    Message(|messages| + 1, Me, text, now, Sent)
  }

  /** Appending the outgoing message keeps the ids sequential, so it is fresh. */
  lemma OutgoingKeepsSequentialIds(messages: seq<Message>, text: string, now: string)
    requires SequentialIds(messages)
    ensures SequentialIds(messages + [Outgoing(messages, text, now)])
    ensures forall i :: 0 <= i < |messages| ==> messages[i].id != Outgoing(messages, text, now).id
  {
  }

  class ChatPage {
    var searchQuery: string
    var selectedContact: Contact
    var messages: seq<Message>
    var newMessage: string
    var filteredContacts: seq<Contact>

    ghost predicate Valid()
      reads this
    {
      SequentialIds(messages)
    }

    constructor ()
      ensures Valid()
      ensures searchQuery == "" && selectedContact == Contacts[0]
      ensures messages == InitialMessages && newMessage == "" && filteredContacts == Contacts
    {
      searchQuery := "";
      selectedContact := Contacts[0];
      messages := InitialMessages;
      newMessage := "";
      filteredContacts := Contacts;
    }

    /** Typing in the search box; the effect then recomputes the shown contacts. */
    method SetSearchQuery(query: string)
      modifies this`searchQuery, this`filteredContacts
      ensures searchQuery == query && filteredContacts == ShownContacts(Contacts, query)
    {
      searchQuery := query;
      if query != "" {
        filteredContacts := Filter(Contacts, NameMatches(query));
      } else {
        filteredContacts := Contacts;
      }
    }

    method SelectContact(contact: Contact)
      modifies this`selectedContact
      ensures selectedContact == contact
    {
      selectedContact := contact;
    }

    /** Typing in the message box. */
    method EditMessage(text: string)
      modifies this`newMessage
      ensures newMessage == text
    {
      newMessage := text;
    }

    /**
     * The send handler: blank input (only whitespace after trim) changes
     * nothing; otherwise the untrimmed text is appended as a sent message and
     * the input is cleared. `now` is the time stamp the clock would give.
     */
    method SendMessage(now: string) returns (sent: bool)
      requires Valid()
      modifies this`messages, this`newMessage
      ensures Valid()
      ensures sent <==> Trim(old(newMessage)) != ""
      ensures !sent ==> messages == old(messages) && newMessage == old(newMessage)
      ensures sent ==>
        && messages == old(messages) + [Outgoing(old(messages), old(newMessage), now)]
        && newMessage == ""
    {
      if Trim(newMessage) == "" {
        return false;
      }
      OutgoingKeepsSequentialIds(messages, newMessage, now);
      messages := messages + [Outgoing(messages, newMessage, now)];
      newMessage := "";
      sent := true;
    }

    /** Enter without Shift sends; every other key does nothing here. */
    method KeyDown(key: string, shiftKey: bool, now: string) returns (sent: bool)
      requires Valid()
      modifies this`messages, this`newMessage
      ensures Valid()
      ensures !(key == "Enter" && !shiftKey) ==>
        !sent && messages == old(messages) && newMessage == old(newMessage)
      ensures key == "Enter" && !shiftKey ==> (sent <==> !IsBlank(old(newMessage)))
      ensures key == "Enter" && !shiftKey && sent ==>
        && messages == old(messages) + [Outgoing(old(messages), old(newMessage), now)]
        && newMessage == ""
      ensures key == "Enter" && !shiftKey && !sent ==>
        messages == old(messages) && newMessage == old(newMessage)
    {
      sent := false;
      if key == "Enter" && !shiftKey {
        sent := SendMessage(now);
        TrimEmptyIffBlank(old(newMessage));
      }
    }
  }
}
