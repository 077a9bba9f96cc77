/**
 * The admin message list (src/pages/Admin.js): one fetch of the stored contact
 * messages on mount, a fixed precedence between the loading, error, empty and
 * list views, and per-message presentation (accent, subject, read label).
 */
module Admin {
  import opened Wrappers

  datatype ContactMessage = ContactMessage(
    id: int, name: string, email: string, subject: string, message: string,
    timestamp: string, read: bool)

  /** The text the page sets when the fetch fails. */
  const FetchError := "Failed to fetch messages. Please try again later."

  // ------------------------------------------------------ one message card

  /** The theme colour of a card's left border. */
  datatype Accent = BorderColour | PrimaryColour

  /** Read messages get the quiet border colour, unread ones the primary colour. */
  function AccentOf(m: ContactMessage): (a: Accent)
    ensures a == BorderColour <==> m.read
  {
    if m.read then BorderColour else PrimaryColour
  }

  /** The subject line, with a placeholder for an empty (falsy) subject. */
  function DisplayedSubject(m: ContactMessage): (s: string)
    ensures s != ""
    ensures m.subject != "" ==> s == m.subject
    ensures m.subject == "" ==> s == "No Subject"
  {
    if m.subject != "" then m.subject else "No Subject"
  }

  /** The status label in a card's footer. */
  function StatusLabel(m: ContactMessage): (s: string)
    ensures s == "Read" <==> m.read
    ensures s == "Unread" <==> !m.read
  {
    if m.read then "Read" else "Unread"
  }

  /** The accent and the label never disagree about whether a message was read. */
  lemma AccentMatchesLabel(m: ContactMessage)
    ensures AccentOf(m) == BorderColour <==> StatusLabel(m) == "Read"
    ensures AccentOf(m) == PrimaryColour <==> StatusLabel(m) == "Unread"
  {
  }

  /** What one card shows. The timestamp is formatted by the browser's locale and is kept raw here. */
  datatype Card = Card(sender: string, timestamp: string, subject: string, body: string,
                       email: string, accent: Accent, status: string)

  function CardOf(m: ContactMessage): (c: Card)
    ensures c.sender == m.name && c.email == m.email && c.body == m.message && c.timestamp == m.timestamp
    ensures c.subject == DisplayedSubject(m) && c.accent == AccentOf(m) && c.status == StatusLabel(m)
  {
    Card(m.name, m.timestamp, DisplayedSubject(m), m.message, m.email, AccentOf(m), StatusLabel(m))
  }

  /** One card per message, in the order the server sent them. */
  function Cards(ms: seq<ContactMessage>): (cs: seq<Card>)
    ensures |cs| == |ms|
    ensures forall i :: 0 <= i < |ms| ==> cs[i].sender == ms[i].name && cs[i].body == ms[i].message
    ensures forall i :: 0 <= i < |ms| ==> cs[i].email == ms[i].email && cs[i].timestamp == ms[i].timestamp
    ensures forall i :: 0 <= i < |ms| ==> cs[i].accent == AccentOf(ms[i]) && cs[i].subject == DisplayedSubject(ms[i])
    ensures forall i :: 0 <= i < |ms| ==> cs[i].status == StatusLabel(ms[i])
  {
    seq(|ms|, i requires 0 <= i < |ms| => CardOf(ms[i]))
  }

  // --------------------------------------------------------- the page views

  datatype AdminView = LoadingMessages | ErrorView(text: string) | NoMessages | MessageList(cards: seq<Card>)

  /** Loading wins over an error, an error over an empty list, and only a non-empty list is listed. */
  function ViewOf(loading: bool, error: Option<string>, messages: seq<ContactMessage>): (v: AdminView)
    ensures v.LoadingMessages? <==> loading
    ensures v.ErrorView? <==> !loading && error.Some? && error.value != ""
    ensures v.NoMessages? <==> !loading && (error.None? || error.value == "") && messages == []
    ensures v.MessageList? <==> !loading && (error.None? || error.value == "") && messages != []
    ensures v.ErrorView? ==> v.text == error.value
    ensures v.MessageList? ==> v.cards == Cards(messages)
  {
    if loading then LoadingMessages
    else if error.Some? && error.value != "" then ErrorView(error.value)
    else if |messages| == 0 then NoMessages
    else MessageList(Cards(messages))
  }

  class AdminPage {
    var messages: seq<ContactMessage>
    var loading: bool
    var error: Option<string>

    /** While loading nothing is stored; an error leaves the list empty. */
    ghost predicate Valid()
      reads this
    {
      && (loading ==> messages == [] && error.None?)
      && (error.Some? ==> error.value == FetchError && messages == [])
    }

    /** Mount: no messages, loading, no error; the fetch is issued. */
    constructor ()
      ensures Valid()
      ensures messages == [] && loading && error.None?
    {
      messages := [];
      loading := true;
      error := None;
    }

    /** The fetch resolved with `data`. */
    method FetchSucceeded(data: seq<ContactMessage>)
      requires Valid() && loading
      modifies this
      ensures Valid()
      ensures messages == data && !loading && error.None?
    {
      messages := data;
      loading := false;
    }

    /** The fetch was rejected. */
    method FetchFailed()
      requires Valid() && loading
      modifies this
      ensures Valid()
      ensures error == Some(FetchError) && !loading && messages == []
    {
      error := Some(FetchError);
      loading := false;
    }

    function View(): (v: AdminView)
      reads this
      requires Valid()
      ensures v.ErrorView? <==> !loading && error.Some?
      ensures v.MessageList? ==> v.cards == Cards(messages)
    {
      ViewOf(loading, error, messages)
    }
  }

  // ------------------------------------------------------------ scenarios

  /** The three outcomes of the fetch: an empty inbox, one unread message, a rejection. */
  method FetchScenarios() returns (empty: AdminView, one: AdminView, failed: AdminView, pending: AdminView)
    ensures pending == LoadingMessages
    ensures empty == NoMessages
    ensures one.MessageList? && |one.cards| == 1 && one.cards[0].accent == PrimaryColour
    ensures one.cards[0].status == "Unread" && one.cards[0].subject == "No Subject"
    ensures failed == ErrorView(FetchError)
  {
    var a := new AdminPage();
    pending := a.View();
    a.FetchSucceeded([]);
    empty := a.View();
    var b := new AdminPage();
    b.FetchSucceeded([ContactMessage(1, "A", "a@b.com", "", "M", "2024-01-01T00:00:00Z", false)]);
    one := b.View();
    var c := new AdminPage();
    c.FetchFailed();
    failed := c.View();
  }
}
