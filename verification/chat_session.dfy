/** The chat page as a state machine over its `messages`, `conversationId`
    and `input` state, and the database rows it reads and writes: loading
    the latest conversation for a persona, sending (split at the network
    round trip into the click and the reply), saving, and clearing. */
module ChatSession {
  import opened Optional
  import opened Strings
  import opened Conversations

  const Apology := "I apologize, but I encountered an error. Please try again."
  const DefaultTitle := "New Conversation"
  const TitleLength: nat := 50
  const MessageSentEvent := "message_sent"

  /** The persona ids the chat page offers, in display order. */
  const PagePersonas: seq<string> := ["therapist", "business", "wellness", "creative"]

  datatype Session = Session(
    user: Option<string>,
    expertId: string,
    messages: seq<Message>,
    conversationId: Option<string>,
    input: string,
    isLoading: bool,
    showExpertSelector: bool)

  /** A row of `usage_analytics`. */
  datatype AnalyticsEvent = AnalyticsEvent(userId: string, eventType: string, expertId: string)

  datatype Db = Db(conversations: Table, events: seq<AnalyticsEvent>)

  /** What the database answers to one save: the id of the inserted row
      (`None` when the insert returns no row), whether an update went
      through, the clock reading used for `updated_at`, and whether the
      analytics insert went through.  The page ignores every error the
      database reports, so each of these only decides what is stored. */
  datatype SaveReply = SaveReply(insertedId: Option<string>, updated: bool, now: int, eventRecorded: bool)

  /** The values a send's closure captured when the user clicked: the
      signed-in user, the persona, the conversation id and the new list. */
  datatype InFlight = InFlight(
    user: Option<string>,
    expertId: string,
    conversationId: Option<string>,
    newMessages: seq<Message>)

  /** The page on first render: the therapist selected, nothing loaded. */
  function Initial(user: Option<string>): (s: Session)
    ensures s.messages == [] && s.conversationId.None? && s.input == "" && !s.isLoading
  {
    Session(user, "therapist", [], None, "", false, true)
  }

  /** The title of a newly inserted conversation: the first 50 characters
      of the first message, or `New Conversation` when there is no first
      message or it is empty. */
  function Title(msgs: seq<Message>): (t: string)
    ensures t != ""
    ensures (|msgs| == 0 || msgs[0].content == "") ==> t == DefaultTitle
    ensures |msgs| > 0 && msgs[0].content != "" ==>
              IsPrefix(t, msgs[0].content)
              && |t| == (if |msgs[0].content| < TitleLength then |msgs[0].content| else TitleLength)
  {
    if |msgs| == 0 then DefaultTitle
    else
      var t := Take(msgs[0].content, TitleLength);
      if t == "" then DefaultTitle else t
  }

  /** `loadConversation(userId, expertId)`: when the pair has a row, the
      newest one replaces the messages and supplies the conversation id;
      when it has none, the session is left exactly as it was. */
  function Load(s: Session, db: Db, userId: string, expertId: string): (s': Session)
    ensures Latest(db.conversations, userId, expertId).None? ==> s' == s
    ensures Latest(db.conversations, userId, expertId).Some? ==>
              var row := Latest(db.conversations, userId, expertId).value;
              s' == s.(messages := ItemsOrEmpty(row.messages), conversationId := Some(row.id),
                       showExpertSelector := false)
  {
    match Latest(db.conversations, userId, expertId)
    case None => s
    case Some(row) =>
      s.(messages := ItemsOrEmpty(row.messages), conversationId := Some(row.id), showExpertSelector := false)
  }

  /** Choosing a persona in the selector: the persona changes, the selector
      closes and the persona's latest conversation is loaded.  Nothing is
      reset first, so a persona without a conversation inherits the
      previous persona's messages and conversation id. */
  function SelectExpert(s: Session, db: Db, expertId: string): (s': Session)
    ensures s'.expertId == expertId && !s'.showExpertSelector
    ensures (s.user.None? || Latest(db.conversations, s.user.value, expertId).None?) ==>
              s'.messages == s.messages && s'.conversationId == s.conversationId
  {
    var s1 := s.(expertId := expertId, showExpertSelector := false);
    match s.user
    case None => s1
    case Some(u) => Load(s1, db, u, expertId)
  }

  /** The click on send.  A blank input (after trimming) or a request in
      flight makes it a no-op; otherwise the trimmed text is appended as a
      user message, the input is cleared, the page is marked loading, the
      persona selector closes, and the closure's captured values are
      returned. */
  function BeginSend(s: Session): (r: (Session, Option<InFlight>))
    ensures r.1.None? <==> (forall i :: 0 <= i < |s.input| ==> IsSpace(s.input[i])) || s.isLoading
    ensures r.1.None? ==> r.0 == s
    ensures r.1.Some? ==>
              var f := r.1.value;
              && f.newMessages == s.messages + [Message(User, Trim(s.input))]
              && Trim(s.input) != ""
              && r.0.messages == f.newMessages && r.0.input == "" && r.0.isLoading && !r.0.showExpertSelector
              && f.user == s.user && f.expertId == s.expertId && f.conversationId == s.conversationId
              && r.0.conversationId == s.conversationId && r.0.expertId == s.expertId && r.0.user == s.user
  {
    var text := Trim(s.input);
    if text == "" || s.isLoading then (s, None)
    else
      var m := s.messages + [Message(User, text)];
      (s.(input := "", messages := m, isLoading := true, showExpertSelector := false),
       Some(InFlight(s.user, s.expertId, s.conversationId, m)))
  }

  /** `saveConversation(msgs)` as the closure `f` sees it.  With a
      conversation id it updates that row (no row is added, and a failed
      update leaves the table as it was); without one it
      inserts a row titled after the first message and, when the insert
      returns the row, captures its id.  Each save by a signed-in user also
      tries to record one `message_sent` event; a failed event never undoes
      the save. */
  function Save(s: Session, db: Db, f: InFlight, msgs: seq<Message>, reply: SaveReply): (r: (Session, Db))
    ensures f.user.None? ==> r == (s, db)
    ensures f.user.Some? && f.conversationId.Some? ==>
              r.0 == s
              && r.1.conversations == (if reply.updated then UpdateMessages(db.conversations, f.conversationId.value, msgs, reply.now)
                                       else db.conversations)
    ensures f.user.Some? && f.conversationId.None? && reply.insertedId.Some? ==>
              && r.0 == s.(conversationId := reply.insertedId)
              && r.1.conversations == db.conversations + [Row(reply.insertedId.value, f.user.value, f.expertId,
                                                              Title(msgs), MessageArray(msgs), reply.now, reply.now)]
    ensures f.user.Some? && f.conversationId.None? && reply.insertedId.None? ==>
              r.0 == s && r.1.conversations == db.conversations
    ensures f.user.Some? ==>
              r.1.events == db.events + (if reply.eventRecorded then [AnalyticsEvent(f.user.value, MessageSentEvent, f.expertId)] else [])
  {
    match f.user
    case None => (s, db)
    case Some(u) =>
      var events := db.events + (if reply.eventRecorded then [AnalyticsEvent(u, MessageSentEvent, f.expertId)] else []);
      match f.conversationId
      case Some(cid) =>
        (s, Db(if reply.updated then UpdateMessages(db.conversations, cid, msgs, reply.now) else db.conversations, events))
      case None =>
        match reply.insertedId
        case Some(nid) =>
          var row := Row(nid, u, f.expertId, Title(msgs), MessageArray(msgs), reply.now, reply.now);
          (s.(conversationId := Some(nid)), Db(db.conversations + [row], events))
        case None => (s, Db(db.conversations, events))
  }

  /** The reply to a send arrives.  `reply` is the generated text, or `None`
      when the request failed.  On success the captured list plus the reply
      is shown and saved, and the save alone decides the stored rows and
      the conversation id; on failure the apology is appended to whatever
      is shown now and nothing is saved.  Either way loading ends. */
  function CompleteSend(s: Session, db: Db, f: InFlight, reply: Option<string>, saved: SaveReply): (r: (Session, Db))
    ensures !r.0.isLoading
    ensures reply.Some? ==> r.0.messages == f.newMessages + [Message(Assistant, reply.value)]
    ensures reply.Some? ==>
              var shown := f.newMessages + [Message(Assistant, reply.value)];
              var saveResult := Save(s.(messages := shown), db, f, shown, saved);
              r.1 == saveResult.1 && r.0.conversationId == saveResult.0.conversationId
    ensures reply.None? ==> r.0.messages == s.messages + [Message(Assistant, Apology)] && r.1 == db
    ensures r.0.input == s.input && r.0.expertId == s.expertId && r.0.user == s.user
  {
    match reply
    case Some(text) =>
      var updated := f.newMessages + [Message(Assistant, text)];
      var saveResult := Save(s.(messages := updated), db, f, updated, saved);
      (saveResult.0.(isLoading := false), saveResult.1)
    case None =>
      (s.(messages := s.messages + [Message(Assistant, Apology)], isLoading := false), db)
  }

  /** `handleClearHistory`: once confirmed, the messages are emptied and, if
      a conversation was saved, its row is deleted and the id dropped.
      `deleted` is whether the delete went through; the id is dropped
      either way, since the page ignores the delete's error. */
  function Clear(s: Session, db: Db, confirmed: bool, deleted: bool): (r: (Session, Db))
    ensures !confirmed ==> r == (s, db)
    ensures confirmed ==> r.0 == s.(messages := [], conversationId := None)
    ensures confirmed && s.conversationId.Some? && deleted ==>
              r.1 == db.(conversations := DeleteById(db.conversations, s.conversationId.value))
    ensures confirmed && (s.conversationId.None? || !deleted) ==> r.1 == db
  {
    if !confirmed then (s, db)
    else
      match s.conversationId
      case None => (s.(messages := []), db)
      case Some(cid) =>
        (s.(messages := [], conversationId := None),
         if deleted then db.(conversations := DeleteById(db.conversations, cid)) else db)
  }

  /** A complete send from an idle page: the user's trimmed message is
      always kept, followed by the reply or by the fixed apology, and the
      page ends idle with an empty input. */
  lemma SendKeepsUserTurn(s: Session, db: Db, reply: Option<string>, saved: SaveReply)
    requires !s.isLoading && Trim(s.input) != ""
    ensures var (s1, f) := BeginSend(s);
            f.Some? &&
            var (s2, _) := CompleteSend(s1, db, f.value, reply, saved);
            && s2.messages == s.messages + [Message(User, Trim(s.input)),
                                            Message(Assistant, if reply.Some? then reply.value else Apology)]
            && s2.input == "" && !s2.isLoading
  {
    var (s1, f) := BeginSend(s);
    assert f.Some?;
    var (s2, _) := CompleteSend(s1, db, f.value, reply, saved);
    assert s.messages + [Message(User, Trim(s.input))] + [Message(Assistant, if reply.Some? then reply.value else Apology)]
        == s.messages + [Message(User, Trim(s.input)), Message(Assistant, if reply.Some? then reply.value else Apology)];
  }

  /** Once an insert has returned its row, the session holds the new id and
      the next save for it is an update of that very row: the table keeps
      its size, the inserted row takes the new messages when the update goes
      through, and no second row is created. */
  lemma SecondSaveUpdates(s: Session, db: Db, f: InFlight, msgs: seq<Message>, first: SaveReply,
                          more: seq<Message>, second: SaveReply)
    requires f.user.Some? && f.conversationId.None? && first.insertedId.Some?
    ensures var (s1, db1) := Save(s, db, f, msgs, first);
            && s1.conversationId == first.insertedId
            && |db1.conversations| == |db.conversations| + 1
            && var g := InFlight(s1.user, f.expertId, s1.conversationId, more);
               s1.user == f.user ==>
               && |Save(s1, db1, g, more, second).1.conversations| == |db1.conversations|
               && Save(s1, db1, g, more, second).1.conversations
                    == (if second.updated then UpdateMessages(db1.conversations, first.insertedId.value, more, second.now)
                        else db1.conversations)
               && (second.updated ==>
                     Save(s1, db1, g, more, second).1.conversations[|db.conversations|].messages == MessageArray(more))
  {
  }

  /** The session's conversation id, when set, names a row of the signed-in
      user for the selected persona. */
  ghost predicate Coherent(s: Session, db: Db) {
    s.conversationId.Some? ==>
      s.user.Some? &&
      exists k :: 0 <= k < |db.conversations| && db.conversations[k].id == s.conversationId.value
                  && Owns(db.conversations[k], s.user.value, s.expertId)
  }

  /** Save then load gives the saved messages back: from a coherent session,
      a save stamped later than every stored row that updates or inserts a
      row makes that row the pair's latest, holding exactly the saved list. */
  lemma SaveThenLoadRoundTrip(s: Session, db: Db, msgs: seq<Message>, reply: SaveReply)
    requires Coherent(s, db) && s.user.Some?
    requires if s.conversationId.Some? then reply.updated else reply.insertedId.Some?
    requires forall k :: 0 <= k < |db.conversations| ==> db.conversations[k].updatedAt < reply.now
    ensures var f := InFlight(s.user, s.expertId, s.conversationId, msgs);
            var (_, db') := Save(s, db, f, msgs, reply);
            var latest := Latest(db'.conversations, s.user.value, s.expertId);
            latest.Some? && latest.value.messages == MessageArray(msgs)
  {
    var u := s.user.value;
    var f := InFlight(s.user, s.expertId, s.conversationId, msgs);
    var (_, db') := Save(s, db, f, msgs, reply);
    var t := db'.conversations;
    if s.conversationId.Some? {
      var cid := s.conversationId.value;
      var k :| 0 <= k < |db.conversations| && db.conversations[k].id == cid
               && Owns(db.conversations[k], u, s.expertId);
      assert Owns(t[k], u, s.expertId);
      var latest := Latest(t, u, s.expertId);
      var j :| 0 <= j < |t| && t[j] == latest.value;
      assert t[j].updatedAt >= t[k].updatedAt == reply.now;
      assert db.conversations[j].id == cid;
    } else {
      var n := |db.conversations|;
      assert Owns(t[n], u, s.expertId);
      LatestIsNewest(t, n, u, s.expertId);
    }
  }

  /** Send then load: from a coherent idle session, a send whose reply
      arrives and whose save goes through (stamped later than every stored
      row) leaves the persona's latest conversation holding exactly the
      shown exchange, so reloading the page shows it again. */
  lemma SendThenLoadShowsExchange(s: Session, db: Db, text: string, saved: SaveReply)
    requires Coherent(s, db) && s.user.Some?
    requires !s.isLoading && Trim(s.input) != ""
    requires if s.conversationId.Some? then saved.updated else saved.insertedId.Some?
    requires forall k :: 0 <= k < |db.conversations| ==> db.conversations[k].updatedAt < saved.now
    ensures var (s1, f) := BeginSend(s);
            f.Some? &&
            var (s2, db2) := CompleteSend(s1, db, f.value, Some(text), saved);
            var shown := s.messages + [Message(User, Trim(s.input)), Message(Assistant, text)];
            && s2.messages == shown
            && Load(s2, db2, s.user.value, s.expertId).messages == shown
  {
    var (s1, f) := BeginSend(s);
    var shown := f.value.newMessages + [Message(Assistant, text)];
    assert shown == s.messages + [Message(User, Trim(s.input)), Message(Assistant, text)];
    var s1' := s1.(messages := shown);
    assert Coherent(s1', db);
    SaveThenLoadRoundTrip(s1', db, shown, saved);
    assert f.value == InFlight(s1'.user, s1'.expertId, s1'.conversationId, f.value.newMessages);
    assert Save(s1', db, f.value, shown, saved) == Save(s1', db, InFlight(s1'.user, s1'.expertId, s1'.conversationId, shown), shown, saved);
  }

  /** Saving keeps a session coherent: an update keeps every row's owner and
      an insert adds a row of the session's own user and persona. */
  lemma SavePreservesCoherence(s: Session, db: Db, msgs: seq<Message>, reply: SaveReply)
    requires Coherent(s, db)
    ensures var f := InFlight(s.user, s.expertId, s.conversationId, msgs);
            var (s', db') := Save(s, db, f, msgs, reply);
            Coherent(s', db')
  {
    var f := InFlight(s.user, s.expertId, s.conversationId, msgs);
    var (s', db') := Save(s, db, f, msgs, reply);
    if s'.conversationId.Some? && s.conversationId.Some? {
      var k :| 0 <= k < |db.conversations| && db.conversations[k].id == s.conversationId.value
               && Owns(db.conversations[k], s.user.value, s.expertId);
      assert db'.conversations[k].id == s.conversationId.value;
    } else if s'.conversationId.Some? {
      assert db'.conversations[|db.conversations|].id == s'.conversationId.value;
    }
  }

  /** Clearing keeps a session coherent, whether or not the delete went
      through. */
  lemma ClearPreservesCoherence(s: Session, db: Db, confirmed: bool, deleted: bool)
    requires Coherent(s, db)
    ensures var (s', db') := Clear(s, db, confirmed, deleted); Coherent(s', db')
  {
  }

  /** As written, choosing a persona that has no conversation keeps the
      previous persona's conversation id: the session stops being coherent,
      and the next send's save overwrites the other persona's row. */
  lemma SwitchKeepsOtherConversation()
    ensures var row := Row("c1", "u1", "therapist", "Hi", MessageArray([Message(User, "hi")]), 0, 0);
            var db := Db([row], []);
            var s := Session(Some("u1"), "therapist", [Message(User, "hi")], Some("c1"), "", false, false);
            var s1 := SelectExpert(s, db, "business");
            && Coherent(s, db)
            && s1.conversationId == Some("c1")
            && !Coherent(s1, db)
            && var f := InFlight(s1.user, s1.expertId, s1.conversationId, [Message(User, "plan")]);
               var db1 := Save(s1, db, f, f.newMessages, SaveReply(None, true, 1, true)).1;
               db1.conversations[0].expertId == "therapist"
               && db1.conversations[0].messages == MessageArray([Message(User, "plan")])
               && Latest(db1.conversations, "u1", "business").None?
  {
    var row := Row("c1", "u1", "therapist", "Hi", MessageArray([Message(User, "hi")]), 0, 0);
    var db := Db([row], []);
    assert db.conversations[0] == row;
    assert Latest(db.conversations, "u1", "business").None?;
  }

  /** Choosing a persona with the session reset first, as a fresh session
      for a persona without history requires: either the persona's latest
      conversation is loaded or the session starts empty. */
  function SelectExpertFixed(s: Session, db: Db, expertId: string): (s': Session)
    ensures s'.expertId == expertId && !s'.showExpertSelector
    ensures s.user.Some? && Latest(db.conversations, s.user.value, expertId).None? ==>
              s'.messages == [] && s'.conversationId.None?
    ensures Coherent(s', db)
  {
    var s1 := s.(expertId := expertId, showExpertSelector := false, messages := [], conversationId := None);
    match s.user
    case None => s1
    case Some(u) =>
      LoadIsCoherent(s1, db, u);
      Load(s1, db, u, expertId)
  }

  /** Loading into a reset session for the signed-in user leaves it coherent. */
  lemma LoadIsCoherent(s: Session, db: Db, u: string)
    requires s.user == Some(u) && s.conversationId.None?
    ensures Coherent(Load(s, db, u, s.expertId), db)
  {
    var latest := Latest(db.conversations, u, s.expertId);
    if latest.Some? {
      var k :| 0 <= k < |db.conversations| && db.conversations[k] == latest.value;
    }
  }
}
