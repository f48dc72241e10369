/**
  Mail filed into conversations (ingest, threadOf, touch and transition of src/services/conversations.ts) over
  the two tables, and when the thread a message lands in does not depend on the order mail arrives in.
 */
module Threading {

  type Id = string
  type Time = nat

  datatype Option<+T> = None | Some(value: T)

  // An envelope as its headers are read: ids without brackets and without blanks, references oldest first
  // (src/services/imap-email.ts:72-90). An id that is not there is "".
  datatype Envelope = Envelope(messageId: Id, inReplyTo: Id, references: seq<Id>, sender: string, recipient: string,
                               subject: string, inbound: bool, sentAt: Option<Time>, body: string)

  datatype Conversation = Conversation(state: string, subject: string, participants: seq<string>, createdAt: Time, updatedAt: Time)
  datatype Email = Email(conversationId: Id, inbound: bool, sentAt: Time, receivedAt: Time, sender: string, recipient: string,
                         subject: string, body: string)

  datatype State = State(conversations: map<Id, Conversation>, emails: map<Id, Email>)

  datatype Answer = NoId | AlreadyKnown(conversationId: Id) | Filed(conversationId: Id, isNew: bool)

  // ---------------------------------------------------------------- one message

  function Present(ids: seq<string>): (r: seq<string>)
    ensures forall x :: x in r <==> x in ids && x != ""
  {
    if ids == [] then [] else (if ids[0] == "" then [] else [ids[0]]) + Present(ids[1..])
  }

  function Reversed(ids: seq<Id>): (r: seq<Id>)
    ensures |r| == |ids| && forall x :: x in r <==> x in ids
  {
    if ids == [] then [] else Reversed(ids[1..]) + [ids[0]]
  }

  // The message it answers, the references from newest to oldest, itself.
  function Chain(e: Envelope): seq<Id> {
    Present([e.inReplyTo] + Reversed(e.references) + [e.messageId])
  }

  // Whatever began the thread, as the headers say.
  function Name(e: Envelope): Id {
    if Present(e.references) != [] then Present(e.references)[0]
    else if e.inReplyTo != "" then e.inReplyTo
    else e.messageId
  }

  function FirstKnown(emails: map<Id, Email>, chain: seq<Id>): (r: Option<Id>)
    ensures r.Some? ==> r.value in chain && r.value in emails
    ensures r.None? <==> forall id :: id in chain ==> id !in emails
  {
    if chain == [] then None
    else if chain[0] in emails then Some(chain[0])
    else FirstKnown(emails, chain[1..])
  }

  function ThreadOf(emails: map<Id, Email>, e: Envelope): Id {
    match FirstKnown(emails, Chain(e))
    case Some(id) => emails[id].conversationId
    case None => Name(e)
  }

  // In order, each once.
  function Once(xs: seq<string>): (r: seq<string>)
    ensures forall x :: x in r <==> x in xs
    ensures forall i, j :: 0 <= i < j < |r| ==> r[i] != r[j]
  {
    if xs == [] then []
    else
      var init := Once(xs[..|xs| - 1]);
      var x := xs[|xs| - 1];
      assert xs == xs[..|xs| - 1] + [x];
      if x in init then init else init + [x]
  }

  function Touched(c: Conversation, now: Time, sender: string, recipient: string): Conversation {
    c.(updatedAt := now, participants := Once(Present(c.participants + [sender, recipient])))
  }

  function Stored(e: Envelope, conversationId: Id, now: Time): Email {
    Email(conversationId, e.inbound, if e.sentAt.Some? then e.sentAt.value else now, now, e.sender, e.recipient, e.subject, e.body)
  }

  function Ingest(s: State, e: Envelope, initialState: string, now: Time): (State, Answer) {
    if e.messageId == "" then (s, NoId)
    else
      var id := ThreadOf(s.emails, e);
      var isNew := id !in s.conversations;
      var begun := if isNew
                    then s.conversations[id := Conversation(initialState, e.subject, Present([e.sender, e.recipient]), now, now)]
                    else s.conversations;
      if e.messageId in s.emails then (State(begun, s.emails), AlreadyKnown(id))
      else
        var touched := if isNew then begun else begun[id := Touched(begun[id], now, e.sender, e.recipient)];
        (State(touched, s.emails[e.messageId := Stored(e, id, now)]), Filed(id, isNew))
  }

  // Refused without a conversation named or a state, to a state not declared where any is, or of no conversation.
  function Transition(s: State, id: Id, target: string, declared: set<string>, now: Time): (State, bool) {
    if id == "" || target == "" || (declared != {} && target !in declared) || id !in s.conversations then (s, false)
    else (s.(conversations := s.conversations[id := s.conversations[id].(state := target, updatedAt := now)]), true)
  }

  // ---------------------------------------------------------------- what every step keeps

  ghost predicate HasEmail(emails: map<Id, Email>, c: Id) {
    exists m :: m in emails && emails[m].conversationId == c
  }

  // Every email's conversation exists, and every conversation has an email.
  ghost predicate Inv(s: State) {
    && "" !in s.emails
    && (forall m :: m in s.emails ==> s.emails[m].conversationId in s.conversations)
    && (forall c :: c in s.conversations ==> HasEmail(s.emails, c))
  }

  lemma OneEmailMore(emails: map<Id, Email>, m: Id, e: Email, c: Id)
    requires m !in emails && (HasEmail(emails, c) || c == e.conversationId)
    ensures HasEmail(emails[m := e], c)
  {
    assert emails[m := e][m].conversationId == e.conversationId;
    if x :| x in emails && emails[x].conversationId == c {
      assert emails[m := e][x].conversationId == c;
    }
  }

  lemma {:induction false} IngestKeeps(s: State, e: Envelope, initialState: string, now: Time)
    requires Inv(s)
    ensures var (n, answer) := Ingest(s, e, initialState, now);
            && Inv(n)
            && (answer.Filed? ==> e.messageId in n.emails && n.emails[e.messageId].conversationId == answer.conversationId
                                  && n.conversations[answer.conversationId].updatedAt == now)
            && s.conversations.Keys <= n.conversations.Keys
            && (forall m :: m in s.emails ==> m in n.emails && n.emails[m] == s.emails[m])
  {
    KnownFinds(s, e);
    var (n, answer) := Ingest(s, e, initialState, now);
    if answer.Filed? {
      forall c | c in n.conversations ensures HasEmail(n.emails, c) {
        OneEmailMore(s.emails, e.messageId, n.emails[e.messageId], c);
      }
    }
  }

  // A message already known is found by its own id, if by nothing else of its chain.
  lemma {:induction false} KnownFinds(s: State, e: Envelope)
    requires Inv(s)
    ensures e.messageId in s.emails ==> ThreadOf(s.emails, e) in s.conversations
    ensures e.messageId != "" && ThreadOf(s.emails, e) !in s.conversations ==> ThreadOf(s.emails, e) == Name(e)
  {
    if e.messageId in s.emails {
      assert e.messageId in [e.inReplyTo] + Reversed(e.references) + [e.messageId];
      assert e.messageId in Chain(e);
    }
  }

  // Ingesting a known message again changes no row: not its own, and no conversation's.
  lemma {:induction false} AgainChangesNothing(s: State, e: Envelope, initialState: string, now: Time)
    requires Inv(s) && e.messageId in s.emails
    ensures Ingest(s, e, initialState, now).0 == s && Ingest(s, e, initialState, now).1.AlreadyKnown?
  {
    KnownFinds(s, e);
  }

  // A reply decides nothing: what a conversation is in, is called and was created at stays, and whoever was
  // in it stays in it; whoever wrote, and whom to, is in it from then on.
  lemma {:induction false} AReplyIsNoDecision(s: State, e: Envelope, initialState: string, now: Time, c: Id)
    requires Inv(s) && c in s.conversations
    ensures var n := Ingest(s, e, initialState, now).0;
            && c in n.conversations
            && n.conversations[c].state == s.conversations[c].state
            && n.conversations[c].subject == s.conversations[c].subject
            && n.conversations[c].createdAt == s.conversations[c].createdAt
            && (forall p :: p in s.conversations[c].participants && p != "" ==> p in n.conversations[c].participants)
    ensures var (n, answer) := Ingest(s, e, initialState, now);
            answer == Filed(c, false) ==>
              forall p :: p in n.conversations[c].participants <==>
                          p != "" && (p in s.conversations[c].participants || p == e.sender || p == e.recipient)
  {
    KnownFinds(s, e);
  }

  lemma {:induction false} TransitionKeeps(s: State, id: Id, target: string, declared: set<string>, now: Time)
    requires Inv(s)
    ensures var (n, ok) := Transition(s, id, target, declared, now);
            && Inv(n) && n.emails == s.emails && n.conversations.Keys == s.conversations.Keys
            && (ok && declared != {} ==> n.conversations[id].state in declared)
            && (!ok ==> n == s)
  {
  }

  // ---------------------------------------------------------------- the order mail arrives in

  // What may arrive: messages by their id, each with its headers.
  type Mailbox = map<Id, Envelope>

  ghost predicate Proper(mail: Mailbox) {
    forall id :: id in mail ==> id != "" && mail[id].messageId == id
  }

  datatype Delivery = Delivery(id: Id, now: Time)

  ghost predicate Deliveries(mail: Mailbox, run: seq<Delivery>) {
    forall i :: 0 <= i < |run| ==> run[i].id in mail
  }

  const EMPTY := State(map[], map[])

  ghost function After(mail: Mailbox, initialState: string, run: seq<Delivery>): (s: State)
    requires Deliveries(mail, run)
    ensures Inv(s)
  {
    if run == [] then EMPTY
    else
      var last := run[|run| - 1];
      var before := After(mail, initialState, run[..|run| - 1]);
      IngestKeeps(before, mail[last.id], initialState, last.now);
      Ingest(before, mail[last.id], initialState, last.now).0
  }

  ghost predicate Delivered(run: seq<Delivery>, id: Id) {
    exists i :: 0 <= i < |run| && run[i].id == id
  }

  // Exactly what was delivered is filed.
  lemma {:induction false} FilesWhatArrived(mail: Mailbox, initialState: string, run: seq<Delivery>, id: Id)
    requires Proper(mail) && Deliveries(mail, run)
    ensures id in After(mail, initialState, run).emails <==> Delivered(run, id)
  {
    if run != [] {
      var init, last := run[..|run| - 1], run[|run| - 1];
      assert run == init + [last];
      FilesWhatArrived(mail, initialState, init, id);
      if i :| 0 <= i < |init| && init[i].id == id {
        assert run[i].id == id;
      }
    }
  }

  // Messages that may arrive name the same thread as whatever of their chain may arrive.
  ghost predicate Agreeing(mail: Mailbox) {
    forall m, r :: m in mail && r in Chain(mail[m]) && r in mail ==> Name(mail[r]) == Name(mail[m])
  }

  ghost predicate FiledAs(mail: Mailbox, name: map<Id, Id>, initialState: string, run: seq<Delivery>)
    requires Deliveries(mail, run)
  {
    forall m :: m in After(mail, initialState, run).emails ==>
                  m in name && After(mail, initialState, run).emails[m].conversationId == name[m]
  }

  // Every message always lands in the conversation given, whatever came before it.
  ghost predicate Steady(mail: Mailbox, name: map<Id, Id>, initialState: string) {
    forall run :: Deliveries(mail, run) ==> FiledAs(mail, name, initialState, run)
  }

  ghost function Names(mail: Mailbox): map<Id, Id> {
    map m | m in mail :: Name(mail[m])
  }

  lemma {:induction false} AgreeingFiles(mail: Mailbox, initialState: string, run: seq<Delivery>)
    requires Proper(mail) && Agreeing(mail) && Deliveries(mail, run)
    ensures FiledAs(mail, Names(mail), initialState, run)
  {
    if run != [] {
      var init, last := run[..|run| - 1], run[|run| - 1];
      AgreeingFiles(mail, initialState, init);
      var s, e := After(mail, initialState, init), mail[last.id];
      assert FiledAs(mail, Names(mail), initialState, init);
      match FirstKnown(s.emails, Chain(e)) {
        case Some(r) => assert r in mail && Name(mail[r]) == Name(e);
        case None =>
      }
    }
  }

  // Alone, a message is filed under the name its headers give; after one of its chain, under that one's.
  lemma {:induction false} AloneIsNamed(mail: Mailbox, name: map<Id, Id>, initialState: string, m: Id)
    requires Proper(mail) && m in mail && Steady(mail, name, initialState)
    ensures m in name && name[m] == Name(mail[m])
  {
    var run := [Delivery(m, 0)];
    assert Deliveries(mail, run) && run[..0] == [];
    assert FiledAs(mail, name, initialState, run);
    assert After(mail, initialState, run[..0]) == EMPTY;
    assert After(mail, initialState, run) == Ingest(EMPTY, mail[m], initialState, 0).0;
    assert FirstKnown(EMPTY.emails, Chain(mail[m])).None?;
    assert After(mail, initialState, run).emails[m].conversationId == Name(mail[m]);
  }

  lemma {:induction false} AfterOneOfItsChain(mail: Mailbox, name: map<Id, Id>, initialState: string, m: Id, r: Id)
    requires Proper(mail) && m in mail && r in mail && r in Chain(mail[m]) && m != r && Steady(mail, name, initialState)
    ensures r in name && m in name && name[r] == name[m]
  {
    var first := [Delivery(r, 0)];
    var run := [Delivery(r, 0), Delivery(m, 0)];
    assert Deliveries(mail, first) && Deliveries(mail, run) && run[..1] == first && first[..0] == [];
    assert FiledAs(mail, name, initialState, run);
    var s := After(mail, initialState, first);
    assert After(mail, initialState, first[..0]) == EMPTY;
    assert s == Ingest(EMPTY, mail[r], initialState, 0).0;
    OneKnown(s, mail[m], r, initialState);
    assert After(mail, initialState, run) == Ingest(s, mail[m], initialState, 0).0;
  }

  lemma {:induction false} OneKnown(s: State, e: Envelope, r: Id, initialState: string)
    requires s.emails.Keys == {r} && r in Chain(e) && e.messageId != r && e.messageId != ""
    ensures var n := Ingest(s, e, initialState, 0).0;
            && n.emails.Keys == {r, e.messageId} && n.emails[r] == s.emails[r]
            && n.emails[e.messageId].conversationId == s.emails[r].conversationId
  {
    assert FirstKnown(s.emails, Chain(e)) == Some(r);
    assert ThreadOf(s.emails, e) == s.emails[r].conversationId;
  }

  // Where mail is filed does not depend on the order it arrives in exactly when messages name the same
  // thread as whatever of their chain arrives; and then each is filed under the name its headers give.
  lemma {:induction false} OrderDoesNotMatterExactly(mail: Mailbox, initialState: string)
    requires Proper(mail)
    ensures (exists name :: Steady(mail, name, initialState)) <==> Agreeing(mail)
    ensures Agreeing(mail) ==> Steady(mail, Names(mail), initialState)
  {
    if Agreeing(mail) {
      forall run | Deliveries(mail, run) ensures FiledAs(mail, Names(mail), initialState, run) {
        AgreeingFiles(mail, initialState, run);
      }
      assert Steady(mail, Names(mail), initialState);
    }
    if name :| Steady(mail, name, initialState) {
      forall m, r | m in mail && r in Chain(mail[m]) && r in mail ensures Name(mail[r]) == Name(mail[m]) {
        AloneIsNamed(mail, name, initialState, m);
        AloneIsNamed(mail, name, initialState, r);
        if m != r {
          AfterOneOfItsChain(mail, name, initialState, m, r);
        }
      }
    }
  }

  // The same mail in two orders, each message as often as it may come: the same messages in the same
  // conversations, and no conversation more.
  lemma {:induction false} TwoOrders(mail: Mailbox, initialState: string, a: seq<Delivery>, b: seq<Delivery>)
    requires Proper(mail) && Agreeing(mail) && Deliveries(mail, a) && Deliveries(mail, b)
    requires forall id :: Delivered(a, id) <==> Delivered(b, id)
    ensures var s, n := After(mail, initialState, a), After(mail, initialState, b);
            && s.emails.Keys == n.emails.Keys && s.conversations.Keys == n.conversations.Keys
            && forall m :: m in s.emails ==> s.emails[m].conversationId == n.emails[m].conversationId
  {
    SameMessages(mail, initialState, a, b);
    AgreeingFiles(mail, initialState, a);
    AgreeingFiles(mail, initialState, b);
    SameConversations(After(mail, initialState, a), After(mail, initialState, b));
    SameConversations(After(mail, initialState, b), After(mail, initialState, a));
  }

  lemma {:induction false} SameMessages(mail: Mailbox, initialState: string, a: seq<Delivery>, b: seq<Delivery>)
    requires Proper(mail) && Deliveries(mail, a) && Deliveries(mail, b)
    requires forall id :: Delivered(a, id) <==> Delivered(b, id)
    ensures After(mail, initialState, a).emails.Keys == After(mail, initialState, b).emails.Keys
  {
    forall id ensures id in After(mail, initialState, a).emails.Keys <==> id in After(mail, initialState, b).emails.Keys {
      FilesWhatArrived(mail, initialState, a, id);
      FilesWhatArrived(mail, initialState, b, id);
    }
  }

  lemma {:induction false} SameConversations(s: State, n: State)
    requires Inv(s) && Inv(n)
    requires forall m :: m in s.emails ==> m in n.emails && s.emails[m].conversationId == n.emails[m].conversationId
    ensures s.conversations.Keys <= n.conversations.Keys
  {
    forall c | c in s.conversations ensures c in n.conversations {
      assert HasEmail(s.emails, c);
      var m :| m in s.emails && s.emails[m].conversationId == c;
      assert n.emails[m].conversationId == c;
    }
  }

  // ---------------------------------------------------------------- as section 3.6.4 of RFC 5322 has it

  // References that begin with the thread's root, and chains that stay within the thread.
  ghost predicate AsReplied(mail: Mailbox, root: map<Id, Id>) {
    && mail.Keys <= root.Keys
    && forall m :: m in mail ==>
                     && (if m == root[m] then Name(mail[m]) == m
                         else Present(mail[m].references) != [] && Present(mail[m].references)[0] == root[m])
                     && forall r :: r in Chain(mail[m]) && r in mail ==> root[r] == root[m]
  }

  lemma {:induction false} RepliesMeetAtTheRoot(mail: Mailbox, root: map<Id, Id>, initialState: string, run: seq<Delivery>, m: Id)
    requires Proper(mail) && AsReplied(mail, root) && Deliveries(mail, run)
    requires m in After(mail, initialState, run).emails
    ensures m in mail && After(mail, initialState, run).emails[m].conversationId == root[m]
  {
    FilesWhatArrived(mail, initialState, run, m);
    forall x | x in mail ensures Name(mail[x]) == root[x] {}
    assert Agreeing(mail);
    AgreeingFiles(mail, initialState, run);
  }

  // A reply whose client kept only the last of its references is filed by the order it arrives in.
  lemma {:induction false} TruncatedReferences(initialState: string)
    ensures var first := Envelope("a", "", [], "", "", "", true, None, "");
            var second := Envelope("b", "a", ["a"], "", "", "", true, None, "");
            var third := Envelope("c", "b", ["b"], "", "", "", true, None, "");
            var mail := map["a" := first, "b" := second, "c" := third];
            Proper(mail) && forall name :: !Steady(mail, name, initialState)
  {
    var first := Envelope("a", "", [], "", "", "", true, None, "");
    var second := Envelope("b", "a", ["a"], "", "", "", true, None, "");
    var third := Envelope("c", "b", ["b"], "", "", "", true, None, "");
    var mail := map["a" := first, "b" := second, "c" := third];
    assert "b" in [third.inReplyTo] + Reversed(third.references) + [third.messageId];
    assert "b" in Chain(third);
    assert Present(["b"]) == ["b"] && Present(["a"]) == ["a"];
    assert Name(mail["c"]) == "b" && Name(mail["b"]) == "a";
    assert !Agreeing(mail);
    OrderDoesNotMatterExactly(mail, initialState);
  }
}
