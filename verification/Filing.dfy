/**
  What is filed of a message, and where (src/services/conversations.ts): the rows of the two tables, column by column,
  and the conversation a message joins, told from its headers and from the messages known.
 */
module Filing {
  import opened Threading

  // ---------------------------------------------------------------- which conversation

  // Blank ids name nothing.
  predicate Known(emails: map<Id, Email>, id: Id) {
    id != "" && id in emails
  }

  lemma {:induction false} PresentAppend(a: seq<string>, b: seq<string>)
    ensures Present(a + b) == Present(a) + Present(b)
  {
    if a == [] {
      assert a + b == b;
    } else {
      PresentAppend(a[1..], b);
      assert (a + b)[1..] == a[1..] + b;
      Associates(Given(a[0]), Present(a[1..]), Present(b));
    }
  }

  function Given(who: string): seq<string> {
    if who == "" then [] else [who]
  }

  lemma Associates(a: seq<string>, b: seq<string>, c: seq<string>)
    ensures a + b + c == a + (b + c)
  {
  }

  lemma {:induction false} FirstKnownAppend(emails: map<Id, Email>, a: seq<Id>, b: seq<Id>)
    ensures FirstKnown(emails, a + b) == if FirstKnown(emails, a).Some? then FirstKnown(emails, a) else FirstKnown(emails, b)
  {
    if a == [] {
      assert a + b == b;
    } else {
      FirstKnownAppend(emails, a[1..], b);
      assert (a + b)[1..] == a[1..] + b;
    }
  }

  // The newest reference that is known, as its place.
  function NewestKnown(emails: map<Id, Email>, references: seq<Id>): (i: Option<nat>)
    ensures i.Some? ==> i.value < |references| && Known(emails, references[i.value])
    ensures forall j :: (if i.Some? then i.value + 1 else 0) <= j < |references| ==> !Known(emails, references[j])
  {
    if references == [] then None
    else if Known(emails, references[|references| - 1]) then Some(|references| - 1)
    else NewestKnown(emails, references[..|references| - 1])
  }

  lemma {:induction false} NewestFirst(emails: map<Id, Email>, references: seq<Id>)
    ensures FirstKnown(emails, Present(Reversed(references)))
         == match NewestKnown(emails, references) case Some(i) => Some(references[i]) case None => None
  {
    if references != [] {
      var init, last := references[..|references| - 1], references[|references| - 1];
      NewestFirst(emails, init);
      LastFirst(init, last);
      assert references == init + [last];
      assert Reversed(references) == [last] + Reversed(init);
      PresentAppend([last], Reversed(init));
      FirstKnownAppend(emails, Present([last]), Present(Reversed(init)));
    }
  }

  lemma {:induction false} LastFirst(init: seq<Id>, last: Id)
    ensures Reversed(init + [last]) == [last] + Reversed(init)
  {
    if init != [] {
      LastFirst(init[1..], last);
      assert (init + [last])[1..] == init[1..] + [last];
    }
  }

  // A message joins the conversation of the message it answers, if that is known; else of the newest of its references
  // that is; else its own, when it is known itself. Where none is known, the oldest reference names the conversation,
  // without any the message it answers, and without that the message itself.
  lemma {:induction false} JoinsTheMostSpecific(emails: map<Id, Email>, e: Envelope)
    ensures ThreadOf(emails, e) ==
            if Known(emails, e.inReplyTo) then emails[e.inReplyTo].conversationId
            else match NewestKnown(emails, e.references)
              case Some(i) => emails[e.references[i]].conversationId
              case None =>
                if Known(emails, e.messageId) then emails[e.messageId].conversationId
                else match OldestNamed(e.references)
                  case Some(i) => e.references[i]
                  case None => if e.inReplyTo != "" then e.inReplyTo else e.messageId
  {
    var newest := Present(Reversed(e.references));
    PresentAppend([e.inReplyTo] + Reversed(e.references), [e.messageId]);
    PresentAppend([e.inReplyTo], Reversed(e.references));
    FirstKnownAppend(emails, Present([e.inReplyTo]) + newest, Present([e.messageId]));
    FirstKnownAppend(emails, Present([e.inReplyTo]), newest);
    NewestFirst(emails, e.references);
    OldestIsFirst(e.references);
  }

  function OldestNamed(references: seq<Id>): (i: Option<nat>)
    ensures i.Some? ==> i.value < |references| && references[i.value] != "" && forall j :: 0 <= j < i.value ==> references[j] == ""
    ensures i.None? ==> forall j :: 0 <= j < |references| ==> references[j] == ""
  {
    if references == [] then None
    else if references[0] != "" then Some(0)
    else match OldestNamed(references[1..]) case Some(i) => Some(i + 1) case None => None
  }

  lemma {:induction false} OldestIsFirst(references: seq<Id>)
    ensures match OldestNamed(references)
            case Some(i) => Present(references) != [] && Present(references)[0] == references[i]
            case None => Present(references) == []
  {
    if references != [] {
      OldestIsFirst(references[1..]);
    }
  }

  // ---------------------------------------------------------------- who is in a conversation

  lemma {:induction false} OnceThen(xs: seq<string>, x: string)
    ensures Once(xs + [x]) == if x in Once(xs) then Once(xs) else Once(xs) + [x]
  {
    assert (xs + [x])[..|xs|] == xs;
  }

  // Whoever was in it stays, in order; then the sender and then the recipient, unless in it by then or not given.
  lemma {:induction false} TouchedInOrder(c: Conversation, now: Time, sender: string, recipient: string)
    ensures var was := Once(Present(c.participants));
            var more := if sender == "" || sender in was then was else was + [sender];
            Touched(c, now, sender, recipient)
            == c.(updatedAt := now, participants := if recipient == "" || recipient in more then more else more + [recipient])
  {
    var p := Present(c.participants);
    assert c.participants + [sender, recipient] == c.participants + [sender] + [recipient];
    PresentAppend(c.participants + [sender], [recipient]);
    PresentAppend(c.participants, [sender]);
    OnceGiven(p, sender);
    OnceGiven(p + Given(sender), recipient);
  }

  lemma {:induction false} OnceGiven(xs: seq<string>, x: string)
    ensures Present([x]) == Given(x)
    ensures Once(xs + Given(x)) == if x == "" || x in Once(xs) then Once(xs) else Once(xs) + [x]
  {
    if x == "" {
      assert xs + [] == xs;
    } else {
      OnceThen(xs, x);
    }
  }

  // ---------------------------------------------------------------- the rows

  // One message: refused without an id, nothing when it is known, and else filed as it came. A conversation it begins
  // is in the initial state, called as it is, with whoever wrote and whom to, from now on; another is only touched.
  lemma {:induction false} FiledAsItCame(s: State, e: Envelope, initialState: string, now: Time)
    requires Inv(s)
    ensures var (n, answer) := Ingest(s, e, initialState, now);
            var id := ThreadOf(s.emails, e);
            && (answer == NoId <==> e.messageId == "")
            && (answer == AlreadyKnown(id) <==> e.messageId != "" && e.messageId in s.emails)
            && (answer == Filed(id, id !in s.conversations) <==> e.messageId != "" && e.messageId !in s.emails)
            && (!answer.Filed? ==> n == s)
            && (answer.Filed? ==>
                  && n.emails == s.emails[e.messageId := n.emails[e.messageId]]
                  && CameAs(e, now, n.emails[e.messageId]) && n.emails[e.messageId].conversationId == id
                  && n.conversations == s.conversations[id := n.conversations[id]]
                  && if id in s.conversations then n.conversations[id] == Touched(s.conversations[id], now, e.sender, e.recipient)
                     else n.conversations[id] == Conversation(initialState, e.subject, Given(e.sender) + Given(e.recipient), now, now))
  {
    KnownFinds(s, e);
    if e.messageId in s.emails && e.messageId != "" {
      AgainChangesNothing(s, e, initialState, now);
    }
    assert Present([e.sender, e.recipient]) == Given(e.sender) + Given(e.recipient) by {
      PresentAppend([e.sender], [e.recipient]);
      assert [e.sender] + [e.recipient] == [e.sender, e.recipient];
    }
  }

  // A row as the message came: when it was sent, or else now, and when it was received.
  predicate CameAs(e: Envelope, now: Time, row: Email) {
    && row.inbound == e.inbound && row.sender == e.sender && row.recipient == e.recipient
    && row.subject == e.subject && row.body == e.body && row.receivedAt == now
    && row.sentAt == if e.sentAt.Some? then e.sentAt.value else now
  }

  // A row as the first delivery of its message left it.
  ghost predicate FirstCame(mail: Mailbox, run: seq<Delivery>, m: Id, row: Email) {
    m in mail && exists i :: 0 <= i < |run| && FirstAt(run, m, i) && CameAs(mail[m], run[i].now, row)
  }

  predicate FirstAt(run: seq<Delivery>, m: Id, i: nat) {
    i < |run| && run[i].id == m && forall j :: 0 <= j < i ==> run[j].id != m
  }

  // In every run a message's row is as the message came the first time.
  lemma {:induction false} FiledOnce(mail: Mailbox, initialState: string, run: seq<Delivery>, m: Id)
    requires Proper(mail) && Deliveries(mail, run) && Delivered(run, m)
    ensures m in After(mail, initialState, run).emails && FirstCame(mail, run, m, After(mail, initialState, run).emails[m])
    decreases |run|
  {
    var init := run[..|run| - 1];
    FilesWhatArrived(mail, initialState, run, m);
    FilesWhatArrived(mail, initialState, init, m);
    LastDelivery(mail, initialState, run, m);
    if Delivered(init, m) {
      FiledOnce(mail, initialState, init, m);
      StillFirst(mail, run, m, After(mail, initialState, init).emails[m]);
    } else {
      NowFirst(run, m);
    }
  }

  lemma LastDelivery(mail: Mailbox, initialState: string, run: seq<Delivery>, m: Id)
    requires Proper(mail) && Deliveries(mail, run) && run != []
    ensures var s, n := After(mail, initialState, run[..|run| - 1]), After(mail, initialState, run);
            var last := run[|run| - 1];
            && (m in s.emails ==> m in n.emails && n.emails[m] == s.emails[m])
            && (m !in s.emails && last.id == m ==> m in n.emails && CameAs(mail[m], last.now, n.emails[m]))
  {
    var last := run[|run| - 1];
    var s := After(mail, initialState, run[..|run| - 1]);
    FiledAsItCame(s, mail[last.id], initialState, last.now);
  }

  lemma StillFirst(mail: Mailbox, run: seq<Delivery>, m: Id, row: Email)
    requires run != [] && FirstCame(mail, run[..|run| - 1], m, row)
    ensures FirstCame(mail, run, m, row)
  {
    var init := run[..|run| - 1];
    var i :| 0 <= i < |init| && FirstAt(init, m, i) && CameAs(mail[m], init[i].now, row);
    assert FirstAt(run, m, i) by {
      assert forall j :: 0 <= j < |init| ==> run[j] == init[j];
    }
  }

  lemma NowFirst(run: seq<Delivery>, m: Id)
    requires Delivered(run, m) && run != [] && !Delivered(run[..|run| - 1], m)
    ensures FirstAt(run, m, |run| - 1)
  {
    var init := run[..|run| - 1];
    assert forall j :: 0 <= j < |init| ==> run[j] == init[j] && init[j].id != m;
  }

  // A transition that goes through moves the conversation named to the state named, now, and changes nothing else.
  lemma {:induction false} MovedAsAsked(s: State, id: Id, target: string, declared: set<string>, now: Time)
    ensures var (n, ok) := Transition(s, id, target, declared, now);
            && (ok <==> id != "" && target != "" && (declared == {} || target in declared) && id in s.conversations)
            && n.emails == s.emails
            && (!ok ==> n == s)
            && (ok ==> n.conversations == s.conversations[id := s.conversations[id].(state := target, updatedAt := now)])
  {
  }
}
