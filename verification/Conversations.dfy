/**
  The conversations service (src/services/conversations.ts): the conversation and email tables, and what it
  last did, updated in place.
 */
module Conversations {
  import opened Threading

  datatype Failure = Nothing | NeedsMessageId | NeedsConversation | NeedsState | NotDeclared | NoConversation

  class Service {
    const initialState: string
    const declared: set<string>
    var conversations: map<Id, Conversation>
    var emails: map<Id, Email>
    var lastCount: nat
    var lastError: Failure

    ghost function View(): State
      reads this
    {
      State(conversations, emails)
    }

    constructor (initialState: string, declared: set<string>)
      ensures View() == EMPTY && this.initialState == initialState && this.declared == declared
    {
      this.initialState, this.declared := initialState, declared;
      conversations, emails, lastCount, lastError := map[], map[], 0, Nothing;
    }

    method ThreadOf(e: Envelope) returns (id: Id)
      ensures id == Threading.ThreadOf(emails, e)
    {
      var chain := Chain(e);
      for i := 0 to |chain|
        invariant FirstKnown(emails, chain) == FirstKnown(emails, chain[i..])
      {
        assert chain[i..][0] == chain[i] && chain[i..][1..] == chain[i + 1..];
        if chain[i] in emails {
          return emails[chain[i]].conversationId;
        }
      }
      var references := Present(e.references);
      id := if references != [] then references[0] else if e.inReplyTo != "" then e.inReplyTo else e.messageId;
    }

    method Touch(id: Id, now: Time, sender: string, recipient: string)
      requires id in conversations
      modifies this`conversations
      ensures conversations == old(conversations)[id := Touched(old(conversations)[id], now, sender, recipient)]
    {
      var seen := Present(conversations[id].participants + [sender, recipient]);
      var merged: seq<string> := [];
      for i := 0 to |seen|
        invariant merged == Once(seen[..i])
      {
        assert seen[..i + 1][..i] == seen[..i];
        if seen[i] !in merged {
          merged := merged + [seen[i]];
        }
      }
      assert seen[..|seen|] == seen;
      conversations := conversations[id := conversations[id].(updatedAt := now, participants := merged)];
    }

    method Ingest(e: Envelope, now: Time) returns (answer: Answer)
      requires Inv(View())
      modifies this
      ensures (View(), answer) == Threading.Ingest(old(View()), e, initialState, now)
      ensures Inv(View())
      ensures lastCount == (if answer.Filed? then 1 else 0) || (answer.NoId? && lastCount == old(lastCount))
      ensures lastError == if answer.NoId? then NeedsMessageId else Nothing
    {
      IngestKeeps(View(), e, initialState, now);
      if e.messageId == "" {
        lastError := NeedsMessageId;
        return NoId;
      }
      var id := ThreadOf(e);
      var isNew := id !in conversations;
      if isNew {
        conversations := conversations[id := Conversation(initialState, e.subject, Present([e.sender, e.recipient]), now, now)];
      }
      var known := e.messageId in emails;
      lastError := Nothing;
      if known {
        lastCount := 0;
        return AlreadyKnown(id);
      }
      emails := emails[e.messageId := Stored(e, id, now)];
      if !isNew {
        Touch(id, now, e.sender, e.recipient);
      }
      lastCount := 1;
      answer := Filed(id, isNew);
    }

    method Transition(id: Id, target: string, now: Time) returns (ok: bool)
      requires Inv(View())
      modifies this
      ensures (View(), ok) == Threading.Transition(old(View()), id, target, declared, now)
      ensures Inv(View())
      ensures ok ==> lastCount == 1 && lastError == Nothing
      ensures !ok ==> lastCount == old(lastCount)
      ensures !ok ==> lastError == if id == "" then NeedsConversation else if target == "" then NeedsState else if declared != {} && target !in declared then NotDeclared else NoConversation
    {
      TransitionKeeps(View(), id, target, declared, now);
      if id == "" {
        lastError := NeedsConversation;
        return false;
      }
      if target == "" {
        lastError := NeedsState;
        return false;
      }
      if |declared| > 0 && target !in declared {
        lastError := NotDeclared;
        return false;
      }
      if id !in conversations {
        lastError := NoConversation;
        return false;
      }
      conversations := conversations[id := conversations[id].(state := target, updatedAt := now)];
      lastCount, lastError := 1, Nothing;
      ok := true;
    }
  }
}
