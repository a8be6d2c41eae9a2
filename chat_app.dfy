/**
 * The chat client's top-level component: it owns the conversation state and
 * drives one send through begin-send, the streamed chunks (with the user
 * possibly clearing the chat meanwhile) and the ending.
 */
module ChatApp {
  import opened Wrappers
  import opened Conversation
  import opened Session

  class App {
    var state: ChatState
    /** The greeting the conversation was created with. */
    ghost var greeting: Message

    ghost predicate Valid()
      reads this
    {
      GreetingFirst(state, greeting) && IdsDistinct(state.messages)
    }

    /** The component's initial state: the greeting alone, idle, no error. */
    constructor (time: int)
      ensures Valid() && greeting == Greeting(time)
      ensures state == InitialState(time)
    {
      state := InitialState(time);
      greeting := Greeting(time);
    }

    /** The clear-chat button: truncate to the greeting and clear the error. */
    method ClearChat()
      requires Valid()
      modifies this
      ensures Valid() && greeting == old(greeting)
      ensures state == Reset(old(state))
      ensures state.messages == [greeting] && state.error == None && state.isLoading == old(state.isLoading)
    {
      state := Reset(state);
    }

    /**
     * Send `content` and consume the scripted stream `events`, which ends as
     * `outcome` says. `history` is what is handed to the stream.
     */
    method HandleSendMessage(content: string, userId: string, placeholderId: string, time: int,
                             events: seq<Event>, outcome: Outcome)
      returns (history: seq<Message>)
      requires Valid() && !state.isLoading
      requires FreshId(state.messages, userId) && FreshId(state.messages, placeholderId)
      requires userId != placeholderId
      modifies this
      ensures Valid() && greeting == old(greeting)
      ensures state == Run(old(state), userId, content, placeholderId, time, events, outcome)
      ensures history == old(state).messages + [UserMessage(userId, content, time)]
      ensures FreshId(history, placeholderId)
      ensures !state.isLoading
      ensures outcome == Ended && UserClear !in events ==>
        state.messages == old(state).messages
          + [UserMessage(userId, content, time), Message(placeholderId, Assistant, Text(events), time)]
      ensures outcome == Failed && UserClear !in events ==>
        state.messages == old(state).messages + [UserMessage(userId, content, time)]
      ensures UserClear in events ==> state.messages == [greeting]
      ensures state.error == if outcome == Failed then Some(FailureText) else None
    {
      var snapshot := state;
      ghost var g := greeting;
      assert placeholderId != WelcomeId by { assert state.messages[0].id == WelcomeId; }
      HistoryExcludesPlaceholder(snapshot, userId, content, placeholderId, time);
      TransitionsKeepGreeting(state, g, userId, content, placeholderId, time, "");
      BeginSendDistinct(state, userId, content, placeholderId, time);
      SessionKeepsIdsDistinct(snapshot, userId, content, placeholderId, time, events, outcome);
      state := BeginSend(state, userId, content, placeholderId, time);
      ghost var begun := state;
      history := History(snapshot, userId, content, time);

      var fullAssistantContent := "";
      var i := 0;
      while i < |events|
        invariant 0 <= i <= |events|
        invariant greeting == g && GreetingFirst(state, g) && IdsDistinct(state.messages)
        invariant fullAssistantContent == Text(events[..i])
        invariant Tracks(state, placeholderId, fullAssistantContent)
        invariant Deliver(state, placeholderId, fullAssistantContent, events[i..])
               == Deliver(begun, placeholderId, "", events)
      {
        TextPrefixStep(events, i);
        DeliverStep(state, placeholderId, fullAssistantContent, events, i);
        StepTracks(state, g, placeholderId, fullAssistantContent, events[i]);
        match events[i] {
          case Fragment(chunk) =>
            ApplyChunkDistinct(state, placeholderId, fullAssistantContent + chunk);
            fullAssistantContent := fullAssistantContent + chunk;
            state := ApplyChunk(state, placeholderId, fullAssistantContent);
          case UserClear =>
            ClearChat();
        }
        i := i + 1;
      }
      assert events[i..] == [];
      assert state == Deliver(begun, placeholderId, "", events);

      match outcome {
        case Ended =>
          state := Complete(state);
        case Failed =>
          state := Fail(state, placeholderId);
      }
      RunSummary(snapshot, g, userId, content, placeholderId, time, events, outcome);
    }
  }
}
