/**
 * One send-and-receive session over a scripted stream. The stream's events
 * are the text fragments it delivers, interleaved with the user pressing
 * "clear chat"; the script ends either normally or with a failure (which
 * may come before any fragment).
 */
module Session {
  import opened Wrappers
  import opened Conversation

  datatype Event = Fragment(text: string) | UserClear

  datatype Outcome = Ended | Failed

  /** The text an event contributes to the reply. */
  function TextOf(e: Event): string {
    match e
    case Fragment(chunk) => chunk
    case UserClear => ""
  }

  /** The concatenation, in arrival order, of the fragments among `events`. */
  function Text(events: seq<Event>): (r: string)
    ensures (forall i :: 0 <= i < |events| ==> events[i] == UserClear) ==> r == ""
    ensures |events| == 1 ==> r == TextOf(events[0])
  {
    if events == [] then "" else TextOf(events[0]) + Text(events[1..])
  }

  /** The last message is the placeholder only if it already shows `buffer`. */
  predicate Tracks(s: ChatState, placeholderId: string, buffer: string)
    requires |s.messages| > 0
  {
    Last(s.messages).id == placeholderId ==> Last(s.messages).content == buffer
  }

  /**
   * The state after the events of `events`: a fragment extends the running
   * buffer and writes it into the placeholder, a clear resets the chat.
   */
  function Deliver(s: ChatState, placeholderId: string, buffer: string, events: seq<Event>): (r: ChatState)
    requires |s.messages| > 0
    ensures |r.messages| > 0
    ensures r.isLoading == s.isLoading
    ensures s.error == None ==> r.error == None
    decreases |events|
  {
    if events == [] then s
    else match events[0]
      case Fragment(chunk) =>
        Deliver(ApplyChunk(s, placeholderId, buffer + chunk), placeholderId, buffer + chunk, events[1..])
      case UserClear =>
        Deliver(Reset(s), placeholderId, buffer, events[1..])
  }

  /** A whole session: begin-send, the scripted events, then complete or fail. */
  function Run(s: ChatState, userId: string, content: string, placeholderId: string, time: int,
               events: seq<Event>, outcome: Outcome): (r: ChatState)
    ensures !r.isLoading
    ensures r.error == if outcome == Failed then Some(FailureText) else None
  {
    var streaming := Deliver(BeginSend(s, userId, content, placeholderId, time), placeholderId, "", events);
    match outcome
    case Ended => Complete(streaming)
    case Failed => Fail(streaming, placeholderId)
  }

  // ---------------------------------------------------------------------
  // The running buffer

  /** The buffer after a split script is the buffers of the two parts joined. */
  lemma {:induction false} TextAppend(a: seq<Event>, b: seq<Event>)
    ensures Text(a + b) == Text(a) + Text(b)
  {
    if a == [] {
      assert a + b == b;
    } else {
      assert (a + b)[0] == a[0];
      assert (a + b)[1..] == a[1..] + b;
      TextAppend(a[1..], b);
    }
  }

  /** Taking one more event extends the buffer by that event's text. */
  lemma TextPrefixStep(events: seq<Event>, i: nat)
    requires i < |events|
    ensures Text(events[..i + 1]) == Text(events[..i]) + TextOf(events[i])
  {
    assert events[..i + 1] == events[..i] + [events[i]];
    TextAppend(events[..i], [events[i]]);
    assert Text([events[i]]) == TextOf(events[i]) + Text([]);
  }

  /**
   * Handling one event: the state after the rest of the script is the same
   * whether one starts from the event itself or from its effect.
   */
  lemma DeliverStep(s: ChatState, placeholderId: string, buffer: string, events: seq<Event>, i: nat)
    requires |s.messages| > 0 && i < |events|
    ensures Deliver(s, placeholderId, buffer, events[i..])
      == match events[i]
         case Fragment(chunk) =>
           Deliver(ApplyChunk(s, placeholderId, buffer + chunk), placeholderId, buffer + chunk, events[i + 1..])
         case UserClear =>
           Deliver(Reset(s), placeholderId, buffer, events[i + 1..])
  {
  }

  /** One event keeps the buffer invariant (and the greeting in front). */
  lemma StepTracks(s: ChatState, g: Message, placeholderId: string, buffer: string, e: Event)
    requires GreetingFirst(s, g) && placeholderId != WelcomeId
    requires Tracks(s, placeholderId, buffer)
    ensures e.Fragment? ==> var next := ApplyChunk(s, placeholderId, buffer + e.text);
      GreetingFirst(next, g) && Tracks(next, placeholderId, buffer + TextOf(e))
    ensures e.UserClear? ==> GreetingFirst(Reset(s), g) && Tracks(Reset(s), placeholderId, buffer + TextOf(e))
  {
  }

  /**
   * After any script, the placeholder, if it is still the last message,
   * holds the starting buffer followed by the script's fragments in arrival
   * order; the first message is kept.
   */
  lemma {:induction false} DeliverTracksBuffer(s: ChatState, placeholderId: string, buffer: string, events: seq<Event>)
    requires |s.messages| > 0 && s.messages[0].id != placeholderId
    requires Tracks(s, placeholderId, buffer)
    ensures Deliver(s, placeholderId, buffer, events).messages[0] == s.messages[0]
    ensures Tracks(Deliver(s, placeholderId, buffer, events), placeholderId, buffer + Text(events))
    decreases |events|
  {
    if events == [] {
      assert buffer + Text(events) == buffer;
    } else {
      var rest := events[1..];
      match events[0]
      case Fragment(chunk) =>
        var next := ApplyChunk(s, placeholderId, buffer + chunk);
        FirstKept(s, placeholderId, buffer + chunk);
        DeliverTracksBuffer(next, placeholderId, buffer + chunk, rest);
        assert Text(events) == chunk + Text(rest);
        assert buffer + chunk + Text(rest) == buffer + Text(events);
      case UserClear =>
        DeliverTracksBuffer(Reset(s), placeholderId, buffer, rest);
        assert Text(events) == Text(rest);
    }
  }

  /** A chunk update does not touch the first message unless it is the placeholder. */
  lemma FirstKept(s: ChatState, placeholderId: string, buffer: string)
    requires |s.messages| > 0 && s.messages[0].id != placeholderId
    ensures ApplyChunk(s, placeholderId, buffer).messages[0] == s.messages[0]
  {
  }

  /**
   * Without a clear, the events only rewrite the placeholder's content: it
   * ends up holding the whole concatenated reply, and nothing else changes.
   */
  lemma {:induction false} DeliverWithoutClear(s: ChatState, placeholderId: string, buffer: string, events: seq<Event>)
    requires |s.messages| > 0
    requires Last(s.messages).id == placeholderId && Last(s.messages).content == buffer
    requires UserClear !in events
    ensures var n := |s.messages|;
      Deliver(s, placeholderId, buffer, events)
        == s.(messages := s.messages[..n - 1] + [Last(s.messages).(content := buffer + Text(events))])
    decreases |events|
  {
    var n := |s.messages|;
    if events == [] {
      assert s.messages[..n - 1] + [Last(s.messages)] == s.messages;
      assert buffer + Text(events) == buffer;
    } else {
      var rest := events[1..];
      assert events == [events[0]] + rest;
      assert UserClear !in rest;
      match events[0]
      case Fragment(chunk) =>
        var next := ApplyChunk(s, placeholderId, buffer + chunk);
        DeliverWithoutClear(next, placeholderId, buffer + chunk, rest);
        assert next.messages == s.messages[..n - 1] + [Last(s.messages).(content := buffer + chunk)];
        assert next.messages[..n - 1] == s.messages[..n - 1];
        assert buffer + chunk + Text(rest) == buffer + Text(events);
    }
  }

  /** Once only a greeting other than the placeholder is left, events change nothing. */
  lemma {:induction false} DeliverAfterReset(s: ChatState, placeholderId: string, buffer: string, events: seq<Event>)
    requires |s.messages| == 1 && s.messages[0].id != placeholderId && s.error == None
    ensures Deliver(s, placeholderId, buffer, events) == s
    decreases |events|
  {
    if events != [] {
      match events[0]
      case Fragment(chunk) =>
        DeliverAfterReset(s, placeholderId, buffer + chunk, events[1..]);
      case UserClear =>
        assert Reset(s) == s;
        DeliverAfterReset(s, placeholderId, buffer, events[1..]);
    }
  }

  /**
   * A clear during the session leaves the conversation at its first message
   * with no error, whatever fragments arrive before or after it.
   */
  lemma {:induction false} DeliverWithClear(s: ChatState, placeholderId: string, buffer: string, events: seq<Event>)
    requires |s.messages| > 0 && s.messages[0].id != placeholderId
    requires UserClear in events
    ensures Deliver(s, placeholderId, buffer, events) == s.(messages := [s.messages[0]], error := None)
    decreases |events|
  {
    var rest := events[1..];
    match events[0]
    case UserClear =>
      DeliverAfterReset(Reset(s), placeholderId, buffer, rest);
    case Fragment(chunk) =>
      assert events == [events[0]] + rest;
      assert UserClear in rest;
      var next := ApplyChunk(s, placeholderId, buffer + chunk);
      FirstKept(s, placeholderId, buffer + chunk);
      DeliverWithClear(next, placeholderId, buffer + chunk, rest);
  }

  /** The events keep ids distinct. */
  lemma {:induction false} DeliverDistinct(s: ChatState, placeholderId: string, buffer: string, events: seq<Event>)
    requires |s.messages| > 0 && IdsDistinct(s.messages)
    ensures IdsDistinct(Deliver(s, placeholderId, buffer, events).messages)
    decreases |events|
  {
    if events != [] {
      match events[0]
      case Fragment(chunk) =>
        ApplyChunkDistinct(s, placeholderId, buffer + chunk);
        DeliverDistinct(ApplyChunk(s, placeholderId, buffer + chunk), placeholderId, buffer + chunk, events[1..]);
      case UserClear =>
        DeliverDistinct(Reset(s), placeholderId, buffer, events[1..]);
    }
  }

  // ---------------------------------------------------------------------
  // Whole sessions

  /**
   * A session that ends normally without a clear adds exactly the user
   * message and the assistant message holding the concatenated reply.
   */
  lemma SessionCompletes(s: ChatState, userId: string, content: string, placeholderId: string, time: int,
                         events: seq<Event>)
    requires UserClear !in events
    ensures Run(s, userId, content, placeholderId, time, events, Ended)
      == ChatState(s.messages + [UserMessage(userId, content, time), Message(placeholderId, Assistant, Text(events), time)],
                   false, None)
  {
    StreamingWithoutClear(s, userId, content, placeholderId, time, events);
  }

  /**
   * A session that fails without a clear, before or after any fragment,
   * leaves the pre-send messages plus the user message: the placeholder and
   * its partial content are gone, and the error is set.
   */
  lemma SessionFails(s: ChatState, userId: string, content: string, placeholderId: string, time: int,
                     events: seq<Event>)
    requires FreshId(s.messages, placeholderId) && userId != placeholderId
    requires UserClear !in events
    ensures Run(s, userId, content, placeholderId, time, events, Failed)
      == ChatState(s.messages + [UserMessage(userId, content, time)], false, Some(FailureText))
  {
    var user := UserMessage(userId, content, time);
    var filled := Message(placeholderId, Assistant, Text(events), time);
    var streaming := Deliver(BeginSend(s, userId, content, placeholderId, time), placeholderId, "", events);
    StreamingWithoutClear(s, userId, content, placeholderId, time, events);
    assert streaming.messages == (s.messages + [user]) + [filled];
    RemoveIdAppend(s.messages + [user], [filled], placeholderId);
    RemoveIdAppend(s.messages, [user], placeholderId);
    RemoveIdAbsent(s.messages, placeholderId);
    assert RemoveId([filled], placeholderId) == RemoveId([], placeholderId);
    assert RemoveId([user], placeholderId) == [user] + RemoveId([], placeholderId);
  }

  /** The state just before the ending of a session without a clear. */
  lemma StreamingWithoutClear(s: ChatState, userId: string, content: string, placeholderId: string, time: int,
                              events: seq<Event>)
    requires UserClear !in events
    ensures Deliver(BeginSend(s, userId, content, placeholderId, time), placeholderId, "", events)
      == ChatState(s.messages + [UserMessage(userId, content, time), Message(placeholderId, Assistant, Text(events), time)],
                   true, None)
  {
    var begun := BeginSend(s, userId, content, placeholderId, time);
    var n := |begun.messages|;
    assert Last(begun.messages) == Placeholder(placeholderId, time);
    DeliverWithoutClear(begun, placeholderId, "", events);
    assert "" + Text(events) == Text(events);
    assert begun.messages[..n - 1] == s.messages + [UserMessage(userId, content, time)];
  }

  /**
   * A clear during a session leaves only the first message, whatever the
   * ending: later chunks do not bring the placeholder back and a later
   * failure removes nothing more; only a failure sets the error.
   */
  lemma SessionWithClear(s: ChatState, userId: string, content: string, placeholderId: string, time: int,
                         events: seq<Event>, outcome: Outcome)
    requires |s.messages| > 0 && s.messages[0].id != placeholderId
    requires UserClear in events
    ensures var r := Run(s, userId, content, placeholderId, time, events, outcome);
      r.messages == [s.messages[0]] && !r.isLoading
      && r.error == (if outcome == Ended then None else Some(FailureText))
  {
    var begun := BeginSend(s, userId, content, placeholderId, time);
    assert begun.messages[0] == begun.messages[..|s.messages|][0];
    DeliverWithClear(begun, placeholderId, "", events);
    assert RemoveId([s.messages[0]], placeholderId) == [s.messages[0]] + RemoveId([], placeholderId);
  }

  /** Every session keeps the greeting as the first message. */
  lemma SessionKeepsGreeting(s: ChatState, g: Message, userId: string, content: string, placeholderId: string,
                             time: int, events: seq<Event>, outcome: Outcome)
    requires GreetingFirst(s, g) && placeholderId != WelcomeId
    ensures GreetingFirst(Run(s, userId, content, placeholderId, time, events, outcome), g)
  {
    var begun := BeginSend(s, userId, content, placeholderId, time);
    TransitionsKeepGreeting(s, g, userId, content, placeholderId, time, "");
    assert Tracks(begun, placeholderId, "");
    DeliverTracksBuffer(begun, placeholderId, "", events);
    var streaming := Deliver(begun, placeholderId, "", events);
    TransitionsKeepGreeting(streaming, g, userId, content, placeholderId, time, "");
  }

  /** Every session started with two fresh, different ids keeps ids distinct. */
  lemma SessionKeepsIdsDistinct(s: ChatState, userId: string, content: string, placeholderId: string, time: int,
                                events: seq<Event>, outcome: Outcome)
    requires IdsDistinct(s.messages)
    requires FreshId(s.messages, userId) && FreshId(s.messages, placeholderId) && userId != placeholderId
    ensures IdsDistinct(Run(s, userId, content, placeholderId, time, events, outcome).messages)
  {
    var begun := BeginSend(s, userId, content, placeholderId, time);
    BeginSendDistinct(s, userId, content, placeholderId, time);
    DeliverDistinct(begun, placeholderId, "", events);
    RemoveIdDistinct(Deliver(begun, placeholderId, "", events).messages, placeholderId);
  }

  /**
   * What a session started from a state with the greeting in front leaves
   * behind, in every case: loading has stopped; without a clear the
   * conversation grew by the user message and, on a normal end, by the
   * assistant message holding the whole reply; with a clear only the
   * greeting is left; the error is set exactly when the stream failed.
   */
  lemma RunSummary(s: ChatState, g: Message, userId: string, content: string, placeholderId: string, time: int,
                   events: seq<Event>, outcome: Outcome)
    requires GreetingFirst(s, g)
    requires FreshId(s.messages, placeholderId) && userId != placeholderId
    ensures var r := Run(s, userId, content, placeholderId, time, events, outcome);
      && GreetingFirst(r, g)
      && !r.isLoading
      && (outcome == Ended && UserClear !in events ==>
            r.messages == s.messages + [UserMessage(userId, content, time), Message(placeholderId, Assistant, Text(events), time)])
      && (outcome == Failed && UserClear !in events ==>
            r.messages == s.messages + [UserMessage(userId, content, time)])
      && (UserClear in events ==> r.messages == [g])
      && r.error == (if outcome == Failed then Some(FailureText) else None)
  {
    assert placeholderId != WelcomeId by { assert s.messages[0].id == WelcomeId; }
    SessionKeepsGreeting(s, g, userId, content, placeholderId, time, events, outcome);
    if UserClear !in events {
      if outcome == Ended {
        SessionCompletes(s, userId, content, placeholderId, time, events);
      } else {
        SessionFails(s, userId, content, placeholderId, time, events);
      }
    } else {
      SessionWithClear(s, userId, content, placeholderId, time, events, outcome);
    }
  }

  /** Greeting only, send "Hi", fragments "Hi" and " there!", normal end. */
  lemma HiThereScenario(time: int)
    ensures Run(InitialState(time), "1", "Hi", "2", time, [Fragment("Hi"), Fragment(" there!")], Ended)
      == ChatState([Greeting(time), UserMessage("1", "Hi", time), Message("2", Assistant, "Hi there!", time)],
                   false, None)
  {
    var events := [Fragment("Hi"), Fragment(" there!")];
    assert UserClear !in events;
    SessionCompletes(InitialState(time), "1", "Hi", "2", time, events);
    assert events[1..] == [Fragment(" there!")];
    assert Text([Fragment(" there!")]) == " there!" + Text([]);
    assert Text(events) == "Hi" + Text(events[1..]);
    assert "Hi" + " there!" == "Hi there!";
    assert Text(events) == "Hi there!";
    assert InitialState(time).messages + [UserMessage("1", "Hi", time), Message("2", Assistant, "Hi there!", time)]
        == [Greeting(time), UserMessage("1", "Hi", time), Message("2", Assistant, "Hi there!", time)];
  }

  /** Greeting only, send "fail", the stream fails before any fragment. */
  lemma FailBeforeFirstChunkScenario(time: int)
    ensures Run(InitialState(time), "1", "fail", "2", time, [], Failed)
      == ChatState([Greeting(time), UserMessage("1", "fail", time)], false, Some(FailureText))
  {
    SessionFails(InitialState(time), "1", "fail", "2", time, []);
  }
}
