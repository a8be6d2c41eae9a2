/**
 * The conversation state of the chat client and the pure transitions that
 * the client's state updaters apply to it: begin a send, write a streamed
 * chunk into the placeholder, complete, fail and clear the chat.
 */
module Conversation {
  import opened Wrappers

  datatype Role = User | Assistant

  /** One turn of the conversation; `timestamp` is an opaque clock value. */
  datatype Message = Message(id: string, role: Role, content: string, timestamp: int)

  /** The aggregate the UI renders; `error == None` stands for `error: null`. */
  datatype ChatState = ChatState(messages: seq<Message>, isLoading: bool, error: Option<string>)

  const WelcomeId: string := "welcome"
  const WelcomeText: string := "Hello! I'm Gemini Chatbot Pro. How can I help you today?"
  const FailureText: string := "Sorry, something went wrong while processing your request. Please try again."

  /** The fixed greeting that opens every conversation. */
  function Greeting(time: int): Message {
    Message(WelcomeId, Assistant, WelcomeText, time)
  }

  /** The state the client starts in: the greeting alone, idle, no error. */
  function InitialState(time: int): (s: ChatState)
    ensures GreetingFirst(s, Greeting(time)) && |s.messages| == 1
    ensures !s.isLoading && s.error == None
  {
    ChatState([Greeting(time)], false, None)
  }

  function UserMessage(id: string, content: string, time: int): Message {
    Message(id, User, content, time)
  }

  /** The assistant message created empty at send time and filled by chunks. */
  function Placeholder(id: string, time: int): Message {
    Message(id, Assistant, "", time)
  }

  /** No message of `ms` carries `id`. */
  predicate FreshId(ms: seq<Message>, id: string) {
    forall i :: 0 <= i < |ms| ==> ms[i].id != id
  }

  /** No two messages of `ms` share an id. */
  predicate IdsDistinct(ms: seq<Message>) {
    forall i, j :: 0 <= i < j < |ms| ==> ms[i].id != ms[j].id
  }

  /** The greeting `g` is still the first message of `s`. */
  predicate GreetingFirst(s: ChatState, g: Message) {
    |s.messages| > 0 && s.messages[0] == g && g.id == WelcomeId
  }

  /** The last message of a non-empty sequence. */
  function Last(ms: seq<Message>): Message
    requires |ms| > 0
  {
    ms[|ms| - 1]
  }

  /**
   * begin-send: the old messages stay as a prefix, followed by the user
   * message and then the empty assistant placeholder; loading starts and
   * the error is cleared.
   */
  function BeginSend(s: ChatState, userId: string, content: string, placeholderId: string, time: int): (r: ChatState)
    ensures |r.messages| == |s.messages| + 2
    ensures r.messages[..|s.messages|] == s.messages
    ensures var u := r.messages[|s.messages|];
      u.id == userId && u.role == User && u.content == content && u.timestamp == time
    ensures var p := r.messages[|s.messages| + 1];
      p.id == placeholderId && p.role == Assistant && p.content == "" && p.timestamp == time
    ensures r.isLoading && r.error == None
  {
    s.(messages := s.messages + [UserMessage(userId, content, time), Placeholder(placeholderId, time)],
       isLoading := true,
       error := None)
  }

  /**
   * The history handed to the stream: the messages of the pre-send snapshot
   * followed by the user message, that is, what begin-send produces minus
   * the placeholder.
   */
  function History(snapshot: ChatState, userId: string, content: string, time: int): (h: seq<Message>)
    ensures |h| == |snapshot.messages| + 1
    ensures forall placeholderId: string {:trigger BeginSend(snapshot, userId, content, placeholderId, time)} ::
      h == BeginSend(snapshot, userId, content, placeholderId, time).messages[..|h|]
  {
    snapshot.messages + [UserMessage(userId, content, time)]
  }

  /**
   * chunk: write `buffer` into the last message, but only when that message
   * is the placeholder `placeholderId`; otherwise nothing changes.
   */
  function ApplyChunk(s: ChatState, placeholderId: string, buffer: string): (r: ChatState)
    requires |s.messages| > 0
    ensures |r.messages| == |s.messages|
    ensures r.messages[..|s.messages| - 1] == s.messages[..|s.messages| - 1]
    ensures r.isLoading == s.isLoading && r.error == s.error
    ensures var old_last, new_last := Last(s.messages), Last(r.messages);
      new_last.id == old_last.id && new_last.role == old_last.role && new_last.timestamp == old_last.timestamp
    ensures Last(s.messages).id == placeholderId ==> Last(r.messages).content == buffer
    ensures Last(s.messages).id != placeholderId ==> r == s
  {
    var last := |s.messages| - 1;
    if s.messages[last].id == placeholderId then
      s.(messages := s.messages[last := s.messages[last].(content := buffer)])
    else
      s
  }

  /** complete: only `isLoading` changes, to false. */
  function Complete(s: ChatState): (r: ChatState)
    ensures r.messages == s.messages && r.error == s.error
    ensures !r.isLoading
  {
    s.(isLoading := false)
  }

  /** The messages of `ms` whose id is not `id`, in their original order. */
  function RemoveId(ms: seq<Message>, id: string): (r: seq<Message>)
    ensures |r| <= |ms|
    ensures FreshId(r, id)
    ensures forall m :: m in r ==> m in ms
    ensures forall i :: 0 <= i < |ms| && ms[i].id != id ==> ms[i] in r
  {
    if ms == [] then []
    else if ms[0].id == id then RemoveId(ms[1..], id)
    else [ms[0]] + RemoveId(ms[1..], id)
  }

  /**
   * fail: drop the placeholder, stop loading and record the fixed error
   * description.
   */
  function Fail(s: ChatState, placeholderId: string): (r: ChatState)
    ensures r.messages == RemoveId(s.messages, placeholderId)
    ensures !r.isLoading && r.error == Some(FailureText)
  {
    s.(isLoading := false,
       error := Some(FailureText),
       messages := RemoveId(s.messages, placeholderId))
  }

  /** reset (clear chat): keep only the first message and clear the error. */
  function Reset(s: ChatState): (r: ChatState)
    requires |s.messages| > 0
    ensures r.messages == [s.messages[0]]
    ensures r.error == None && r.isLoading == s.isLoading
  {
    s.(messages := [s.messages[0]], error := None)
  }

  // ---------------------------------------------------------------------
  // Properties of the transitions

  /** Filtering distributes over concatenation, so it keeps the order. */
  lemma {:induction false} RemoveIdAppend(a: seq<Message>, b: seq<Message>, id: string)
    ensures RemoveId(a + b, id) == RemoveId(a, id) + RemoveId(b, id)
  {
    if a == [] {
      assert a + b == b;
    } else {
      assert (a + b)[0] == a[0];
      assert (a + b)[1..] == a[1..] + b;
      RemoveIdAppend(a[1..], b, id);
    }
  }

  /** Filtering out an id nobody carries changes nothing. */
  lemma {:induction false} RemoveIdAbsent(ms: seq<Message>, id: string)
    requires FreshId(ms, id)
    ensures RemoveId(ms, id) == ms
  {
    if ms != [] {
      RemoveIdAbsent(ms[1..], id);
      assert [ms[0]] + ms[1..] == ms;
    }
  }

  /** Filtering keeps ids distinct. */
  lemma {:induction false} RemoveIdDistinct(ms: seq<Message>, id: string)
    requires IdsDistinct(ms)
    ensures IdsDistinct(RemoveId(ms, id))
  {
    if ms != [] {
      RemoveIdDistinct(ms[1..], id);
      var rest := RemoveId(ms[1..], id);
      if ms[0].id != id {
        forall m | m in rest ensures m.id != ms[0].id {
          var k :| 0 <= k < |ms[1..]| && ms[1..][k] == m;
          assert ms[k + 1] == m;
        }
        var r := [ms[0]] + rest;
        forall i, j | 0 <= i < j < |r| ensures r[i].id != r[j].id {
          if i == 0 {
            assert r[j] == rest[j - 1];
            assert r[j] in rest;
          } else {
            assert r[i] == rest[i - 1] && r[j] == rest[j - 1];
          }
        }
      }
    }
  }

  /** begin-send with two fresh, different ids keeps ids distinct. */
  lemma BeginSendDistinct(s: ChatState, userId: string, content: string, placeholderId: string, time: int)
    requires IdsDistinct(s.messages)
    requires FreshId(s.messages, userId) && FreshId(s.messages, placeholderId) && userId != placeholderId
    ensures IdsDistinct(BeginSend(s, userId, content, placeholderId, time).messages)
  {
  }

  /** The history sent to the stream never holds the fresh placeholder. */
  lemma HistoryExcludesPlaceholder(snapshot: ChatState, userId: string, content: string, placeholderId: string, time: int)
    requires FreshId(snapshot.messages, placeholderId) && userId != placeholderId
    ensures FreshId(History(snapshot, userId, content, time), placeholderId)
  {
  }

  /** A chunk update keeps every id where it was, so it keeps them distinct. */
  lemma ApplyChunkDistinct(s: ChatState, placeholderId: string, buffer: string)
    requires |s.messages| > 0 && IdsDistinct(s.messages)
    ensures IdsDistinct(ApplyChunk(s, placeholderId, buffer).messages)
  {
  }

  /**
   * Starting from a state whose first message is the greeting, every
   * transition keeps the greeting first, as long as the placeholder is not
   * the greeting; in particular the messages never become empty.
   */
  lemma TransitionsKeepGreeting(s: ChatState, g: Message, userId: string, content: string,
                                placeholderId: string, time: int, buffer: string)
    requires GreetingFirst(s, g) && placeholderId != WelcomeId
    ensures GreetingFirst(BeginSend(s, userId, content, placeholderId, time), g)
    ensures GreetingFirst(ApplyChunk(s, placeholderId, buffer), g)
    ensures GreetingFirst(Complete(s), g)
    ensures GreetingFirst(Fail(s, placeholderId), g)
    ensures GreetingFirst(Reset(s), g)
  {
  }

  /**
   * After a reset, a chunk for the old placeholder is a no-op, and a later
   * failure leaves the messages as they are.
   */
  lemma StaleAfterReset(s: ChatState, placeholderId: string, buffer: string)
    requires |s.messages| > 0 && s.messages[0].id != placeholderId
    ensures ApplyChunk(Reset(s), placeholderId, buffer) == Reset(s)
    ensures Fail(Reset(s), placeholderId).messages == Reset(s).messages
  {
  }
}
