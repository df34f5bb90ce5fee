/** `core/conversation_manager.py`: one turn of the conversation. The
    message list opens with the system prompt, the last five history
    messages and the user's message; the chat model answers, and each tool
    call it makes is run against the store and recorded as an assistant
    message holding that call followed by a tool message holding its result;
    a second chat call, with tools disabled, writes the final reply. The chat
    model is a function of the messages and of whether tools are offered;
    the outside world of each tool call (clock, file writes) is indexed by
    the call's position. */
module Conversation {
  import opened Python
  import opened Messages
  import opened Store
  import opened Booking
  import opened ToolsRegistry

  /** What `llm_service.chat` returns: the reply text (None when the model
      only calls tools) and the tool calls. */
  datatype ChatReply = ChatReply(content: Option<string>, calls: seq<ToolCall>)

  /** `(final_response, tool_results, updated_messages)`, with the store
      after the turn. */
  datatype TurnResult = TurnResult(reply: Option<string>, results: seq<string>, messages: seq<Message>, after: Db)

  // ---------------------------------------------------------------- _create_system_message

  const Greeting: string := "You are a helpful restaurant reservation assistant for FoodieSpot. The user's name is "
  const DateLead: string := ". Today's date is "
  const Instructions: string :=
    ".\n\nTOOLS AND CAPABILITIES:\n"
    + "- You can search for restaurants by cuisine, location, price range, and party size\n"
    + "- You can get detailed information about specific restaurants\n"
    + "- You can check availability for restaurants on specific dates and times\n"
    + "- You can make reservations for users\n\n"
    + "GUIDELINES:\n"
    + "1. Analyze the user's request to determine their intent\n"
    + "2. Choose the appropriate tool based on the user's intent\n"
    + "3. If the user's request is ambiguous, ask clarifying questions before using tools\n"
    + "4. Do not make assumptions about parameters not explicitly stated by the user\n"
    + "5. Present tool results in a helpful, conversational way\n"
    + "6. If no tool is needed to respond, simply answer directly\n\n"
    + "Remember: The user can't see the tools - focus on answering their needs, not explaining the tools."

  /** `_create_system_message(user_name)`, with `today` the clock's date as
      `%Y-%m-%d`. */
  function SystemMessage(userName: string, today: string): Message
  {
    System(Greeting + userName + DateLead + today + Instructions)
  }

  /** The system message has the role "system" and names the user and the
      date. */
  lemma SystemMessageNamesUserAndDate(userName: string, today: string)
    ensures var m := SystemMessage(userName, today);
            Role(m) == "system" && Contains(m.content, userName) && Contains(m.content, today)
  {
    var named := Greeting + userName + DateLead;
    ContainsPart(Greeting, userName, DateLead);
    ContainsIn(named, today, userName);
    ContainsIn(named + today, Instructions, userName);
    ContainsPart(named, today, Instructions);
  }

  // ---------------------------------------------------------------- the opening messages

  /** `conversation_history[-5:]`. */
  function Recent(history: seq<Message>): seq<Message>
  {
    if |history| <= 5 then history else history[|history| - 5..]
  }

  /** The list the first chat call sees: the system message, the recent
      history, the user's message. */
  function Opening(history: seq<Message>, userMessage: string, userName: string, today: string): seq<Message>
  {
    [SystemMessage(userName, today)] + Recent(history) + [User(userMessage)]
  }

  /** The opening holds the system message, then exactly the last
      `min(5, |history|)` history messages in their order, then the user's
      message. */
  lemma OpeningShape(history: seq<Message>, userMessage: string, userName: string, today: string)
    ensures var ms, keep := Opening(history, userMessage, userName, today), if |history| < 5 then |history| else 5;
            && |ms| == keep + 2
            && ms[0] == SystemMessage(userName, today) && ms[0].System?
            && ms[|ms| - 1] == User(userMessage)
            && ms[1..|ms| - 1] == history[|history| - keep..]
  {
    var ms := Opening(history, userMessage, userName, today);
    assert ms[1..|ms| - 1] == Recent(history);
  }

  // ---------------------------------------------------------------- the tool calls

  /** The two messages recorded for one call and its result. */
  function Exchange(call: ToolCall, result: string): seq<Message>
  {
    [Assistant(None, [call]), ToolResult(call.id, result)]
  }

  /** The loop over the tool calls: the results, the messages appended and
      the store after running `calls` in order, call `k` in the world
      `world(k)`. */
  function Steps(db: Db, calls: seq<ToolCall>, world: nat -> Env): (s: (seq<string>, seq<Message>, Db))
    ensures |s.0| == |calls| && |s.1| == 2 * |calls|
  {
    if calls == [] then ([], [], db)
    else
      var n := |calls| - 1;
      var (results, added, before) := Steps(db, calls[..n], world);
      var (reply, after) := Execute(Manager, before, calls[n], world(n));
      (results + [reply], added + Exchange(calls[n], reply), after)
  }

  /** One more call: its reply is appended to the results, its exchange to
      the messages, and the store is the one it leaves. */
  lemma StepsSnoc(db: Db, calls: seq<ToolCall>, world: nat -> Env, j: int)
    requires 0 <= j < |calls|
    ensures var (results, added, before) := Steps(db, calls[..j], world);
            var (reply, after) := Execute(Manager, before, calls[j], world(j));
            Steps(db, calls[..j + 1], world) == (results + [reply], added + Exchange(calls[j], reply), after)
  {
    assert calls[..j + 1][..j] == calls[..j];
  }

  /** Each call is followed by its own result: message `2j` is the assistant
      message holding call `j` alone and without text, message `2j + 1` the
      tool message answering its id with result `j`. */
  lemma {:induction false} StepsPaired(db: Db, calls: seq<ToolCall>, world: nat -> Env)
    ensures var (results, added, _) := Steps(db, calls, world);
            forall j :: 0 <= j < |calls| ==>
              added[2 * j] == Assistant(None, [calls[j]]) && added[2 * j + 1] == ToolResult(calls[j].id, results[j])
  {
    if calls != [] {
      var n := |calls| - 1;
      StepsPaired(db, calls[..n], world);
      var (results, added, _) := Steps(db, calls, world);
      var (rs, ms, _) := Steps(db, calls[..n], world);
      assert results[..n] == rs && added[..2 * n] == ms;
      forall j | 0 <= j < |calls|
        ensures added[2 * j] == Assistant(None, [calls[j]]) && added[2 * j + 1] == ToolResult(calls[j].id, results[j])
      {
        if j < n {
          assert added[2 * j] == ms[2 * j] && added[2 * j + 1] == ms[2 * j + 1];
          assert calls[..n][j] == calls[j];
        }
      }
    }
  }

  /** Running a prefix of the calls gives a prefix of the results and of the
      messages. */
  lemma {:induction false} StepsPrefix(db: Db, calls: seq<ToolCall>, world: nat -> Env, j: int)
    requires 0 <= j <= |calls|
    ensures Steps(db, calls[..j], world).0 == Steps(db, calls, world).0[..j]
    ensures Steps(db, calls[..j], world).1 == Steps(db, calls, world).1[..2 * j]
    decreases |calls|
  {
    if j < |calls| {
      var n := |calls| - 1;
      StepsPrefix(db, calls[..n], world, j);
      assert calls[..n][..j] == calls[..j];
    } else {
      assert calls[..j] == calls;
    }
  }

  /** `tool_results` is in call order: result `j` is what call `j` replies
      when run on the store the earlier calls left. */
  lemma ResultsInCallOrder(db: Db, calls: seq<ToolCall>, world: nat -> Env, j: int)
    requires 0 <= j < |calls|
    ensures Steps(db, calls, world).0[j] == Execute(Manager, Steps(db, calls[..j], world).2, calls[j], world(j)).0
  {
    StepsPrefix(db, calls, world, j + 1);
    StepsSnoc(db, calls, world, j);
  }

  /** No call can double-book a slot, so neither can a turn's calls. */
  lemma {:induction false} StepsKeepNoDoubleBooking(db: Db, calls: seq<ToolCall>, world: nat -> Env)
    requires NoDoubleBooking(db.reservations)
    ensures NoDoubleBooking(Steps(db, calls, world).2.reservations)
  {
    if calls != [] {
      var n := |calls| - 1;
      StepsKeepNoDoubleBooking(db, calls[..n], world);
      ExecuteKeepsNoDoubleBooking(Manager, Steps(db, calls[..n], world).2, calls[n], world(n));
    }
  }

  /** Calls that do not book leave the store as it was. */
  lemma {:induction false} StepsWithoutBookingKeepStore(db: Db, calls: seq<ToolCall>, world: nat -> Env)
    requires forall j :: 0 <= j < |calls| ==> calls[j].name != BookingName
    ensures Steps(db, calls, world).2 == db
  {
    if calls != [] {
      var n := |calls| - 1;
      StepsWithoutBookingKeepStore(db, calls[..n], world);
      OnlyBookingWrites(Manager, db, calls[n], world(n));
    }
  }

  // ---------------------------------------------------------------- process_message

  /** `process_message(user_message, conversation_history, user_name)`. */
  function Turn(chat: (seq<Message>, bool) -> ChatReply, db: Db, userMessage: string, history: seq<Message>,
                userName: string, today: string, world: nat -> Env): TurnResult
  {
    var opening := Opening(history, userMessage, userName, today);
    var first := chat(opening, true);
    if first.calls == [] then TurnResult(first.content, [], opening, db)
    else
      var (results, added, after) := Steps(db, first.calls, world);
      TurnResult(chat(opening + added, false).content, results, opening + added, after)
  }

  /** Without tool calls the first reply is the answer: nothing is run, the
      messages are the opening and the store is untouched. */
  lemma NoToolCallsOneCall(chat: (seq<Message>, bool) -> ChatReply, db: Db, userMessage: string,
                           history: seq<Message>, userName: string, today: string, world: nat -> Env)
    requires chat(Opening(history, userMessage, userName, today), true).calls == []
    ensures var t := Turn(chat, db, userMessage, history, userName, today, world);
            && t.reply == chat(Opening(history, userMessage, userName, today), true).content
            && t.results == [] && t.messages == Opening(history, userMessage, userName, today) && t.after == db
  {
  }

  /** With `k` tool calls there are `k` results, the message list grows by
      exactly `2k` after the opening, each call is recorded with its own
      result, and the reply is the tools-disabled chat over the whole list. */
  lemma ToolCallsPaired(chat: (seq<Message>, bool) -> ChatReply, db: Db, userMessage: string,
                        history: seq<Message>, userName: string, today: string, world: nat -> Env)
    requires chat(Opening(history, userMessage, userName, today), true).calls != []
    ensures var opening := Opening(history, userMessage, userName, today);
            var calls := chat(opening, true).calls;
            var t := Turn(chat, db, userMessage, history, userName, today, world);
            && |t.results| == |calls|
            && |t.messages| == |opening| + 2 * |calls| && t.messages[..|opening|] == opening
            && (forall j :: 0 <= j < |calls| ==>
                  t.messages[|opening| + 2 * j] == Assistant(None, [calls[j]])
                  && t.messages[|opening| + 2 * j + 1] == ToolResult(calls[j].id, t.results[j]))
            && t.reply == chat(t.messages, false).content
  {
    var opening := Opening(history, userMessage, userName, today);
    var calls := chat(opening, true).calls;
    StepsPaired(db, calls, world);
    var added := Steps(db, calls, world).1;
    assert (opening + added)[..|opening|] == opening;
    forall j | 0 <= j < |calls|
      ensures (opening + added)[|opening| + 2 * j] == added[2 * j]
      ensures (opening + added)[|opening| + 2 * j + 1] == added[2 * j + 1]
    {
    }
  }

  /** A turn keeps every slot booked at most once. */
  lemma TurnKeepsNoDoubleBooking(chat: (seq<Message>, bool) -> ChatReply, db: Db, userMessage: string,
                                 history: seq<Message>, userName: string, today: string, world: nat -> Env)
    requires NoDoubleBooking(db.reservations)
    ensures NoDoubleBooking(Turn(chat, db, userMessage, history, userName, today, world).after.reservations)
  {
    StepsKeepNoDoubleBooking(db, chat(Opening(history, userMessage, userName, today), true).calls, world);
  }

  /** The conversation manager: the chat model and the store it runs tools
      against. */
  class ConversationManager {
    const chat: (seq<Message>, bool) -> ChatReply
    const store: DataStore

    constructor(chat: (seq<Message>, bool) -> ChatReply, store: DataStore)
      ensures this.chat == chat && this.store == store
    {
      this.chat := chat;
      this.store := store;
    }

    /** `process_message`, on the store. */
    method ProcessMessage(userMessage: string, history: seq<Message>, userName: string, today: string,
                          world: nat -> Env)
      returns (reply: Option<string>, results: seq<string>, messages: seq<Message>)
      modifies store
      ensures reply == Turn(chat, old(store.State()), userMessage, history, userName, today, world).reply
      ensures results == Turn(chat, old(store.State()), userMessage, history, userName, today, world).results
      ensures messages == Turn(chat, old(store.State()), userMessage, history, userName, today, world).messages
      ensures store.State() == Turn(chat, old(store.State()), userMessage, history, userName, today, world).after
    {
      messages := OpeningMessages(history, userMessage, userName, today);
      var first := chat(messages, true);
      if first.calls == [] {
        return first.content, [], messages;
      }
      var added;
      results, added := RunCalls(first.calls, world);
      messages := messages + added;
      var final := chat(messages, false);
      reply := final.content;
    }

    /** The messages before the first chat call, appended one by one. */
    static method OpeningMessages(history: seq<Message>, userMessage: string, userName: string, today: string)
      returns (messages: seq<Message>)
      ensures messages == Opening(history, userMessage, userName, today)
    {
      messages := [SystemMessage(userName, today)];
      var recent := Recent(history);
      var i := 0;
      while i < |recent|
        invariant 0 <= i <= |recent|
        invariant messages == [SystemMessage(userName, today)] + recent[..i]
      {
        messages := messages + [recent[i]];
        i := i + 1;
      }
      assert recent[..i] == recent;
      messages := messages + [User(userMessage)];
    }

    /** The loop over the tool calls: run each on the store, collect its
        result and record its exchange. */
    method RunCalls(calls: seq<ToolCall>, world: nat -> Env) returns (results: seq<string>, added: seq<Message>)
      modifies store
      ensures results == Steps(old(store.State()), calls, world).0
      ensures added == Steps(old(store.State()), calls, world).1
      ensures store.State() == Steps(old(store.State()), calls, world).2
    {
      ghost var db := store.State();
      results, added := [], [];
      var j := 0;
      while j < |calls|
        invariant 0 <= j <= |calls|
        invariant results == Steps(db, calls[..j], world).0
        invariant added == Steps(db, calls[..j], world).1
        invariant store.State() == Steps(db, calls[..j], world).2
      {
        var call := calls[j];
        StepsSnoc(db, calls, world, j);
        var r := ExecuteToolCall(Manager, store, call, world(j));
        results := results + [r];
        added := added + [Assistant(None, [call]), ToolResult(call.id, r)];
        j := j + 1;
      }
      assert calls[..j] == calls;
    }
  }
}
