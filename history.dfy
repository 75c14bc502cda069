/** `WritingAgent._extract_chat_history`: the project's chat log turned into the
    language-model messages the agent is given as prior conversation. */
module History {
  import opened PyJson
  import opened Faults

  /** A LangChain message: `HumanMessage` or `AIMessage`. */
  datatype LcMessage = Human(content: Json) | Ai(content: Json)

  /** The entry is a dict whose `role` is `role`. */
  predicate HasRole(entry: Json, role: string) {
    entry.JObj? && "role" in entry.fields && entry.fields["role"] == JStr(role)
  }

  /** The entry is a user or assistant message, the ones the agent keeps. */
  predicate IsChatEntry(entry: Json) {
    HasRole(entry, "user") || HasRole(entry, "assistant")
  }

  /** `message.get("content", "")`. */
  function ContentOf(entry: Json): Json
    requires entry.JObj?
  {
    Get(entry.fields, "content", JStr(""))
  }

  /** One iteration of the loop: the messages one log entry contributes. */
  function Converted(entry: Json): (r: Result<seq<LcMessage>>)
    ensures r.Success? <==> entry.JObj?
    ensures r.Failure? ==> r.fault == NoAttribute(TypeName(entry), "get")
    ensures HasRole(entry, "user") ==> r == Success([Human(ContentOf(entry))])
    ensures HasRole(entry, "assistant") ==> r == Success([Ai(ContentOf(entry))])
    ensures entry.JObj? && !IsChatEntry(entry) ==> r == Success([])
    ensures IsChatEntry(entry) && "content" !in entry.fields ==> |r.value| == 1 && r.value[0].content == JStr("")
  {
    if !entry.JObj? then Failure(NoAttribute(TypeName(entry), "get"))
    else
      var role := Get(entry.fields, "role", JNull);
      if role == JStr("user") then Success([Human(ContentOf(entry))])
      else if role == JStr("assistant") then Success([Ai(ContentOf(entry))])
      else Success([])
  }

  /** The messages a list of log entries converts to, left to right; the first
      entry that is not a dict raises. */
  function ChatMessagesFrom(entries: seq<Json>): Result<seq<LcMessage>> {
    if entries == [] then Success([])
    else
      var init :- ChatMessagesFrom(entries[..|entries| - 1]);
      var last :- Converted(entries[|entries| - 1]);
      Success(init + last)
  }

  /** `_extract_chat_history` as a value: no log, or an empty one, gives no
      messages; a non-empty str or dict is iterated element by element (each a
      str, which has no `get`); a true bool or non-zero int is not iterable. */
  function ChatMessages(project: Project): (r: Result<seq<LcMessage>>)
    ensures "chatHistory" !in project || !Truthy(project["chatHistory"]) ==> r == Success([])
    ensures "chatHistory" in project && project["chatHistory"].JArr? ==>
      r == ChatMessagesFrom(project["chatHistory"].items)
    ensures "chatHistory" in project && Truthy(project["chatHistory"]) && !project["chatHistory"].JArr? ==>
      r.Failure?
  {
    var log := Get(project, "chatHistory", JNull);
    if !Truthy(log) then Success([])
    else
      match log
      case JArr(entries) => ChatMessagesFrom(entries)
      case JStr(_) => Failure(NoAttribute("str", "get"))
      case JObj(_) => Failure(NoAttribute("str", "get"))
      case _ => Failure(NotIterable(TypeName(log)))
  }

  /** `_extract_chat_history`: the loop over the log, appending one message for
      each user or assistant entry. */
  method ExtractChatHistory(project: Project) returns (r: Result<seq<LcMessage>>)
    ensures r == ChatMessages(project)
  {
    if !("chatHistory" in project && Truthy(project["chatHistory"])) {
      return Success([]);
    }
    var log := project["chatHistory"];
    if log.JStr? || log.JObj? {
      return Failure(NoAttribute("str", "get"));
    }
    if !log.JArr? {
      return Failure(NotIterable(TypeName(log)));
    }
    var entries := log.items;
    var chatHistory: seq<LcMessage> := [];
    var i := 0;
    while i < |entries|
      invariant 0 <= i <= |entries|
      invariant ChatMessagesFrom(entries[..i]) == Success(chatHistory)
    {
      var message := entries[i];
      assert entries[..i + 1][..i] == entries[..i];
      if !message.JObj? {
        ChatMessagesFailurePersists(entries, i + 1);
        return Failure(NoAttribute(TypeName(message), "get"));
      }
      assert entries[..i + 1][i] == message;
      ghost var prior := chatHistory;
      var role := Get(message.fields, "role", JNull);
      if role == JStr("user") {
        chatHistory := chatHistory + [Human(Get(message.fields, "content", JStr("")))];
      } else if role == JStr("assistant") {
        chatHistory := chatHistory + [Ai(Get(message.fields, "content", JStr("")))];
      }
      assert chatHistory == prior + Converted(message).value;
      i := i + 1;
    }
    assert entries[..|entries|] == entries;
    return Success(chatHistory);
  }

  /** Once a prefix of the log raises, the whole log raises the same way. */
  lemma {:induction false} ChatMessagesFailurePersists(entries: seq<Json>, i: nat)
    requires i <= |entries|
    requires ChatMessagesFrom(entries[..i]).Failure?
    ensures ChatMessagesFrom(entries) == ChatMessagesFrom(entries[..i])
    decreases |entries| - i
  {
    if i < |entries| {
      var init := entries[..|entries| - 1];
      assert init[..i] == entries[..i];
      ChatMessagesFailurePersists(init, i);
    } else {
      assert entries[..i] == entries;
    }
  }

  /** Converting a log is converting its two halves and concatenating: the
      messages keep the order of the entries they come from. */
  lemma {:induction false} ChatMessagesConcat(a: seq<Json>, b: seq<Json>)
    ensures ChatMessagesFrom(a + b).Success? <==> ChatMessagesFrom(a).Success? && ChatMessagesFrom(b).Success?
    ensures ChatMessagesFrom(a + b).Success? ==>
      ChatMessagesFrom(a + b).value == ChatMessagesFrom(a).value + ChatMessagesFrom(b).value
    decreases |b|
  {
    if b == [] {
      assert a + b == a;
    } else {
      var b' := b[..|b| - 1];
      assert (a + b)[..|a + b| - 1] == a + b';
      assert (a + b)[|a + b| - 1] == b[|b| - 1];
      ChatMessagesConcat(a, b');
    }
  }

  /** The log converts without raising exactly when every entry is a dict. */
  lemma {:induction false} ChatMessagesSucceedIff(entries: seq<Json>)
    ensures ChatMessagesFrom(entries).Success? <==> forall i :: 0 <= i < |entries| ==> entries[i].JObj?
  {
    if entries != [] {
      var init := entries[..|entries| - 1];
      ChatMessagesSucceedIff(init);
      assert forall i :: 0 <= i < |init| ==> init[i] == entries[i];
    }
  }

  /** The set of positions of user and assistant entries. */
  function ChatPositions(entries: seq<Json>): set<nat> {
    set i: nat | i < |entries| && IsChatEntry(entries[i])
  }

  /** Adding an entry to the log adds its position exactly when it is a user
      or assistant entry. */
  lemma ChatPositionsSnoc(entries: seq<Json>)
    requires entries != []
    ensures var n := |entries| - 1;
      ChatPositions(entries) ==
        ChatPositions(entries[..n]) + (if IsChatEntry(entries[n]) then {n} else {})
  {
    var n := |entries| - 1;
    var init := entries[..n];
    forall i: nat | i < n
      ensures (i in ChatPositions(entries)) <==> (i in ChatPositions(init))
    {
      assert init[i] == entries[i];
    }
  }

  /** One message per user or assistant entry, and none for any other entry. */
  lemma {:induction false} ChatMessagesCount(entries: seq<Json>)
    requires ChatMessagesFrom(entries).Success?
    ensures |ChatMessagesFrom(entries).value| == |ChatPositions(entries)|
  {
    if entries == [] {
      assert ChatPositions(entries) == {};
    } else {
      var n := |entries| - 1;
      var init := entries[..n];
      ChatMessagesCount(init);
      ChatPositionsSnoc(entries);
      if IsChatEntry(entries[n]) {
        assert n !in ChatPositions(init);
      }
    }
  }
}
