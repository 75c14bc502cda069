/** `WritingAgent.process_chat_message`: one chat turn. The project is read for
    its chat log, phase and context, the agent of that phase is run, the ideas
    and comments its tools asked for are added, and the user's message and the
    reply are appended to the chat log. Any exception turns into an apology
    carrying its message, with the project handed back as it came. */
module Chat {
  import opened PyJson
  import opened Faults
  import opened Phases
  import opened History
  import opened Context
  import opened Tools
  import opened ToolCalls

  const Apology := "I'm sorry, I couldn't process your request."
  const ErrorPrefix := "I encountered an error while processing your request: "
  const StyleNote :=
    "IMPORTANT: Keep your response concise and conversational (1-2 sentences max). " +
    "Use a casual, friendly tone like you're texting a friend."

  /** What `agent.invoke` gives back: an exception, or a dict that may hold an
      `output` and may hold `intermediate_steps`. */
  datatype AgentResult =
    | Raised(message: string)
    | Returned(output: Option<string>, steps: Option<seq<Step>>)

  /** The collaborators the model takes as given: the language-model agent of
      each phase, `json.dumps`, and Python's `repr` of a list or dict. */
  datatype Runtime = Runtime(
    invoke: (Phase, string, seq<LcMessage>) -> AgentResult,
    dumps: Project -> Option<string>,
    repr: Json -> string)

  /** The text handed to the agent as its input. */
  function AgentInput(context: string, userInput: string): string {
    "Full Project State:\n" + context + "\n\nUser Message: " + userInput + "\n\n" + StyleNote
  }

  /** A chat log entry `{"role": role, "content": content}`. */
  function ChatEntry(role: string, content: string): Json {
    JObj(map["role" := JStr(role), "content" := JStr(content)])
  }

  /** `result.get("output", <apology>)`. */
  function Reply(output: Option<string>): (r: string)
    ensures output.Some? ==> r == output.value
    ensures output.None? ==> r == Apology
  {
    output.GetOr(Apology)
  }

  /** The chat log the turn appends to: empty when the project has none; a
      value that is not a list has no `append`. */
  function LogToExtend(project: Project): Result<seq<Json>> {
    if "chatHistory" !in project then Success([])
    else match project["chatHistory"]
      case JArr(entries) => Success(entries)
      case other => Failure(NoAttribute(TypeName(other), "append"))
  }

  /** Everything up to and including the call of the phase's agent. */
  function Invocation(userInput: string, project: Project, rt: Runtime): Result<AgentResult> {
    var history :- ChatMessages(project);
    var phase :- CurrentPhase(project);
    var context :- FullProjectContext(project, rt.dumps, rt.repr);
    Success(rt.invoke(phase, AgentInput(context, userInput), history))
  }

  /** The body of the `try`: the reply and the modified project, or the
      exception raised. */
  function Turn(userInput: string, project: Project, rt: Runtime): Result<(string, Project)> {
    var result :- Invocation(userInput, project, rt);
    match result
    case Raised(message) => Failure(AgentRaised(message))
    case Returned(output, steps) =>
      var reply := Reply(output);
      var modified :- ToolCallsApplied(project, steps);
      var log :- LogToExtend(modified);
      Success((reply, modified["chatHistory" := JArr(log + [ChatEntry("user", userInput), ChatEntry("assistant", reply)])]))
  }

  /** `process_chat_message`. */
  method ProcessChatMessage(userInput: string, project: Project, rt: Runtime) returns (reply: string, modified: Project)
    ensures Turn(userInput, project, rt).Success? ==> (reply, modified) == Turn(userInput, project, rt).value
    ensures Turn(userInput, project, rt).Failure? ==>
      reply == ErrorPrefix + Message(Turn(userInput, project, rt).fault) && modified == project
  {
    var chatHistory := ExtractChatHistory(project);
    if chatHistory.Failure? {
      return ErrorPrefix + Message(chatHistory.fault), project;
    }
    var currentPhase := CurrentPhase(project);
    if currentPhase.Failure? {
      return ErrorPrefix + Message(currentPhase.fault), project;
    }
    var projectContext := FullProjectContext(project, rt.dumps, rt.repr);
    if projectContext.Failure? {
      return ErrorPrefix + Message(projectContext.fault), project;
    }
    var result := rt.invoke(currentPhase.value, AgentInput(projectContext.value, userInput), chatHistory.value);
    if result.Raised? {
      return ErrorPrefix + Message(AgentRaised(result.message)), project;
    }
    var aiResponse := Reply(result.output);
    var applied := ApplyToolCalls(project, result.steps);
    if applied.Failure? {
      return ErrorPrefix + Message(applied.fault), project;
    }
    modified := applied.value;
    if "chatHistory" !in modified {
      modified := modified["chatHistory" := JArr([])];
    }
    var log := modified["chatHistory"];
    if !log.JArr? {
      return ErrorPrefix + Message(NoAttribute(TypeName(log), "append")), project;
    }
    assert log.items == LogToExtend(applied.value).value;
    modified := modified["chatHistory" := JArr(log.items + [ChatEntry("user", userInput)])];
    modified := modified["chatHistory" := JArr(modified["chatHistory"].items + [ChatEntry("assistant", aiResponse)])];
    reply := aiResponse;
    assert log.items + [ChatEntry("user", userInput)] + [ChatEntry("assistant", aiResponse)] ==
      log.items + [ChatEntry("user", userInput), ChatEntry("assistant", aiResponse)];
    assert modified ==
      applied.value["chatHistory" := JArr(log.items + [ChatEntry("user", userInput), ChatEntry("assistant", aiResponse)])];
  }

  /** The chat log the project came with, as a list. */
  function PriorLog(project: Project): seq<Json> {
    if "chatHistory" in project && project["chatHistory"].JArr? then project["chatHistory"].items else []
  }

  /** A successful turn ran the agent, replies with its output (or the apology
      when it gave none), extends the chat log by exactly the user's message and
      then the reply, and changes no top-level entry but `plan`, `edit` and
      `chatHistory`. In `plan` and `edit` it appends the records the agent's
      steps asked for and changes nothing else. */
  lemma TurnAppendsExchange(userInput: string, project: Project, rt: Runtime, reply: string, modified: Project)
    requires Turn(userInput, project, rt) == Success((reply, modified))
    ensures Invocation(userInput, project, rt).Success?
    ensures Invocation(userInput, project, rt).value.Returned?
    ensures reply == Reply(Invocation(userInput, project, rt).value.output)
    ensures "chatHistory" in modified
    ensures modified["chatHistory"] ==
      JArr(PriorLog(project) + [ChatEntry("user", userInput), ChatEntry("assistant", reply)])
    ensures forall k :: k != "plan" && k != "edit" && k != "chatHistory" ==>
      (k in modified <==> k in project) && (k in project ==> modified[k] == project[k])
    ensures forall kind: Kind :: Records(project, kind).Some? ==>
      var steps := Invocation(userInput, project, rt).value.steps.GetOr([]);
      Records(modified, kind) ==
        Some(Records(project, kind).value + NewRecords(kind, |Records(project, kind).value|, Requests(steps, kind)))
    ensures forall kind: Kind ::
      ContainerFields(modified, kind) - {kind.ListKey()} == ContainerFields(project, kind) - {kind.ListKey()}
  {
    var result := Invocation(userInput, project, rt).value;
    var steps := result.steps.GetOr([]);
    var applied := ToolCallsApplied(project, result.steps).value;
    assert ApplySteps(project, steps) == Success(applied);
    ApplyStepsKeepsOtherKeys(project, steps, applied);
    assert LogToExtend(applied).value == PriorLog(project);
    forall kind: Kind
      ensures Records(project, kind).Some? ==>
        Records(modified, kind) ==
          Some(Records(project, kind).value + NewRecords(kind, |Records(project, kind).value|, Requests(steps, kind)))
      ensures ContainerFields(modified, kind) - {kind.ListKey()} == ContainerFields(project, kind) - {kind.ListKey()}
    {
      if Records(project, kind).Some? {
        ApplyStepsAppendsInOrder(project, steps, applied, kind);
      }
      ApplyStepsKeepsContainerFields(project, steps, applied, kind);
      assert kind.Container() != "chatHistory";
      assert Records(modified, kind) == Records(applied, kind);
      assert ContainerFields(modified, kind) == ContainerFields(applied, kind);
    }
  }

  /** The tool calls of the steps all carry a dict of arguments. */
  predicate WellFormedSteps(steps: Option<seq<Step>>) {
    steps.Some? ==>
      forall i :: 0 <= i < |steps.value| ==>
        (Names(steps.value[i], AddIdeaName) || Names(steps.value[i], AddCommentName)) ==> steps.value[i].action.input.JObj?
  }

  /** On a project of the expected shape the agent is always reached, and a
      turn fails only when the agent raises or its tool calls are malformed. */
  lemma TurnSucceeds(userInput: string, project: Project, rt: Runtime)
    requires "chatHistory" in project ==>
      project["chatHistory"].JArr? &&
      forall i :: 0 <= i < |project["chatHistory"].items| ==> project["chatHistory"].items[i].JObj?
    requires "currentPhase" in project ==> !project["currentPhase"].JArr? && !project["currentPhase"].JObj?
    requires rt.dumps(ContextCopy(project)).Some?
    requires Records(project, IdeaKind).Some? && Records(project, CommentKind).Some?
    ensures Invocation(userInput, project, rt).Success?
    ensures (Invocation(userInput, project, rt).value.Returned? &&
             WellFormedSteps(Invocation(userInput, project, rt).value.steps)) ==>
      Turn(userInput, project, rt).Success?
  {
    if "chatHistory" in project {
      ChatMessagesSucceedIff(project["chatHistory"].items);
    }
    var result := Invocation(userInput, project, rt).value;
    if result.Returned? && WellFormedSteps(result.steps) && result.steps.Some? {
      ApplyStepsSucceeds(project, result.steps.value);
      var applied := ApplySteps(project, result.steps.value).value;
      ApplyStepsKeepsOtherKeys(project, result.steps.value, applied);
    }
  }
}
