/** `WritingAgent._apply_tool_calls_to_project`: the ideas and comments the
    agent's tool calls asked for, appended to a copy of the project. */
module ToolCalls {
  import opened PyJson
  import opened Faults
  import opened Tools

  /** What a tool call adds: a brainstorm idea under `plan.ideas`, or a comment
      under `edit.suggestions`. */
  datatype Kind = IdeaKind | CommentKind {
    function Container(): string {
      if IdeaKind? then "plan" else "edit"
    }

    function ListKey(): string {
      if IdeaKind? then "ideas" else "suggestions"
    }

    function IdPrefix(): string {
      if IdeaKind? then "ai_idea_" else "ai_comment_"
    }
  }

  /** The id of a record appended to a list that held `count` entries. */
  function RecordId(kind: Kind, count: nat): string {
    kind.IdPrefix() + NatToString(count + 1)
  }

  /** The dict appended to a list that held `count` entries. */
  function Record(kind: Kind, count: nat, value: Json): Json {
    match kind
    case IdeaKind =>
      JObj(map["id" := JStr(RecordId(kind, count)), "content" := value,
               "location" := JStr("brainstorm"), "aiGenerated" := JBool(true)])
    case CommentKind =>
      JObj(map["id" := JStr(RecordId(kind, count)), "content" := value,
               "type" := JStr("comment"), "aiGenerated" := JBool(true)])
  }

  /** A record to append: its kind and its content. */
  datatype Addition = Addition(kind: Kind, value: Json)

  /** The step names the tool `name`. */
  predicate Names(step: Step, name: string) {
    step.Pair? && step.action.ToolAction? && step.action.tool == name
  }

  /** `action.tool_input.get(key, "")`. */
  function Arg(step: Step, key: string): Json
    requires step.Pair? && step.action.ToolAction? && step.action.input.JObj?
  {
    Get(step.action.input.fields, key, JStr(""))
  }

  /** The addition a step asks for. Only pairs naming `add_idea` or
      `add_comment` ask for anything; their `tool_input` must be a dict; an idea
      must be true, a comment needs both true `content` and `comment_text`. */
  function Requested(step: Step): (r: Result<Option<Addition>>)
    ensures !(Names(step, AddIdeaName) || Names(step, AddCommentName)) ==> r == Success(None)
    ensures r.Failure? <==> (Names(step, AddIdeaName) || Names(step, AddCommentName)) && !step.action.input.JObj?
    ensures r.Failure? ==> r.fault == NoAttribute(TypeName(step.action.input), "get")
    ensures Names(step, AddIdeaName) && step.action.input.JObj? ==>
      (r.value.Some? <==> Truthy(Arg(step, "idea"))) &&
      (r.value.Some? ==> r.value.value == Addition(IdeaKind, Arg(step, "idea")))
    ensures Names(step, AddCommentName) && step.action.input.JObj? ==>
      (r.value.Some? <==> Truthy(Arg(step, "content")) && Truthy(Arg(step, "comment_text"))) &&
      (r.value.Some? ==> r.value.value == Addition(CommentKind, Arg(step, "comment_text")))
  {
    match step
    case NotPair => Success(None)
    case Pair(NoTool, _) => Success(None)
    case Pair(ToolAction(tool, input), _) =>
      if tool == AddIdeaName then
        if !input.JObj? then Failure(NoAttribute(TypeName(input), "get"))
        else
          var idea := Get(input.fields, "idea", JStr(""));
          Success(if Truthy(idea) then Some(Addition(IdeaKind, idea)) else None)
      else if tool == AddCommentName then
        if !input.JObj? then Failure(NoAttribute(TypeName(input), "get"))
        else
          var content := Get(input.fields, "content", JStr(""));
          var commentText := Get(input.fields, "comment_text", JStr(""));
          Success(if Truthy(content) && Truthy(commentText) then Some(Addition(CommentKind, commentText)) else None)
      else Success(None)
  }

  /** The records already under the kind's list: none when the container or the
      list is absent; None when either has a shape an append cannot use. */
  function Records(project: Project, kind: Kind): Option<seq<Json>> {
    var c := kind.Container();
    if c !in project then Some([])
    else match project[c]
      case JObj(fields) =>
        if kind.ListKey() !in fields then Some([])
        else if fields[kind.ListKey()].JArr? then Some(fields[kind.ListKey()].items)
        else None
      case _ => None
  }

  /** The container's own entries, or none when it is absent. */
  function ContainerFields(project: Project, kind: Kind): map<string, Json> {
    var c := kind.Container();
    if c in project && project[c].JObj? then project[c].fields else map[]
  }

  /** One append: create the container and the list when absent, then append
      the record numbered after the list's length. A container that is not a
      dict, or a list that is not a list, raises. */
  function Append(project: Project, add: Addition): (r: Result<Project>)
    ensures r.Success? <==> Records(project, add.kind).Some?
    ensures r.Success? ==>
      var old_ := Records(project, add.kind).value;
      Records(r.value, add.kind) == Some(old_ + [Record(add.kind, |old_|, add.value)])
    ensures r.Success? ==>
      forall k :: k != add.kind.Container() ==> (k in r.value <==> k in project) && (k in project ==> r.value[k] == project[k])
    ensures r.Success? ==>
      var c := add.kind.Container();
      c in r.value && r.value[c].JObj? &&
      r.value[c].fields - {add.kind.ListKey()} == ContainerFields(project, add.kind) - {add.kind.ListKey()}
  {
    var c := add.kind.Container();
    var key := add.kind.ListKey();
    var withContainer := if c in project then project else project[c := JObj(map[])];
    match withContainer[c]
    case JObj(fields) =>
      var withList := if key in fields then fields else fields[key := JArr([])];
      (match withList[key]
       case JArr(items) =>
         Success(withContainer[c := JObj(withList[key := JArr(items + [Record(add.kind, |items|, add.value)])])])
       case JStr(_) => Failure(NoAttribute("str", "append"))
       case JObj(_) => Failure(NoAttribute("dict", "append"))
       case other => Failure(NoLen(TypeName(other))))
    case JArr(_) => Failure(ListIndexedByStr)
    case JStr(s) => Failure(if Contains(s, key) then StrIndexedByStr else StrItemAssignment)
    case other => Failure(NotContainer(TypeName(other)))
  }

  /** One step applied to the project. */
  function ApplyStep(project: Project, step: Step): (r: Result<Project>)
    ensures Requested(step) == Success(None) ==> r == Success(project)
    ensures Requested(step).Failure? ==> r == Failure(Requested(step).fault)
    ensures Requested(step).Success? && Requested(step).value.Some? ==> r == Append(project, Requested(step).value.value)
  {
    var request :- Requested(step);
    match request
    case None => Success(project)
    case Some(add) => Append(project, add)
  }

  /** The steps applied in order; the first that raises ends the walk. */
  function ApplySteps(project: Project, steps: seq<Step>): Result<Project> {
    if steps == [] then Success(project)
    else
      var before :- ApplySteps(project, steps[..|steps| - 1]);
      ApplyStep(before, steps[|steps| - 1])
  }

  /** `_apply_tool_calls_to_project` as a value: a result without
      `intermediate_steps` leaves the project exactly as it was. */
  function ToolCallsApplied(project: Project, steps: Option<seq<Step>>): (r: Result<Project>)
    ensures steps.None? ==> r == Success(project)
    ensures steps == Some([]) ==> r == Success(project)
  {
    if steps.None? then Success(project) else ApplySteps(project, steps.value)
  }

  /** The contents, in step order, of the additions of `kind` the steps ask for. */
  function Requests(steps: seq<Step>, kind: Kind): seq<Json> {
    if steps == [] then []
    else Requests(steps[..|steps| - 1], kind) + RequestOf(steps[|steps| - 1], kind)
  }

  /** The content of the addition of `kind` one step asks for, if any. */
  function RequestOf(step: Step, kind: Kind): seq<Json> {
    var r := Requested(step);
    if r.Success? && r.value.Some? && r.value.value.kind == kind then [r.value.value.value] else []
  }

  /** The records appended to a list of `count` entries for contents `values`,
      numbered consecutively from `count + 1`. */
  function NewRecords(kind: Kind, count: nat, values: seq<Json>): seq<Json> {
    seq(|values|, k requires 0 <= k < |values| => Record(kind, count + k, values[k]))
  }

  /** `_apply_tool_calls_to_project`: the loop over the steps, appending in
      place to a copy of the project. */
  method ApplyToolCalls(project: Project, steps: Option<seq<Step>>) returns (r: Result<Project>)
    ensures r == ToolCallsApplied(project, steps)
  {
    var modified := project;
    if steps.None? {
      return Success(modified);
    }
    var s := steps.value;
    var i := 0;
    while i < |s|
      invariant 0 <= i <= |s|
      invariant ApplySteps(project, s[..i]) == Success(modified)
    {
      var step := s[i];
      assert s[..i + 1][..i] == s[..i];
      assert s[..i + 1][i] == step;
      if step.Pair? && step.action.ToolAction? {
        var tool, input := step.action.tool, step.action.input;
        if tool == AddIdeaName {
          if !input.JObj? {
            ApplyStepsFailurePersists(project, s, i + 1);
            return Failure(NoAttribute(TypeName(input), "get"));
          }
          var idea := Get(input.fields, "idea", JStr(""));
          if Truthy(idea) {
            var next := AppendRecord(modified, IdeaKind, idea);
            if next.Failure? {
              ApplyStepsFailurePersists(project, s, i + 1);
              return next;
            }
            modified := next.value;
          }
        } else if tool == AddCommentName {
          if !input.JObj? {
            ApplyStepsFailurePersists(project, s, i + 1);
            return Failure(NoAttribute(TypeName(input), "get"));
          }
          var content := Get(input.fields, "content", JStr(""));
          var commentText := Get(input.fields, "comment_text", JStr(""));
          if Truthy(content) && Truthy(commentText) {
            var next := AppendRecord(modified, CommentKind, commentText);
            if next.Failure? {
              ApplyStepsFailurePersists(project, s, i + 1);
              return next;
            }
            modified := next.value;
          }
        }
      }
      i := i + 1;
    }
    assert s[..|s|] == s;
    return Success(modified);
  }

  /** One append as the loop body performs it, statement by statement on the
      working copy: create the container and the list when absent, then append
      the numbered record. */
  method AppendRecord(project: Project, kind: Kind, value: Json) returns (r: Result<Project>)
    ensures r == Append(project, Addition(kind, value))
  {
    var c, key := kind.Container(), kind.ListKey();
    var modified := project;
    if c !in modified {
      modified := modified[c := JObj(map[])];
    }
    var container := modified[c];
    if container.JArr? {
      return Failure(ListIndexedByStr);
    } else if container.JStr? {
      return Failure(if Contains(container.s, key) then StrIndexedByStr else StrItemAssignment);
    } else if !container.JObj? {
      return Failure(NotContainer(TypeName(container)));
    }
    var fields := container.fields;
    if key !in fields {
      fields := fields[key := JArr([])];
    }
    var list := fields[key];
    if list.JStr? || list.JObj? {
      return Failure(NoAttribute(TypeName(list), "append"));
    } else if !list.JArr? {
      return Failure(NoLen(TypeName(list)));
    }
    var record := Record(kind, |list.items|, value);
    fields := fields[key := JArr(list.items + [record])];
    modified := modified[c := JObj(fields)];
    return Success(modified);
  }

  /** Once a prefix of the steps raises, all of them raise the same way. */
  lemma {:induction false} ApplyStepsFailurePersists(project: Project, steps: seq<Step>, i: nat)
    requires i <= |steps|
    requires ApplySteps(project, steps[..i]).Failure?
    ensures ApplySteps(project, steps) == ApplySteps(project, steps[..i])
    decreases |steps| - i
  {
    if i < |steps| {
      var init := steps[..|steps| - 1];
      assert init[..i] == steps[..i];
      ApplyStepsFailurePersists(project, init, i);
    } else {
      assert steps[..i] == steps;
    }
  }

  /** Applying the steps changes no top-level entry but `plan` and `edit`. */
  lemma {:induction false} ApplyStepsKeepsOtherKeys(project: Project, steps: seq<Step>, result: Project)
    requires ApplySteps(project, steps) == Success(result)
    ensures forall k :: k != "plan" && k != "edit" ==>
      (k in result <==> k in project) && (k in project ==> result[k] == project[k])
  {
    if steps != [] {
      var init := steps[..|steps| - 1];
      var before := ApplySteps(project, init).value;
      ApplyStepsKeepsOtherKeys(project, init, before);
    }
  }

  /** One step appends a record of a kind exactly when it asks for an
      addition of that kind, and leaves that kind's records alone otherwise. */
  lemma ApplyStepRecords(before: Project, step: Step, after: Project, kind: Kind)
    requires ApplyStep(before, step) == Success(after)
    requires Records(before, kind).Some?
    ensures Records(after, kind) ==
      Some(Records(before, kind).value + NewRecords(kind, |Records(before, kind).value|, RequestOf(step, kind)))
  {
    var existing := Records(before, kind).value;
    var request := Requested(step).value;
    if request.Some? && request.value.kind == kind {
      var x := request.value.value;
      assert NewRecords(kind, |existing|, [x]) == [Record(kind, |existing|, x)];
    } else {
      assert NewRecords(kind, |existing|, []) == [];
      assert existing + [] == existing;
      if request.Some? {
        var c := kind.Container();
        assert request.value.kind.Container() != c;
        assert (c in after <==> c in before) && (c in before ==> after[c] == before[c]);
      }
    }
  }

  /** Numbering a batch of contents in two parts numbers the second part on
      from the end of the first. */
  lemma NewRecordsConcat(kind: Kind, existing: seq<Json>, a: seq<Json>, b: seq<Json>)
    ensures var prior := existing + NewRecords(kind, |existing|, a);
      prior + NewRecords(kind, |prior|, b) == existing + NewRecords(kind, |existing|, a + b)
  {
    var count := |existing|;
    var l, r := NewRecords(kind, count, a + b), NewRecords(kind, count, a) + NewRecords(kind, count + |a|, b);
    assert |l| == |r|;
    forall i | 0 <= i < |l|
      ensures l[i] == r[i]
    {
      if i >= |a| {
        assert (a + b)[i] == b[i - |a|];
      }
    }
    assert existing + NewRecords(kind, count, a) + NewRecords(kind, count + |a|, b) == existing + r;
  }

  /** The records of a kind grow by exactly one per addition of that kind the
      steps ask for, in step order, numbered on from the list's old length;
      the records already there are kept. */
  lemma {:induction false} ApplyStepsAppendsInOrder(project: Project, steps: seq<Step>, result: Project, kind: Kind)
    requires ApplySteps(project, steps) == Success(result)
    requires Records(project, kind).Some?
    ensures Records(result, kind) ==
      Some(Records(project, kind).value + NewRecords(kind, |Records(project, kind).value|, Requests(steps, kind)))
  {
    var existing := Records(project, kind).value;
    if steps == [] {
      assert result == project;
      assert NewRecords(kind, |existing|, Requests(steps, kind)) == [];
      assert existing + [] == existing;
    } else {
      var init := steps[..|steps| - 1];
      var last := steps[|steps| - 1];
      var before := ApplySteps(project, init).value;
      ApplyStepsAppendsInOrder(project, init, before, kind);
      assert ApplyStep(before, last) == Success(result);
      ApplyStepRecords(before, last, result, kind);
      NewRecordsConcat(kind, existing, Requests(init, kind), RequestOf(last, kind));
    }
  }

  /** Applying the steps changes nothing in `plan` (`edit`) but its `ideas`
      (`suggestions`) list. */
  lemma {:induction false} ApplyStepsKeepsContainerFields(project: Project, steps: seq<Step>, result: Project, kind: Kind)
    requires ApplySteps(project, steps) == Success(result)
    ensures ContainerFields(result, kind) - {kind.ListKey()} == ContainerFields(project, kind) - {kind.ListKey()}
  {
    if steps != [] {
      var init := steps[..|steps| - 1];
      var last := steps[|steps| - 1];
      var before := ApplySteps(project, init).value;
      ApplyStepsKeepsContainerFields(project, init, before, kind);
      assert ApplyStep(before, last) == Success(result);
      var request := Requested(last).value;
      if request.Some? && request.value.kind != kind {
        assert kind.Container() != request.value.kind.Container();
        assert ContainerFields(result, kind) == ContainerFields(before, kind);
      }
    }
  }

  /** The record holds the id `id`. */
  predicate HasId(record: Json, id: Json) {
    record.JObj? && "id" in record.fields && record.fields["id"] == id
  }

  /** No two records of the list hold the same id. */
  predicate UniqueIds(records: seq<Json>) {
    forall i, j :: 0 <= i < |records| && 0 <= j < |records| && i != j && records[i].JObj? && "id" in records[i].fields ==>
      !HasId(records[j], records[i].fields["id"])
  }

  /** None of the records holds an id the numbering would give to a record
      appended at position `count` or later. */
  ghost predicate NoLaterIds(records: seq<Json>, kind: Kind, count: nat) {
    forall i, k: nat :: 0 <= i < |records| && count <= k ==> !HasId(records[i], JStr(RecordId(kind, k)))
  }

  /** Appending numbered records keeps the ids of a list unique exactly as
      long as no record already there holds an id of a later number. */
  lemma NewRecordIdsFresh(kind: Kind, existing: seq<Json>, values: seq<Json>)
    requires UniqueIds(existing)
    requires NoLaterIds(existing, kind, |existing|)
    ensures UniqueIds(existing + NewRecords(kind, |existing|, values))
  {
    var all := existing + NewRecords(kind, |existing|, values);
    forall i, j | 0 <= i < |all| && 0 <= j < |all| && i != j && all[i].JObj? && "id" in all[i].fields
      ensures !HasId(all[j], all[i].fields["id"])
    {
      if i >= |existing| && j >= |existing| {
        NewRecordIdsDistinct(kind, |existing|, values, i - |existing|, j - |existing|);
      } else if i >= |existing| {
        RecordIdField(kind, i, values[i - |existing|]);
        assert !HasId(existing[j], JStr(RecordId(kind, i)));
      } else if j >= |existing| {
        RecordIdField(kind, j, values[j - |existing|]);
        assert !HasId(existing[i], JStr(RecordId(kind, j)));
      }
    }
  }

  /** A walk keeps the ids of `plan.ideas` (`edit.suggestions`) unique when
      they were unique and none of them uses a number past the list's length. */
  lemma ApplyStepsIdsFresh(project: Project, steps: seq<Step>, result: Project, kind: Kind)
    requires ApplySteps(project, steps) == Success(result)
    requires Records(project, kind).Some?
    requires UniqueIds(Records(project, kind).value)
    requires NoLaterIds(Records(project, kind).value, kind, |Records(project, kind).value|)
    ensures Records(result, kind).Some? && UniqueIds(Records(result, kind).value)
  {
    ApplyStepsAppendsInOrder(project, steps, result, kind);
    NewRecordIdsFresh(kind, Records(project, kind).value, Requests(steps, kind));
  }

  /** The numbering repeats an id once a record has been removed: after
      `ai_idea_1` is deleted from `[ai_idea_1, ai_idea_2]`, one `add_idea`
      appends a second `ai_idea_2`. */
  lemma DuplicateIdAfterRemoval()
    ensures var project := map["plan" := JObj(map["ideas" := JArr([JObj(map["id" := JStr("ai_idea_2")])])])];
      var step := Pair(ToolAction(AddIdeaName, JObj(map["idea" := JStr("a")])), JNull);
      UniqueIds(Records(project, IdeaKind).value) &&
      ApplySteps(project, [step]).Success? &&
      !UniqueIds(Records(ApplySteps(project, [step]).value, IdeaKind).value)
  {
    var project := map["plan" := JObj(map["ideas" := JArr([JObj(map["id" := JStr("ai_idea_2")])])])];
    var step := Pair(ToolAction(AddIdeaName, JObj(map["idea" := JStr("a")])), JNull);
    assert [step][..0] == [];
    var existing := [JObj(map["id" := JStr("ai_idea_2")])];
    assert Records(project, IdeaKind) == Some(existing);
    assert Arg(step, "idea") == JStr("a");
    assert Requested(step) == Success(Some(Addition(IdeaKind, JStr("a"))));
    assert ApplySteps(project, [step]) == Append(project, Addition(IdeaKind, JStr("a")));
    var result := ApplySteps(project, [step]).value;
    var records := Records(result, IdeaKind).value;
    assert NatToString(2) == "2";
    assert records == existing + [Record(IdeaKind, 1, JStr("a"))];
    RecordIdField(IdeaKind, 1, JStr("a"));
    assert HasId(records[1], records[0].fields["id"]);
  }

  /** Records numbered differently carry different ids. */
  lemma RecordIdInjective(kind: Kind, m: nat, n: nat)
    requires m != n
    ensures RecordId(kind, m) != RecordId(kind, n)
  {
    NatToStringInjective(m + 1, n + 1);
    var p := kind.IdPrefix();
    assert RecordId(kind, m)[|p|..] == NatToString(m + 1);
    assert RecordId(kind, n)[|p|..] == NatToString(n + 1);
  }

  lemma RecordIdField(kind: Kind, count: nat, value: Json)
    ensures Record(kind, count, value).JObj? && "id" in Record(kind, count, value).fields
    ensures Record(kind, count, value).fields["id"] == JStr(RecordId(kind, count))
  {
  }

  /** The ids appended in one walk are pairwise distinct. */
  lemma NewRecordIdsDistinct(kind: Kind, count: nat, values: seq<Json>, i: nat, j: nat)
    requires i < |values| && j < |values| && i != j
    ensures NewRecords(kind, count, values)[i].JObj? && NewRecords(kind, count, values)[j].JObj?
    ensures "id" in NewRecords(kind, count, values)[i].fields && "id" in NewRecords(kind, count, values)[j].fields
    ensures NewRecords(kind, count, values)[i].fields["id"] != NewRecords(kind, count, values)[j].fields["id"]
  {
    var records := NewRecords(kind, count, values);
    assert records[i] == Record(kind, count + i, values[i]);
    assert records[j] == Record(kind, count + j, values[j]);
    RecordIdField(kind, count + i, values[i]);
    RecordIdField(kind, count + j, values[j]);
    RecordIdInjective(kind, count + i, count + j);
  }

  /** A project whose `plan.ideas` and `edit.suggestions` are lists (or absent),
      and steps whose tool calls all carry a dict of arguments, never raise. */
  lemma {:induction false} ApplyStepsSucceeds(project: Project, steps: seq<Step>)
    requires Records(project, IdeaKind).Some? && Records(project, CommentKind).Some?
    requires forall i :: 0 <= i < |steps| ==>
      (Names(steps[i], AddIdeaName) || Names(steps[i], AddCommentName)) ==> steps[i].action.input.JObj?
    ensures ApplySteps(project, steps).Success?
  {
    if steps != [] {
      var init := steps[..|steps| - 1];
      var last := steps[|steps| - 1];
      assert forall i :: 0 <= i < |init| ==> init[i] == steps[i];
      ApplyStepsSucceeds(project, init);
      var before := ApplySteps(project, init).value;
      ApplyStepsAppendsInOrder(project, init, before, IdeaKind);
      ApplyStepsAppendsInOrder(project, init, before, CommentKind);
      assert !Requested(last).Failure?;
    }
  }
}
