/** The project context the agent puts in front of the user's message:
    `WritingAgent._create_project_context` (a line-per-field summary) and
    `WritingAgent._create_full_project_context` (the project as JSON, without
    its chat log, falling back to the summary). */
module Context {
  import opened PyJson
  import opened Faults
  import opened Phases

  const ContentLimit := 1000
  const NoContext := "No additional context available."
  const JsonHeader := "Complete Project State (JSON):\n"
  const IdeasLabel := "Current Brainstorm Ideas: "
  const ContentLabel := "Current Content: "
  const PhaseLabel := "Current Phase: "

  /** Content as the summary shows it: verbatim up to 1000 characters, longer
      content cut to its first 1000 characters followed by "...". */
  function Truncated(s: string): (r: string)
    ensures |r| <= ContentLimit + 3
    ensures |s| <= ContentLimit ==> r == s
    ensures |s| > ContentLimit ==>
      |r| == ContentLimit + 3 && r[..ContentLimit] == s[..ContentLimit] && r[ContentLimit..] == "..."
  {
    if |s| > ContentLimit then s[..ContentLimit] + "..." else s
  }

  /** The texts `", ".join(items)` joins; the first item that is not a str
      raises, naming its position and type. */
  function IdeaTexts(items: seq<Json>): (r: Result<seq<string>>)
    ensures r.Success? <==> forall i :: 0 <= i < |items| ==> items[i].JStr?
    ensures r.Success? ==> |r.value| == |items| && forall i :: 0 <= i < |items| ==> r.value[i] == items[i].s
    ensures r.Failure? ==>
      exists i :: 0 <= i < |items| && !items[i].JStr? && (forall j :: 0 <= j < i ==> items[j].JStr?) &&
        r.fault == JoinItem(i, TypeName(items[i]))
  {
    if items == [] then Success([])
    else
      var n := |items| - 1;
      var prefix := items[..n];
      assert forall i :: 0 <= i < n ==> prefix[i] == items[i];
      match IdeaTexts(prefix)
      case Failure(f) => Failure(f)
      case Success(init) =>
        if items[n].JStr? then Success(init + [items[n].s])
        else Failure(JoinItem(n, TypeName(items[n])))
  }

  /** A `"<label><str(value)>"` line for a field that is present and true. */
  function FieldLine(project: Project, key: string, caption: string, repr: Json -> string): seq<string> {
    if key in project && Truthy(project[key]) then [caption + PyStr(project[key], repr)] else []
  }

  /** The brainstorm-ideas line: present only for a non-empty list, whose items
      are joined with ", ". */
  function IdeasLines(project: Project): (r: Result<seq<string>>)
    ensures r.Success? && r.value != [] <==>
      "brainstormIdeas" in project && project["brainstormIdeas"].JArr? && project["brainstormIdeas"].items != [] &&
      forall i :: 0 <= i < |project["brainstormIdeas"].items| ==> project["brainstormIdeas"].items[i].JStr?
    ensures r.Failure? ==> "brainstormIdeas" in project && project["brainstormIdeas"].JArr?
    ensures r.Success? && r.value != [] ==>
      var items := project["brainstormIdeas"].items;
      r.value == [IdeasLabel + Join(", ", seq(|items|, i requires 0 <= i < |items| && items[i].JStr? => items[i].s))]
  {
    if "brainstormIdeas" in project && Truthy(project["brainstormIdeas"]) && project["brainstormIdeas"].JArr? then
      var items := project["brainstormIdeas"].items;
      var texts :- IdeaTexts(items);
      assert texts == seq(|items|, i requires 0 <= i < |items| && items[i].JStr? => items[i].s);
      Success([IdeasLabel + Join(", ", texts)])
    else Success([])
  }

  /** The content line. A str is truncated; a list or dict is measured with
      `len` and then sliced, which raises once it has more than 1000 entries;
      a true bool or non-zero int has no `len`. */
  function ContentLines(project: Project, repr: Json -> string): (r: Result<seq<string>>)
    ensures !("content" in project && Truthy(project["content"])) ==> r == Success([])
    ensures "content" in project && project["content"].JStr? && project["content"].s != "" ==>
      r == Success([ContentLabel + Truncated(project["content"].s)])
  {
    if "content" in project && Truthy(project["content"]) then
      match project["content"]
      case JStr(s) => Success([ContentLabel + Truncated(s)])
      case JArr(items) =>
        if |items| > ContentLimit then Failure(ListPlusStr)
        else Success([ContentLabel + repr(project["content"])])
      case JObj(fields) =>
        if |fields| > ContentLimit then Failure(DictSliced)
        else Success([ContentLabel + repr(project["content"])])
      case other => Failure(NoLen(TypeName(other)))
    else Success([])
  }

  function PhaseLine(phase: Phase): string {
    PhaseLabel + phase.Title()
  }

  /** The summary's lines in order: title, description, ideas, outline,
      content, phase. */
  function SummaryLines(project: Project, repr: Json -> string): Result<seq<string>> {
    var ideas :- IdeasLines(project);
    var content :- ContentLines(project, repr);
    var phase :- CurrentPhase(project);
    Success(
      FieldLine(project, "title", "Project Title: ", repr) +
      FieldLine(project, "description", "Project Description: ", repr) +
      ideas +
      FieldLine(project, "outline", "Current Outline: ", repr) +
      content +
      [PhaseLine(phase)])
  }

  /** `_create_project_context`. */
  function ProjectContext(project: Project, repr: Json -> string): Result<string> {
    var lines :- SummaryLines(project, repr);
    Success(if lines == [] then NoContext else Join("\n", lines))
  }

  /** The summary always ends with the phase line of the current phase, so its
      "No additional context available." fallback is never returned; it raises
      only where its line for ideas or content, or the phase lookup, raises. */
  lemma SummaryEndsWithPhase(project: Project, repr: Json -> string)
    ensures ProjectContext(project, repr).Success? <==>
      IdeasLines(project).Success? && ContentLines(project, repr).Success? && CurrentPhase(project).Success?
    ensures ProjectContext(project, repr).Success? ==>
      EndsWith(ProjectContext(project, repr).value, PhaseLine(CurrentPhase(project).value)) &&
      ProjectContext(project, repr).value != NoContext
  {
    var r := SummaryLines(project, repr);
    if r.Success? {
      var lines := r.value;
      var phaseLine := PhaseLine(CurrentPhase(project).value);
      assert lines[|lines| - 1] == phaseLine;
      JoinEndsWithLast("\n", lines);
      var s := Join("\n", lines);
      assert s[|s| - 1] == phaseLine[|phaseLine| - 1] == 'e';
      assert NoContext[|NoContext| - 1] == '.';
    }
  }

  /** The copy that is serialised: the project without its chat log, every
      other top-level entry kept. */
  function ContextCopy(project: Project): (c: Project)
    ensures "chatHistory" !in c
    ensures c.Keys == project.Keys - {"chatHistory"}
    ensures forall k :: k in c ==> c[k] == project[k]
  {
    project - {"chatHistory"}
  }

  /** `_create_full_project_context`: the serialised copy under a header, or
      the summary when `json.dumps` fails (`dumps` returns None). */
  function FullProjectContext(project: Project, dumps: Project -> Option<string>, repr: Json -> string): (r: Result<string>)
    ensures dumps(ContextCopy(project)).Some? ==> r == Success(JsonHeader + dumps(ContextCopy(project)).value)
    ensures dumps(ContextCopy(project)).None? ==> r == ProjectContext(project, repr)
  {
    match dumps(ContextCopy(project))
    case Some(json) => Success(JsonHeader + json)
    case None => ProjectContext(project, repr)
  }
}
