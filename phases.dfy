/** The three writing phases and `WritingAgent._get_current_phase`. */
module Phases {
  import opened PyJson
  import opened Faults

  /** A phase; each has its own system prompt and agent. */
  datatype Phase = PlanOrganize | Write | EditRevise {
    /** The phase's key in the agent's table of system prompts. */
    function Key(): string {
      match this
      case PlanOrganize => "plan_organize"
      case Write => "write"
      case EditRevise => "edit_revise"
    }

    /** `key.replace('_', ' ').title()`. */
    function Title(): string {
      match this
      case PlanOrganize => "Plan Organize"
      case Write => "Write"
      case EditRevise => "Edit Revise"
    }
  }

  const DefaultPhaseKey := "plan_organize"

  /** The phase whose key is `key`, if any: the membership test against the
      table of system prompts. */
  function ParsePhase(key: string): (r: Option<Phase>)
    ensures forall p: Phase :: r == Some(p) <==> key == p.Key()
  {
    if key == "plan_organize" then Some(PlanOrganize)
    else if key == "write" then Some(Write)
    else if key == "edit_revise" then Some(EditRevise)
    else None
  }

  /** `_get_current_phase`: the stored `currentPhase` when it names a phase,
      `plan_organize` otherwise; a list or dict there cannot be looked up in
      the prompt table and raises. */
  function CurrentPhase(project: Project): (r: Result<Phase>)
    ensures r.Failure? <==>
      "currentPhase" in project && (project["currentPhase"].JArr? || project["currentPhase"].JObj?)
    ensures r.Failure? ==> r.fault == Unhashable(TypeName(project["currentPhase"]))
    ensures "currentPhase" !in project ==> r == Success(PlanOrganize)
    ensures forall p: Phase :: "currentPhase" in project && project["currentPhase"] == JStr(p.Key()) ==>
      r == Success(p)
    ensures r.Success? && r.value != PlanOrganize ==>
      "currentPhase" in project && project["currentPhase"] == JStr(r.value.Key())
  {
    var stored := Get(project, "currentPhase", JStr(DefaultPhaseKey));
    if stored.JArr? || stored.JObj? then Failure(Unhashable(TypeName(stored)))
    else if stored.JStr? && ParsePhase(stored.s).Some? then Success(ParsePhase(stored.s).value)
    else Success(PlanOrganize)
  }
}
