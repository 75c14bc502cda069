/** The agent's two tools, `AddIdeaTool` and `AddCommentTool`, and the steps the
    agent executor reports after calling them. */
module Tools {
  import opened PyJson

  const AddIdeaName := "add_idea"
  const AddCommentName := "add_comment"
  const IdeaObservationPrefix := "Added idea: "
  const CommentObservationPrefix := "Added comment: "

  /** What `AddIdeaTool._run` reports back to the model: the fixed prefix
      followed by the idea, verbatim. */
  function IdeaObservation(idea: string): (r: string)
    ensures |r| == |IdeaObservationPrefix| + |idea|
    ensures r[..|IdeaObservationPrefix|] == IdeaObservationPrefix && r[|IdeaObservationPrefix|..] == idea
  {
    IdeaObservationPrefix + idea
  }

  /** What `AddCommentTool._run` reports back: the fixed prefix followed by the
      comment text; the annotated content is not echoed. */
  function CommentObservation(content: string, commentText: string): (r: string)
    ensures |r| == |CommentObservationPrefix| + |commentText|
    ensures r[..|CommentObservationPrefix|] == CommentObservationPrefix && r[|CommentObservationPrefix|..] == commentText
  {
    CommentObservationPrefix + commentText
  }

  /** The action half of a step: an object with a `tool` name and a
      `tool_input` (normally a dict of arguments), or one without `tool`. */
  datatype Action = NoTool | ToolAction(tool: string, input: Json)

  /** One entry of `intermediate_steps`: a tuple of at least two elements
      (action, observation), or anything else. */
  datatype Step = NotPair | Pair(action: Action, observation: Json)
}
