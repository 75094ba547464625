/** The workflow data model shared by every component: nodes, edges, the dynamically
    typed values that flow along edges, and the two pure routing helpers of the runner. */
module Workflow {

  datatype Option<+T> = None | Some(value: T)

  datatype Result<+T> = Ok(value: T) | Err(error: string)

  type NodeId = string

  newtype byte = b: int | 0 <= b < 256

  /** A dynamically typed value. Only the cases the code distinguishes by a type
      assertion are told apart; everything else is Opaque. */
  datatype Value =
    | Text(text: string)
    | Flag(flag: bool)
    | Float(amount: real)
    | Int(number: int)
    | Bytes(bytes: seq<byte>)
    | Opaque(tag: nat)

  type Data = map<string, Value>

  datatype Node = Node(id: NodeId, typeId: string, config: Data)

  datatype Edge = Edge(id: string, source: NodeId, target: NodeId, branch: Option<string>, isLoopBack: bool)

  const LOOP_CONTROLLER := "loop.controller"
  const LOOP_BODY := "loop_body"
  const EXIT := "exit"
  const INITIAL: NodeId := "_initial"
  const LOOP_STATE: NodeId := "_loop_state"

  /** The string stored under `key`, or the empty string when it is absent or not a string. */
  function TextAt(data: Data, key: string): (r: string)
    ensures r != "" ==> key in data && data[key] == Text(r)
    ensures key in data && data[key].Text? ==> data[key] == Text(r)
  {
    if key in data && data[key].Text? then data[key].text else ""
  }

  /** Whether `edge` fires given the routing output of its source. */
  predicate BranchAllows(edge: Edge, output: Data, sourceType: string)
  {
    match edge.branch
    case None => true
    case Some(wanted) =>
      if sourceType == LOOP_CONTROLLER then TextAt(output, "action") == wanted
      else if "matched_rule" in output && output["matched_rule"].Text? then output["matched_rule"].text == wanted
      else if "result" in output && output["result"].Flag? then (wanted == "true") == output["result"].flag
      else false
  }

  /** Which edges fire. Without a label, every one. Behind a loop controller the label must be the
      text under "action", the empty label standing for no such text. Behind any other node
      the label must be the text under "matched_rule" if there is one; failing that, a boolean
      under "result" that is true selects the label "true", one that is false every other label;
      failing both, no labelled edge fires. */
  lemma WhichEdgesFire(e: Edge, output: Data, sourceType: string)
    ensures e.branch == None ==> BranchAllows(e, output, sourceType)
    ensures forall wanted :: e.branch == Some(wanted) && sourceType == "loop.controller" ==>
      (BranchAllows(e, output, sourceType) <==>
       if "action" in output && output["action"].Text? then output["action"] == Text(wanted) else wanted == "")
    ensures forall wanted :: e.branch == Some(wanted) && sourceType != "loop.controller" ==>
      (BranchAllows(e, output, sourceType) <==>
       if "matched_rule" in output && output["matched_rule"].Text? then output["matched_rule"] == Text(wanted)
       else if wanted == "true" then "result" in output && output["result"] == Flag(true)
       else "result" in output && output["result"] == Flag(false))
  {
  }

  /** Two edges with different labels fire together in exactly one situation: the source is no
      controller, gives a boolean instead of a rule, the boolean is false, and neither label
      is "true". */
  lemma BothBranchesFire(e: Edge, f: Edge, output: Data, sourceType: string)
    requires e.branch.Some? && f.branch.Some? && e.branch != f.branch
    ensures BranchAllows(e, output, sourceType) && BranchAllows(f, output, sourceType) <==>
      && sourceType != LOOP_CONTROLLER && !("matched_rule" in output && output["matched_rule"].Text?)
      && "result" in output && output["result"] == Flag(false)
      && e.branch != Some("true") && f.branch != Some("true")
  {
  }

  /** Conversion of a float to an integer, truncating toward zero. */
  function Truncate(x: real): (r: int)
    ensures x >= 0.0 ==> r as real <= x < r as real + 1.0
    ensures x < 0.0 ==> r as real - 1.0 < x <= r as real
  {
    if x >= 0.0 then x.Floor else -((-x).Floor)
  }

  /** The iteration cap of a loop controller: a number, a float truncated toward zero, and 10 when it is
      missing or not a number. */
  function MaxIterations(config: Data): (r: int)
    ensures "max_iterations" !in config ==> r == 10
    ensures "max_iterations" in config && !config["max_iterations"].Int? && !config["max_iterations"].Float? ==> r == 10
    ensures forall n :: "max_iterations" in config && config["max_iterations"] == Int(n) ==> r == n
    ensures forall x :: "max_iterations" in config && config["max_iterations"] == Float(x) ==>
      if x >= 0.0 then r as real <= x < r as real + 1.0 else r as real - 1.0 < x <= r as real
  {
    if "max_iterations" !in config then 10
    else
      match config["max_iterations"]
      case Float(x) => Truncate(x)
      case Int(n) => n
      case _ => 10
  }
}
