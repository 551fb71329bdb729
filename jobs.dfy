/**
 * The machining job and its operations: creating an operation (label, tool,
 * then best-effort parameters) and writing an operation's toolpath back to
 * its job. Building the path itself is the CAD kernel's path planner, which
 * is the function parameter `buildPath` here.
 */
module Jobs {
  import opened Parameters

  /** One motion command of a toolpath: its name (G0, G1, ...) and its axis words. */
  datatype Command = Command(name: string, words: map<string, real>)

  /** A toolpath: an ordered sequence of motion commands. */
  datatype Path = Path(commands: seq<Command>)

  /** The job that owns the operations; it holds one toolpath. */
  class Job {
    var Toolpath: Path

    constructor ()
      ensures Toolpath == Path([])
    {
      Toolpath := Path([]);
    }
  }

  /** A machining operation: its kind, the job it belongs to and its attributes. */
  class Operation {
    const Kind: string
    const Job: Job
    var Attributes: Attributes

    /** A fresh operation of the given kind, with the kind's default attributes. */
    constructor (job: Job, kind: string, defaults: Attributes)
      ensures Job == job && Kind == kind && Attributes == defaults
    {
      Job := job;
      Kind := kind;
      Attributes := defaults;
    }
  }

  /** The attributes once the label and the tool have been set. */
  function Labelled(defaults: Attributes, opLabel: string, tool: Value): (r: Attributes)
    ensures r.Keys == defaults.Keys + {"Label", "Tool"}
    ensures r["Label"] == Str(opLabel) && r["Tool"] == tool
    ensures forall k :: k in defaults && k != "Label" && k != "Tool" ==> r[k] == defaults[k]
  {
    defaults["Label" := Str(opLabel)]["Tool" := tool]
  }

  /**
   * Creates an operation of kind `opType` in `job`: sets its label and tool,
   * then tries every parameter in order. A parameter the operation refuses
   * is reported in `rejected` and skipped; it does not stop the loop, and
   * the operation is returned in every case.
   */
  method CreateOperation(job: Job, opType: string, tool: Value, opLabel: string,
                         parameters: seq<Param>, defaultsOf: string -> Attributes,
                         accepts: (string, Value) -> bool)
    returns (op: Operation, rejected: seq<string>)
    ensures fresh(op) && op.Job == job && op.Kind == opType
    ensures op.Attributes == ApplyAll(Labelled(defaultsOf(opType), opLabel, tool), parameters, accepts)
    ensures rejected == Rejected(parameters, accepts)
    ensures op.Attributes.Keys == defaultsOf(opType).Keys + {"Label", "Tool"} + AcceptedNames(parameters, accepts)
    ensures "Label" !in AcceptedNames(parameters, accepts) ==> op.Attributes["Label"] == Str(opLabel)
    ensures "Tool" !in AcceptedNames(parameters, accepts) ==> op.Attributes["Tool"] == tool
    ensures forall k :: k in defaultsOf(opType) && k != "Label" && k != "Tool" && k !in AcceptedNames(parameters, accepts)
                        ==> op.Attributes[k] == defaultsOf(opType)[k]
    ensures forall i :: 0 <= i < |parameters| && accepts(parameters[i].0, parameters[i].1) &&
                        (forall j :: i < j < |parameters| && parameters[j].0 == parameters[i].0
                                     ==> !accepts(parameters[j].0, parameters[j].1))
                        ==> op.Attributes[parameters[i].0] == parameters[i].1
  {
    op := new Operation(job, opType, defaultsOf(opType));
    op.Attributes := op.Attributes["Label" := Str(opLabel)];
    op.Attributes := op.Attributes["Tool" := tool];
    ghost var start := op.Attributes;
    assert start == Labelled(defaultsOf(opType), opLabel, tool);
    rejected := [];
    var i := 0;
    while i < |parameters|
      invariant 0 <= i <= |parameters|
      invariant op.Attributes == ApplyAll(start, parameters[..i], accepts)
      invariant rejected == Rejected(parameters[..i], accepts)
    {
      var (name, value) := parameters[i];
      assert parameters[..i + 1][..i] == parameters[..i];
      if accepts(name, value) {
        op.Attributes := op.Attributes[name := value];
      } else {
        rejected := rejected + [name];
      }
      i := i + 1;
    }
    assert parameters[..i] == parameters;
    forall k | 0 <= k < |parameters| && accepts(parameters[k].0, parameters[k].1) &&
               (forall j :: k < j < |parameters| && parameters[j].0 == parameters[k].0
                            ==> !accepts(parameters[j].0, parameters[j].1))
      ensures op.Attributes[parameters[k].0] == parameters[k].1
    {
      ApplyAllLastAccepted(start, parameters, accepts, k);
    }
  }

  /**
   * Builds the toolpath of `op` and stores it in its job, replacing
   * whatever toolpath the job held before; returns the same path.
   */
  method GenerateToolpath(op: Operation, buildPath: (string, Attributes) -> Path) returns (toolpath: Path)
    modifies op.Job`Toolpath
    ensures toolpath == buildPath(op.Kind, op.Attributes)
    ensures op.Job.Toolpath == toolpath
  {
    toolpath := buildPath(op.Kind, op.Attributes);
    op.Job.Toolpath := toolpath;
  }
}
