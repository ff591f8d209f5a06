/**
 * Package `base`: the enumerations of an action context's graph position
 * and run status, and the output an action produces: an ActionOutput that
 * owns its StorageRecords, each of which points back at its output.
 */
module Base {
  import opened Wrappers
  import opened GoTypes

  /** Position of an action context in the blueprint graph (an iota enumeration). */
  datatype ContextType = Regular | Thread | Join {
    /** The iota value of the constant. */
    function Code(): (c: int)
      ensures 0 <= c < 3
    {
      match this
      case Regular => 0
      case Thread => 1
      case Join => 2
    }
  }

  /** The ContextType whose iota value is `c`, if any. */
  function ContextTypeOf(c: int): (r: Option<ContextType>)
    ensures r.Some? <==> 0 <= c < 3
    ensures r.Some? ==> r.value.Code() == c
  {
    if c == 0 then Some(Regular)
    else if c == 1 then Some(Thread)
    else if c == 2 then Some(Join)
    else None
  }

  lemma ContextTypeCodes(t: ContextType)
    ensures ContextTypeOf(t.Code()) == Some(t)
    ensures Regular.Code() == 0 && Thread.Code() == 1 && Join.Code() == 2
  {
  }

  /** Run status of an action context (an iota enumeration). */
  datatype RunStatus = Ready | Arranging | Running | Done {
    function Code(): (c: int)
      ensures 0 <= c < 4
    {
      match this
      case Ready => 0
      case Arranging => 1
      case Running => 2
      case Done => 3
    }
  }

  /** The lifecycle order of the statuses: Ready, Arranging, Running, Done. */
  function Successor(s: RunStatus): Option<RunStatus>
  {
    match s
    case Ready => Some(Arranging)
    case Arranging => Some(Running)
    case Running => Some(Done)
    case Done => None
  }

  /** The iota values increase by one along the lifecycle, from Ready = 0 to Done = 3. */
  lemma RunStatusCodesFollowLifecycle(s: RunStatus)
    ensures Successor(s).Some? ==> Successor(s).value.Code() == s.Code() + 1
    ensures Successor(s).None? <==> s.Code() == 3
    ensures s.Code() == 0 <==> s == Ready
  {
  }

  /** The blueprint action an output refers to; the model keeps the fields the core reads. */
  datatype Action = Action(
    actionId: string,
    provider: string,
    actionName: string,
    parameters: seq<byte>,
    output: Option<string>)

  /**
   * What a run function returns, before any object is built:
   * `Rehearsed` is `(nil, nil)`, `Failed(e)` is `(nil, e)`, and
   * `Produced(v, id)` is `(NewActionOutput(ctx.Action, v, id), nil)`.
   */
  datatype Outcome<V> = Rehearsed | Failed(err: Error) | Produced(value: V, valueId: Option<string>)

  /** The untyped `nil` passed as a record value. */
  datatype Nil = Nil

  class ActionOutput<V> {
    var action: Action
    var records: seq<StorageRecord<V>>

    constructor (action: Action)
      ensures this.action == action && records == []
    {
      this.action := action;
      records := [];
    }

    /** Every record of this output points back at it. */
    ghost predicate OwnsRecords()
      reads this, records
    {
      forall i :: 0 <= i < |records| ==> records[i].aout == this
    }

    /**
     * This output is what NewActionOutput(action, value, valueId) returns: one
     * record carrying `value` as both raw source and value, the ID when one is
     * given, the action's output name when it has one, and a back-reference.
     */
    ghost predicate Holds(action: Action, value: V, valueId: Option<string>)
      reads this, records
    {
      && this.action == action
      && |records| == 1
      && OwnsRecords()
      && records[0].action == action
      && records[0].rawSource == value
      && records[0].value == value
      && records[0].valueId == (if valueId.Some? then valueId.value else "")
      && records[0].refName == (if action.output.Some? then action.output.value else "")
    }
  }

  class StorageRecord<V> {
    var action: Action
    var rawSource: V
    var value: V
    var valueId: string
    var refName: string
    var aout: ActionOutput<V>

    constructor (action: Action, value: V, aout: ActionOutput<V>)
      ensures this.action == action && rawSource == value && this.value == value
      ensures this.aout == aout && valueId == "" && refName == ""
    {
      this.action := action;
      rawSource := value;
      this.value := value;
      valueId := "";
      refName := "";
      this.aout := aout;
    }
  }

  /**
   * NewActionOutput: a fresh output with exactly one fresh record whose `aout`
   * is the output itself; ValueID is set only when an ID is supplied and
   * RefName only when the action names an output.
   */
  method NewActionOutput<V>(action: Action, value: V, valueId: Option<string>)
    returns (aout: ActionOutput<V>)
    ensures fresh(aout) && |aout.records| == 1 && fresh(aout.records[0])
    ensures aout.Holds(action, value, valueId)
    ensures aout.records[0].aout == aout
  {
    aout := new ActionOutput(action);
    var record := new StorageRecord(action, value, aout);
    if valueId.Some? {
      record.valueId := valueId.value;
    }
    if action.output.Some? {
      record.refName := action.output.value;
    }
    aout.records := aout.records + [record];
  }

  /**
   * The Go return of a run function for an outcome: no output unless one was
   * produced, in which case it is built by NewActionOutput.
   */
  method Materialize<V>(action: Action, o: Outcome<V>)
    returns (aout: ActionOutput?<V>, err: Option<Error>)
    ensures (aout != null) == o.Produced?
    ensures err == (if o.Failed? then Some(o.err) else None)
    ensures aout != null ==> fresh(aout) && aout.Holds(action, o.value, o.valueId)
  {
    match o
    case Rehearsed =>
      aout, err := null, None;
    case Failed(e) =>
      aout, err := null, Some(e);
    case Produced(v, id) =>
      aout := NewActionOutput(action, v, id);
      err := None;
  }
}
