/** The workflow input schemas: the step schema, the create schema and the list query. */
module WorkflowSchema {
  import opened Js
  import opened Zod
  import Text

  const StepTypes: seq<string> := ["email", "sms", "note", "task"]

  const Triggers: seq<string> :=
    ["FIRST_DONATION", "DONATION_RECEIVED", "INACTIVITY_THRESHOLD", "SEGMENT_ENTRY", "MANUAL", "SCHEDULED"]

  const StepKeys: seq<string> := ["id", "type", "action", "delayDays"]

  const StepRules: seq<Rule> :=
    [Optional(Text(false, 0, None)), Optional(Choice(StepTypes)), Optional(Text(false, 0, None)),
     Optional(Number(false, None, None))]

  /** `workflowStepSchema` */
  const Step: Rule := Shape(StepKeys, StepRules)

  const CreateWorkflowKeys: seq<string> := ["name", "description", "trigger", "steps", "segmentId", "isActive"]

  const CreateWorkflowRules: seq<Rule> :=
    [Text(false, 1, Some(255)), Optional(Text(false, 0, Some(1000))), Choice(Triggers),
     Optional(ArrayOf(Step)), BlankAsNull(Text(false, 1, None)), Default(Boolean, Bool(false))]

  /** `createWorkflowSchema` */
  const CreateWorkflow: Rule := Shape(CreateWorkflowKeys, CreateWorkflowRules)

  const WorkflowListKeys: seq<string> := ["page", "limit", "search"]

  const WorkflowListRules: seq<Rule> :=
    [Default(Number(true, Some(1), None), Num(1)), Default(Number(true, Some(1), Some(100)), Num(50)),
     Optional(Text(false, 0, None))]

  /** `workflowListQuerySchema`; `.positive()` on an integer is a lower bound of 1. */
  const WorkflowList: Rule := Shape(WorkflowListKeys, WorkflowListRules)

  lemma StepKeysDistinct()
    ensures DistinctFrom(StepKeys, 0)
  {
  }

  lemma CreateWorkflowKeysDistinct()
    ensures DistinctFrom(CreateWorkflowKeys, 0)
  {
  }

  lemma WorkflowListKeysDistinct()
    ensures DistinctFrom(WorkflowListKeys, 0)
  {
  }

  /** A step's type, when present, is one of email, sms, note and task; its delay, when present, is a number. */
  lemma StepAccepted(env: Env, v: Value)
    requires Apply(env, Step, v).Some?
    ensures v.Obj?
    ensures var out := Apply(env, Step, v).value.fields;
      && (Get(out, "type") == Undefined || (Get(out, "type").Str? && Get(out, "type").s in StepTypes))
      && (Get(out, "delayDays") == Undefined || Get(out, "delayDays").Num?)
  {
    StepKeysDistinct();
    FieldOf(env, StepKeys, StepRules, v.fields, 1);
    FieldOf(env, StepKeys, StepRules, v.fields, 3);
  }

  /** An accepted workflow has a name of 1 to 255 characters and one of the six triggers. */
  lemma WorkflowAccepted(env: Env, input: Object)
    requires Apply(env, CreateWorkflow, Obj(input)).Some?
    ensures var out := Apply(env, CreateWorkflow, Obj(input)).value.fields;
      && Get(out, "name").Str? && 1 <= Text.Utf16Length(Get(out, "name").s) <= 255
      && Get(out, "trigger").Str? && Get(out, "trigger").s in Triggers
  {
    CreateWorkflowKeysDistinct();
    FieldOf(env, CreateWorkflowKeys, CreateWorkflowRules, input, 0);
    FieldOf(env, CreateWorkflowKeys, CreateWorkflowRules, input, 2);
  }

  /** The description, when given, is a string of at most 1000 characters. */
  lemma WorkflowDescription(env: Env, input: Object)
    requires Apply(env, CreateWorkflow, Obj(input)).Some?
    ensures var d := Get(input, "description"); d == Undefined || (d.Str? && Text.Utf16Length(d.s) <= 1000)
  {
    CreateWorkflowKeysDistinct();
    FieldOf(env, CreateWorkflowKeys, CreateWorkflowRules, input, 1);
    assert Apply(env, Text(false, 0, Some(1000)), Get(input, "description"))
        == TextRule(false, 0, Some(1000), Get(input, "description"));
  }

  /** Every step of an accepted workflow passed the step schema, in order. */
  lemma WorkflowSteps(env: Env, input: Object, j: nat)
    requires Apply(env, CreateWorkflow, Obj(input)).Some?
    requires Get(input, "steps").Arr? && j < |Get(input, "steps").items|
    ensures var out := Apply(env, CreateWorkflow, Obj(input)).value.fields;
      && Get(out, "steps").Arr? && |Get(out, "steps").items| == |Get(input, "steps").items|
      && Apply(env, Step, Get(input, "steps").items[j]) == Some(Get(out, "steps").items[j])
  {
    CreateWorkflowKeysDistinct();
    FieldOf(env, CreateWorkflowKeys, CreateWorkflowRules, input, 3);
    ElementOf(env, Step, Get(input, "steps"), j);
  }

  /** An empty segment becomes null, and the workflow is inactive unless `isActive` says otherwise. */
  lemma WorkflowDefaults(env: Env, input: Object)
    requires Apply(env, CreateWorkflow, Obj(input)).Some?
    ensures var out := Apply(env, CreateWorkflow, Obj(input)).value.fields;
      var seg := Get(input, "segmentId");
      && (seg == Str("") || seg == Null ==> Get(out, "segmentId") == Null)
      && (seg != Str("") && seg != Null ==>
            Get(out, "segmentId") == seg && (seg == Undefined || (seg.Str? && seg.s != "")))
      && Get(out, "isActive").Bool?
      && (Get(input, "isActive") == Undefined ==> Get(out, "isActive") == Bool(false))
  {
    CreateWorkflowKeysDistinct();
    StringChecksKeep(env);
    FieldOf(env, CreateWorkflowKeys, CreateWorkflowRules, input, 4);
    FieldOf(env, CreateWorkflowKeys, CreateWorkflowRules, input, 5);
    var seg := Get(input, "segmentId");
    BlankToNull(env, Text(false, 1, None), seg);
    assert Apply(env, Text(false, 1, None), seg) == TextRule(false, 1, None, seg);
  }

  /** The workflow list query's page is positive (default 1) and its limit within 1..100 (default 50). */
  lemma WorkflowListPaging(env: Env, input: Object)
    requires Apply(env, WorkflowList, Obj(input)).Some?
    ensures var out := Apply(env, WorkflowList, Obj(input)).value.fields;
      && Get(out, "page").Num? && 1 <= Get(out, "page").n
      && Get(out, "limit").Num? && 1 <= Get(out, "limit").n <= 100
      && (Get(input, "page") == Undefined ==> Get(out, "page") == Num(1))
      && (Get(input, "limit") == Undefined ==> Get(out, "limit") == Num(50))
  {
    WorkflowListKeysDistinct();
    FieldOf(env, WorkflowListKeys, WorkflowListRules, input, 0);
    FieldOf(env, WorkflowListKeys, WorkflowListRules, input, 1);
    DefaultNumber(env, 1, None, 1, Get(input, "page"));
    DefaultNumber(env, 1, Some(100), 50, Get(input, "limit"));
  }
}
