/** The task input schemas: the create schema with its blank-to-null fields, and the list query. */
module TaskSchema {
  import opened Js
  import opened Zod
  import Text

  const TaskStatuses: seq<string> := ["TODO", "IN_PROGRESS", "COMPLETED", "CANCELLED"]
  const TaskPriorities: seq<string> := ["LOW", "MEDIUM", "HIGH", "URGENT"]

  const CreateTaskKeys: seq<string> := ["title", "description", "status", "priority", "dueDate", "donorId", "assignedTo"]

  const CreateTaskRules: seq<Rule> :=
    [Text(false, 1, Some(255)), Optional(Text(false, 0, Some(1000))),
     Default(Choice(TaskStatuses), Str("TODO")), Default(Choice(TaskPriorities), Str("MEDIUM")),
     BlankAsNull(DateTimeText), BlankAsNull(Text(false, 1, None)), Text(false, 1, None)]

  /** `createTaskSchema` */
  const CreateTask: Rule := Shape(CreateTaskKeys, CreateTaskRules)

  const TaskListKeys: seq<string> := ["page", "limit", "search", "status", "priority"]

  const TaskListRules: seq<Rule> :=
    [Default(Number(true, Some(1), None), Num(1)), Default(Number(true, Some(1), Some(100)), Num(50)),
     Optional(Text(false, 0, None)), Optional(Text(false, 0, None)), Optional(Text(false, 0, None))]

  /** `taskListQuerySchema`; `.positive()` on an integer is a lower bound of 1. */
  const TaskList: Rule := Shape(TaskListKeys, TaskListRules)

  lemma CreateTaskKeysDistinct()
    ensures DistinctFrom(CreateTaskKeys, 0)
  {
  }

  lemma TaskListKeysDistinct()
    ensures DistinctFrom(TaskListKeys, 0)
  {
  }

  /** An accepted task has a title of 1 to 255 characters and a non-empty assignee. */
  lemma TaskAccepted(env: Env, input: Object)
    requires Apply(env, CreateTask, Obj(input)).Some?
    ensures var out := Apply(env, CreateTask, Obj(input)).value.fields;
      && Get(out, "title").Str? && 1 <= Text.Utf16Length(Get(out, "title").s) <= 255
      && Get(out, "assignedTo").Str? && Get(out, "assignedTo").s != ""
  {
    CreateTaskKeysDistinct();
    FieldOf(env, CreateTaskKeys, CreateTaskRules, input, 0);
    FieldOf(env, CreateTaskKeys, CreateTaskRules, input, 6);
  }

  /** An accepted task's status and priority come from their enums, TODO and MEDIUM when left out. */
  lemma TaskEnums(env: Env, input: Object)
    requires Apply(env, CreateTask, Obj(input)).Some?
    ensures var out := Apply(env, CreateTask, Obj(input)).value.fields;
      && Get(out, "status").Str? && Get(out, "status").s in TaskStatuses
      && Get(out, "priority").Str? && Get(out, "priority").s in TaskPriorities
      && (Get(input, "status") == Undefined ==> Get(out, "status") == Str("TODO"))
      && (Get(input, "priority") == Undefined ==> Get(out, "priority") == Str("MEDIUM"))
  {
    CreateTaskKeysDistinct();
    FieldOf(env, CreateTaskKeys, CreateTaskRules, input, 2);
    FieldOf(env, CreateTaskKeys, CreateTaskRules, input, 3);
    DefaultChoice(env, TaskStatuses, "TODO", Get(input, "status"));
    DefaultChoice(env, TaskPriorities, "MEDIUM", Get(input, "priority"));
  }

  /** The description, when given, is a string of at most 1000 characters. */
  lemma TaskDescription(env: Env, input: Object)
    requires Apply(env, CreateTask, Obj(input)).Some?
    ensures var d := Get(input, "description"); d == Undefined || (d.Str? && Text.Utf16Length(d.s) <= 1000)
  {
    CreateTaskKeysDistinct();
    FieldOf(env, CreateTaskKeys, CreateTaskRules, input, 1);
    assert Apply(env, Text(false, 0, Some(1000)), Get(input, "description"))
        == TextRule(false, 0, Some(1000), Get(input, "description"));
  }

  /**
   * An empty due date or donor is stored as null; any other donor must be
   * a non-empty string and any other due date an ISO date-time, each kept
   * as given.
   */
  lemma TaskBlanks(env: Env, input: Object)
    requires Apply(env, CreateTask, Obj(input)).Some?
    ensures var out := Apply(env, CreateTask, Obj(input)).value.fields;
      var due := Get(input, "dueDate");
      var donor := Get(input, "donorId");
      && (due == Str("") || due == Null ==> Get(out, "dueDate") == Null)
      && (donor == Str("") || donor == Null ==> Get(out, "donorId") == Null)
      && (due != Str("") && due != Null ==>
            Get(out, "dueDate") == due && (due == Undefined || (due.Str? && env.isDateTime(due.s))))
      && (donor != Str("") && donor != Null ==>
            Get(out, "donorId") == donor && (donor == Undefined || (donor.Str? && donor.s != "")))
  {
    CreateTaskKeysDistinct();
    StringChecksKeep(env);
    FieldOf(env, CreateTaskKeys, CreateTaskRules, input, 4);
    FieldOf(env, CreateTaskKeys, CreateTaskRules, input, 5);
    var due := Get(input, "dueDate");
    var donor := Get(input, "donorId");
    BlankToNull(env, DateTimeText, due);
    BlankToNull(env, Text(false, 1, None), donor);
    assert Apply(env, Text(false, 1, None), donor) == TextRule(false, 1, None, donor);
  }

  /** The task list query's page is positive (default 1) and its limit within 1..100 (default 50). */
  lemma TaskListPaging(env: Env, input: Object)
    requires Apply(env, TaskList, Obj(input)).Some?
    ensures var out := Apply(env, TaskList, Obj(input)).value.fields;
      && Get(out, "page").Num? && 1 <= Get(out, "page").n
      && Get(out, "limit").Num? && 1 <= Get(out, "limit").n <= 100
      && (Get(input, "page") == Undefined ==> Get(out, "page") == Num(1))
      && (Get(input, "limit") == Undefined ==> Get(out, "limit") == Num(50))
  {
    TaskListKeysDistinct();
    FieldOf(env, TaskListKeys, TaskListRules, input, 0);
    FieldOf(env, TaskListKeys, TaskListRules, input, 1);
    DefaultNumber(env, 1, None, 1, Get(input, "page"));
    DefaultNumber(env, 1, Some(100), 50, Get(input, "limit"));
  }
}
