/** `RtmTask` (rtm-task.c): one task of a task series, with the series id,
    the id of the list holding it, its name and its priority. */
module Tasks {
  import opened Wrappers
  import opened GlibStrings
  import opened Xml
  import opened Util

  /** The five private fields of a task; NULL is `None`. */
  datatype TaskData = TaskData(
    id: Option<string>,
    taskseriesId: Option<string>,
    listId: Option<string>,
    name: Option<string>,
    priority: Option<string>)

  /** A freshly created task: GObject zero-fills the private structure. */
  const Blank := TaskData(None, None, None, None, None)

  /** The priorities `rtm_task_set_priority` accepts: none, high, medium, low. */
  predicate ValidPriority(p: Option<string>)
  {
    p == Some("N") || p == Some("1") || p == Some("2") || p == Some("3")
  }

  /** `load_data` reads the `task` child of a taskseries node, which must
      exist whenever the load is not refused outright. */
  predicate Loadable(node: Option<Node>, listId: Option<string>)
  {
    node.Some? && listId.Some? ==> Find(node.value, "task").Some?
  }

  /** The fields after `rtm_task_load_data (task, node, list_id)`: refused
      (nothing changes) for a NULL node or list id; otherwise the series id
      and name come from the node, the id and priority from its `task` child,
      and the list id is the argument. */
  function Loaded(d: TaskData, node: Option<Node>, listId: Option<string>): (r: TaskData)
    requires Loadable(node, listId)
  {
    if node.None? || listId.None? then d
    else
      var series := node.value;
      var task := Find(series, "task").value;
      TaskData(Attr(task, "id"), Attr(series, "id"), listId, Attr(series, "name"), Attr(task, "priority"))
  }

  const FieldNames := ["ID", "Taskseries ID", "List ID", "Name", "Priority"]

  /** The values `rtm_task_to_string` prints, in order. */
  function Shown(d: TaskData): seq<string>
  {
    [StringOrNull(d.id), StringOrNull(d.taskseriesId), StringOrNull(d.listId),
     StringOrNull(d.name), StringOrNull(d.priority)]
  }

  /** `rtm_task_to_string`. */
  function Render(d: TaskData): string
  {
    Frame("RtmTask", Fields(FieldNames, Shown(d)))
  }

  /** A field value that `to_string` reproduces unambiguously. */
  predicate Printable(s: Option<string>)
  {
    s != Some("NULL") && OneLine(StringOrNull(s))
  }

  class RtmTask {
    var id: Option<string>
    var taskseriesId: Option<string>
    var listId: Option<string>
    var name: Option<string>
    var priority: Option<string>

    function Data(): TaskData
      reads this
    {
      TaskData(id, taskseriesId, listId, name, priority)
    }

    /** `rtm_task_new`: every field NULL. */
    constructor ()
      ensures Data() == Blank
    {
      id, taskseriesId, listId, name, priority := None, None, None, None, None;
    }

    /** `rtm_task_set_id`: refuses NULL, otherwise stores the value. */
    method SetId(v: Option<string>) returns (ok: bool)
      modifies this`id
      ensures ok <==> v.Some?
      ensures id == if ok then v else old(id)
    {
      ok := v.Some?;
      if ok { id := v; }
    }

    /** `rtm_task_set_taskseries_id`: refuses NULL, otherwise stores the value. */
    method SetTaskseriesId(v: Option<string>) returns (ok: bool)
      modifies this`taskseriesId
      ensures ok <==> v.Some?
      ensures taskseriesId == if ok then v else old(taskseriesId)
    {
      ok := v.Some?;
      if ok { taskseriesId := v; }
    }

    /** `rtm_task_set_list_id`: refuses NULL, otherwise stores the value. */
    method SetListId(v: Option<string>) returns (ok: bool)
      modifies this`listId
      ensures ok <==> v.Some?
      ensures listId == if ok then v else old(listId)
    {
      ok := v.Some?;
      if ok { listId := v; }
    }

    /** `rtm_task_set_name`: refuses NULL, otherwise stores the value. */
    method SetName(v: Option<string>) returns (ok: bool)
      modifies this`name
      ensures ok <==> v.Some?
      ensures name == if ok then v else old(name)
    {
      ok := v.Some?;
      if ok { name := v; }
    }

    /** `rtm_task_set_priority`: accepts exactly "N", "1", "2" and "3"; NULL
        and every other value are refused and change nothing. */
    method SetPriority(v: Option<string>) returns (ok: bool)
      modifies this`priority
      ensures ok <==> ValidPriority(v)
      ensures priority == if ok then v else old(priority)
    {
      ok := StrCmp0(v, Some("N")) == 0 || StrCmp0(v, Some("1")) == 0
        || StrCmp0(v, Some("2")) == 0 || StrCmp0(v, Some("3")) == 0;
      if ok { priority := v; }
    }

    /** `rtm_task_load_data`. */
    method LoadData(node: Option<Node>, list: Option<string>)
      requires Loadable(node, list)
      modifies this
      ensures Data() == Loaded(old(Data()), node, list)
    {
      if node.None? || list.None? {
        return;
      }
      var series := node.value;
      taskseriesId := Attr(series, "id");
      name := Attr(series, "name");
      var task := Find(series, "task").value;
      id := Attr(task, "id");
      priority := Attr(task, "priority");
      listId := list;
    }

    /** `rtm_task_to_string`. */
    function ToString(): string
      reads this
    {
      Render(Data())
    }
  }

  /** The taskseries and task of the library's own load test. */
  function SampleSeries(): Node
  {
    Node("taskseries", map["id" := "987654", "name" := "Test"], None,
      [Node("task", map["id" := "123456", "priority" := "2"], None, [])])
  }

  /** Loading the sample with list id "102030" yields exactly the test's values. */
  lemma LoadSample(d: TaskData)
    ensures Loadable(Some(SampleSeries()), Some("102030"))
    ensures Loaded(d, Some(SampleSeries()), Some("102030"))
         == TaskData(Some("123456"), Some("987654"), Some("102030"), Some("Test"), Some("2"))
  {
    FindPrefersChild(SampleSeries(), "task", 0);
  }

  /** The load reads only the node and the list id: the fields it overwrites
      are all five, so loading twice is loading once. */
  lemma LoadIdempotent(d: TaskData, node: Option<Node>, listId: Option<string>)
    requires Loadable(node, listId)
    ensures Loaded(Loaded(d, node, listId), node, listId) == Loaded(d, node, listId)
  {
  }

  /** A load that is refused leaves every field as it was. */
  lemma LoadRefused(d: TaskData, node: Option<Node>, listId: Option<string>)
    requires node.None? || listId.None?
    ensures Loaded(d, node, listId) == d
  {
  }

  /** Whatever was there before, a load is decided by its inputs alone. */
  lemma LoadForgetsPrevious(d1: TaskData, d2: TaskData, node: Node, listId: string)
    requires Loadable(Some(node), Some(listId))
    ensures Loaded(d1, Some(node), Some(listId)) == Loaded(d2, Some(node), Some(listId))
    ensures Loaded(d1, Some(node), Some(listId)).listId == Some(listId)
  {
  }

  /** The load stores the `priority` attribute as it comes, so it can give a
      task a priority that `rtm_task_set_priority` would refuse. */
  lemma LoadBypassesPriorityCheck(d: TaskData)
    ensures Loadable(Some(Node("taskseries", map[], None, [Node("task", map["priority" := "9"], None, [])])), Some("1"))
    ensures !ValidPriority(Loaded(d, Some(Node("taskseries", map[], None, [Node("task", map["priority" := "9"], None, [])])), Some("1")).priority)
  {
    FindPrefersChild(Node("taskseries", map[], None, [Node("task", map["priority" := "9"], None, [])]), "task", 0);
  }

  /** The rendering shows every field; an absent one as "NULL". */
  lemma RenderShowsFields(d: TaskData)
    ensures Contains(Render(d), Line("ID", StringOrNull(d.id)))
    ensures Contains(Render(d), Line("Taskseries ID", StringOrNull(d.taskseriesId)))
    ensures Contains(Render(d), Line("List ID", StringOrNull(d.listId)))
    ensures Contains(Render(d), Line("Name", StringOrNull(d.name)))
    ensures Contains(Render(d), Line("Priority", StringOrNull(d.priority)))
    ensures d.priority.None? ==> Contains(Render(d), "  Priority: NULL\n")
  {
    var lines := Fields(FieldNames, Shown(d));
    FrameShowsLine("RtmTask", lines, 0);
    FrameShowsLine("RtmTask", lines, 1);
    FrameShowsLine("RtmTask", lines, 2);
    FrameShowsLine("RtmTask", lines, 3);
    FrameShowsLine("RtmTask", lines, 4);
    assert Line("Priority", "NULL") == "  Priority: NULL\n";
  }

  /** The rendering can be read back: two tasks whose fields are printable
      and render alike are the same. */
  lemma RenderInjective(d1: TaskData, d2: TaskData)
    requires Printable(d1.id) && Printable(d1.taskseriesId) && Printable(d1.listId)
    requires Printable(d1.name) && Printable(d1.priority)
    requires Printable(d2.id) && Printable(d2.taskseriesId) && Printable(d2.listId)
    requires Printable(d2.name) && Printable(d2.priority)
    requires Render(d1) == Render(d2)
    ensures d1 == d2
  {
    FrameInjective("RtmTask", FieldNames, Shown(d1), Shown(d2));
    assert Shown(d1)[0] == Shown(d2)[0] && Shown(d1)[1] == Shown(d2)[1];
    assert Shown(d1)[2] == Shown(d2)[2] && Shown(d1)[3] == Shown(d2)[3];
    assert Shown(d1)[4] == Shown(d2)[4];
    StringOrNullInjective(d1.id, d2.id);
    StringOrNullInjective(d1.taskseriesId, d2.taskseriesId);
    StringOrNullInjective(d1.listId, d2.listId);
    StringOrNullInjective(d1.name, d2.name);
    StringOrNullInjective(d1.priority, d2.priority);
  }
}
