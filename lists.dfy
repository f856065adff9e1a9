/** `RtmList` (rtm-list.c): a task list with its id, its name and the tasks
    it holds, kept in a `GList` of task references. */
module Lists {
  import opened Wrappers
  import opened Errors
  import opened GlibStrings
  import opened Xml
  import opened Util
  import Tasks

  /** The ids of `ts`, in order. */
  function IdsOf(ts: seq<Tasks.RtmTask>): (r: seq<Option<string>>)
    reads ts
    ensures |r| == |ts|
    ensures forall k | 0 <= k < |ts| :: r[k] == ts[k].id
  {
    if ts == [] then [] else IdsOf(ts[..|ts| - 1]) + [ts[|ts| - 1].id]
  }

  /** The index `rtm_list_find_task` lands on: the first id equal to `key`;
      never anything for a NULL key. */
  function Lookup(ids: seq<Option<string>>, key: Option<string>): (r: Option<nat>)
    ensures r.Some? ==> key.Some? && r.value < |ids| && ids[r.value] == key
    ensures r.Some? ==> forall j | 0 <= j < r.value :: ids[j] != key
    ensures r.None? ==> key.None? || forall j | 0 <= j < |ids| :: ids[j] != key
  {
    if key.None? || ids == [] then None
    else if ids[0] == key then Some(0)
    else
      match Lookup(ids[1..], key)
      case Some(k) => Some(k + 1)
      case None => None
  }

  /** No two tasks share a non-NULL id. */
  predicate DistinctIds(ids: seq<Option<string>>)
  {
    forall i, j | 0 <= i < j < |ids| && ids[i].Some? :: ids[i] != ids[j]
  }

  /** Appending an id that is not found keeps the ids distinct. */
  lemma AddKeepsDistinct(ids: seq<Option<string>>, x: Option<string>)
    requires DistinctIds(ids)
    requires Lookup(ids, x).None?
    ensures DistinctIds(ids + [x])
  {
  }

  /** After an append, the new id is found at the end. */
  lemma FindAfterAdd(ids: seq<Option<string>>, x: Option<string>)
    requires x.Some? && Lookup(ids, x).None?
    ensures Lookup(ids + [x], x) == Some(|ids|)
  {
    var r := Lookup(ids + [x], x);
    assert (ids + [x])[|ids|] == x;
  }

  /** Removing one entry keeps the ids distinct. */
  lemma RemoveKeepsDistinct(ids: seq<Option<string>>, i: nat)
    requires DistinctIds(ids) && i < |ids|
    ensures DistinctIds(ids[..i] + ids[i + 1..])
  {
    var rest := ids[..i] + ids[i + 1..];
    forall a, b | 0 <= a < b < |rest| && rest[a].Some? ensures rest[a] != rest[b] {
      var a', b' := if a < i then a else a + 1, if b < i then b else b + 1;
      assert rest[a] == ids[a'] && rest[b] == ids[b'];
    }
  }

  /** With distinct ids, once the found task is removed its id is gone. */
  lemma FindAfterRemove(ids: seq<Option<string>>, key: Option<string>, i: nat)
    requires DistinctIds(ids)
    requires Lookup(ids, key) == Some(i)
    ensures Lookup(ids[..i] + ids[i + 1..], key).None?
  {
    var rest := ids[..i] + ids[i + 1..];
    forall j | 0 <= j < |rest| ensures rest[j] != key {
      if j < i {
        assert rest[j] == ids[j];
      } else {
        assert rest[j] == ids[j + 1];
      }
    }
  }

  /** `g_list_remove`: drops the first element that is the same object. */
  function RemoveFirst(ts: seq<Tasks.RtmTask>, x: Tasks.RtmTask): (r: seq<Tasks.RtmTask>)
    ensures x !in ts ==> r == ts
    ensures |r| == if x in ts then |ts| - 1 else |ts|
  {
    if ts == [] then []
    else if ts[0] == x then ts[1..]
    else [ts[0]] + RemoveFirst(ts[1..], x)
  }

  /** Dropping the first occurrence of an object is dropping it at its first index. */
  lemma {:induction false} RemoveFirstAt(ts: seq<Tasks.RtmTask>, x: Tasks.RtmTask, i: nat)
    requires i < |ts| && ts[i] == x
    requires forall j | 0 <= j < i :: ts[j] != x
    ensures RemoveFirst(ts, x) == ts[..i] + ts[i + 1..]
  {
    if i > 0 {
      RemoveFirstAt(ts[1..], x, i - 1);
      assert ts[1..][..i - 1] + ts[1..][i..] == ts[1..i] + ts[i + 1..];
      assert ts[..i] == [ts[0]] + ts[1..i];
    }
  }

  /** The header `rtm_list_to_string` starts with. */
  function Header(id: Option<string>, name: Option<string>): string
  {
    Frame("RtmList", Fields(["ID", "Name"], [StringOrNull(id), StringOrNull(name)]))
  }

  /** The renderings of `ts`, in order. */
  function RendersOf(ts: seq<Tasks.RtmTask>): (r: seq<string>)
    reads ts
    ensures |r| == |ts|
    ensures forall k | 0 <= k < |ts| :: r[k] == Tasks.Render(ts[k].Data())
  {
    if ts == [] then [] else RendersOf(ts[..|ts| - 1]) + [ts[|ts| - 1].ToString()]
  }

  /** What occurs in a string occurs in any extension of it. */
  lemma ContainsExtended(s: string, t: string, part: string)
    requires Contains(s, part)
    ensures Contains(s + t, part)
  {
    var i :| 0 <= i <= |s| && OccursAt(s, part, i);
    assert (s + t)[i..i + |part|] == s[i..i + |part|];
    assert OccursAt(s + t, part, i);
  }

  /** What occurs in a string occurs in it behind any prefix. */
  lemma ContainsPrefixed(h: string, s: string, part: string)
    requires Contains(s, part)
    ensures Contains(h + s, part)
  {
    var i :| 0 <= i <= |s| && OccursAt(s, part, i);
    assert (h + s)[|h| + i..|h| + i + |part|] == s[i..i + |part|];
    assert OccursAt(h + s, part, |h| + i);
  }

  /** The header shows the id and name lines. */
  lemma HeaderShowsFields(id: Option<string>, name: Option<string>)
    ensures Contains(Header(id, name), Line("ID", StringOrNull(id)))
    ensures Contains(Header(id, name), Line("Name", StringOrNull(name)))
  {
    var lines := Fields(["ID", "Name"], [StringOrNull(id), StringOrNull(name)]);
    FrameShowsLine("RtmList", lines, 0);
    FrameShowsLine("RtmList", lines, 1);
  }

  /** Whatever follows a header, every task rendering appended after it
      shows up in the result. */
  lemma TextShowsRenders(header: string, renders: seq<string>, k: nat)
    requires k < |renders|
    ensures Contains(header + Join(renders), renders[k])
  {
    JoinContains(renders, k);
    var pre, post :| Join(renders) == pre + renders[k] + post;
    ContainsMiddle(pre, renders[k], post);
    ContainsPrefixed(header, Join(renders), renders[k]);
  }

  /** A list's rendering holds its id and name lines and then every task's
      own rendering. */
  lemma RenderShowsTasks(id: Option<string>, name: Option<string>, renders: seq<string>, k: nat)
    requires k < |renders|
    ensures Contains(Header(id, name) + Join(renders), Line("ID", StringOrNull(id)))
    ensures Contains(Header(id, name) + Join(renders), Line("Name", StringOrNull(name)))
    ensures Contains(Header(id, name) + Join(renders), renders[k])
  {
    HeaderShowsFields(id, name);
    ContainsExtended(Header(id, name), Join(renders), Line("ID", StringOrNull(id)));
    ContainsExtended(Header(id, name), Join(renders), Line("Name", StringOrNull(name)));
    TextShowsRenders(Header(id, name), renders, k);
  }

  /** Changing only the list ids of the tasks leaves their ids as they were. */
  twostate lemma IdsUnchanged(ts: seq<Tasks.RtmTask>)
    requires forall k | 0 <= k < |ts| :: old(ts[k].id) == ts[k].id
    ensures IdsOf(ts) == old(IdsOf(ts))
  {
  }

  class RtmList {
    var id: Option<string>
    var name: Option<string>
    var tasks: seq<Tasks.RtmTask>

    /** The ids of the tasks held, in list order. */
    function Ids(): seq<Option<string>>
      reads this, tasks
    {
      IdsOf(tasks)
    }

    /** `rtm_list_new`: no id, no name, no tasks. */
    constructor ()
      ensures id.None? && name.None? && tasks == []
    {
      id, name, tasks := None, None, [];
    }

    /** `rtm_list_set_id`: refuses NULL, otherwise stores the value. */
    method SetId(v: Option<string>) returns (ok: bool)
      modifies this`id
      ensures ok <==> v.Some?
      ensures id == if ok then v else old(id)
    {
      ok := v.Some?;
      if ok { id := v; }
    }

    /** `rtm_list_set_name`: refuses NULL, otherwise stores the value. */
    method SetName(v: Option<string>) returns (ok: bool)
      modifies this`name
      ensures ok <==> v.Some?
      ensures name == if ok then v else old(name)
    {
      ok := v.Some?;
      if ok { name := v; }
    }

    /** `rtm_list_load_data`: id and name from the node's attributes (NULL
        where absent); a NULL node is refused. The tasks are not touched. */
    method LoadData(node: Option<Node>)
      modifies this`id, this`name
      ensures node.None? ==> id == old(id) && name == old(name)
      ensures node.Some? ==> id == Attr(node.value, "id") && name == Attr(node.value, "name")
    {
      if node.None? {
        return;
      }
      id := Attr(node.value, "id");
      name := Attr(node.value, "name");
    }

    /** `rtm_list_to_string`: the header, then each task's rendering in
        list order. */
    method ToString() returns (s: string)
      ensures s == Header(id, name) + Join(RendersOf(tasks))
    {
      var header := Header(id, name);
      ghost var renders := RendersOf(tasks);
      s := header;
      var i := 0;
      while i < |tasks|
        invariant 0 <= i <= |tasks|
        invariant s == header + Join(renders[..i])
      {
        var text := tasks[i].ToString();
        assert renders[..i + 1] == renders[..i] + [text];
        JoinAppend(renders[..i], text);
        s := s + text;
        i := i + 1;
      }
      assert renders[..i] == renders;
    }

    /** `rtm_list_get_tasks`: a copy of the task sequence. Being a value, the
        copy can be extended without the list growing. */
    method GetTasks() returns (copy: seq<Tasks.RtmTask>)
      ensures copy == tasks
    {
      copy := tasks;
    }

    /** `rtm_list_find_task`: the first task whose id equals `taskId`, or
        null; a NULL `taskId` is refused. */
    method FindTask(taskId: Option<string>) returns (r: Tasks.RtmTask?)
      ensures match Lookup(Ids(), taskId)
              case Some(k) => r == tasks[k]
              case None => r == null
    {
      if taskId.None? {
        return null;
      }
      var i := 0;
      while i < |tasks|
        invariant 0 <= i <= |tasks|
        invariant forall j | 0 <= j < i :: tasks[j].id != taskId
      {
        if StrCmp0(tasks[i].id, taskId) == 0 {
          return tasks[i];
        }
        i := i + 1;
      }
      return null;
    }

    /** `rtm_list_add_task`. A task whose id is already held is refused with
        RTM_TASK_ALREADY_EXISTS, and nothing changes. Otherwise the task is
        given this list's id (kept as it was when the list's id is NULL, as
        `rtm_task_set_list_id` refuses NULL) and appended. */
    method AddTask(task: Tasks.RtmTask) returns (ok: bool, error: Option<RtmError>)
      modifies this`tasks, task`listId
      ensures ok <==> Lookup(old(Ids()), old(task.id)).None?
      ensures old(task.id).None? ==> ok
      ensures !ok ==> error == Some(RtmError(TaskAlreadyExists,
                                  "Task with ID \"" + task.id.value + "\" already exists on this list"))
      ensures !ok ==> tasks == old(tasks) && task.listId == old(task.listId)
      ensures ok ==> error.None? && tasks == old(tasks) + [task]
      ensures ok ==> task.listId == if id.Some? then id else old(task.listId)
      ensures Ids() == if ok then old(Ids()) + [task.id] else old(Ids())
      ensures old(DistinctIds(Ids())) ==> DistinctIds(Ids())
    {
      var existent := FindTask(task.id);
      if existent != null {
        ok, error := false, Some(RtmError(TaskAlreadyExists,
                                 "Task with ID \"" + task.id.value + "\" already exists on this list"));
        return;
      }
      ghost var before := Ids();
      var _ := task.SetListId(id);
      IdsUnchanged(tasks);
      tasks := tasks + [task];
      assert Ids() == before + [task.id];
      if DistinctIds(before) {
        AddKeepsDistinct(before, task.id);
      }
      ok, error := true, None;
    }

    /** `rtm_list_remove_task`. A NULL id is refused without an error; an id
        not held fails with RTM_TASK_NOT_FOUND and nothing changes; otherwise
        exactly the found task leaves the list, the others keeping their order. */
    method RemoveTask(taskId: Option<string>) returns (ok: bool, error: Option<RtmError>)
      modifies this`tasks
      ensures taskId.None? ==> !ok && error.None? && tasks == old(tasks)
      ensures taskId.Some? && Lookup(old(Ids()), taskId).None? ==>
                !ok && tasks == old(tasks)
                && error == Some(RtmError(TaskNotFound, "Task with ID \"" + taskId.value + "\" was not found on this list"))
      ensures Lookup(old(Ids()), taskId).Some? ==>
                var k := Lookup(old(Ids()), taskId).value;
                ok && error.None? && tasks == old(tasks[..k] + tasks[k + 1..])
      ensures old(DistinctIds(Ids())) ==> DistinctIds(Ids())
    {
      if taskId.None? {
        return false, None;
      }
      var existent := FindTask(taskId);
      if existent == null {
        return false, Some(RtmError(TaskNotFound, "Task with ID \"" + taskId.value + "\" was not found on this list"));
      }
      ghost var k := Lookup(Ids(), taskId).value;
      ghost var before := Ids();
      RemoveFirstAt(tasks, existent, k);
      tasks := RemoveFirst(tasks, existent);
      assert Ids() == before[..k] + before[k + 1..];
      if DistinctIds(before) {
        RemoveKeepsDistinct(before, k);
      }
      ok, error := true, None;
    }
  }
}
