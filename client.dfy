/** `RtmGlib` (rtm-glib.c): the client object of the Remember The Milk REST
    API. It holds the API key, the shared secret and the authentication token,
    signs every call, classifies every reply and turns replies into values.

    The digest (`g_compute_checksum_for_string` with MD5) is the object's
    `checksum` function, and the HTTP round trip together with XML parsing is
    the `send` function each call is given: both are foreign code, so only
    what goes into them and what is made of their results is modelled. */
module Client {
  import opened Wrappers
  import opened Errors
  import opened GlibStrings
  import opened Xml
  import opened Signing
  import opened Response
  import Tasks
  import Lists

  /** One HTTP call: the signed parameters in, the parsed reply or the
      transport's error message out. */
  type Transport = Params -> Result<Node, string>

  const AuthUrl := "http://www.rememberthemilk.com/services/auth/"

  const MethodTestEcho := "rtm.test.echo"
  const MethodTestLogin := "rtm.test.login"
  const MethodAuthGetFrob := "rtm.auth.getFrob"
  const MethodAuthGetToken := "rtm.auth.getToken"
  const MethodAuthCheckToken := "rtm.auth.checkToken"
  const MethodTasksGetList := "rtm.tasks.getList"
  const MethodListsGetList := "rtm.lists.getList"
  const MethodTimelinesCreate := "rtm.timelines.create"
  const MethodTasksAdd := "rtm.tasks.add"
  const MethodTransactionsUndo := "rtm.transactions.undo"
  const MethodTasksDelete := "rtm.tasks.delete"
  const MethodTasksSetName := "rtm.tasks.setName"
  const MethodListsAdd := "rtm.lists.add"
  const MethodListsDelete := "rtm.lists.delete"
  const MethodListsSetName := "rtm.lists.setName"

  /** A reply the client can classify without following a NULL pointer. */
  predicate Wellformed(reply: Result<Node, string>)
  {
    reply.Success? ==> Classifiable(reply.value)
  }

  /** What `rtm_glib_call_method` makes of a reply: a transport failure
      becomes RTM_UNKNOWN_ERROR with the transport's message; a parsed reply
      is returned when `check_response` passes it and otherwise replaced by
      the error it reports. */
  function CallResult(reply: Result<Node, string>): (r: Result<Node, RtmError>)
    requires Wellformed(reply)
    ensures reply.Failure? ==> r == Failure(RtmError(UnknownError, reply.error))
    ensures reply.Success? ==> (r.Success? <==> CheckResponse(reply.value).Pass?)
    ensures r.Success? ==> reply == Success(r.value)
    ensures reply.Success? && r.Failure? ==> Fail(r.error) == CheckResponse(reply.value)
  {
    match reply
    case Failure(message) => Failure(RtmError(UnknownError, message))
    case Success(root) =>
      match CheckResponse(root)
      case Pass => Success(root)
      case Fail(e) => Failure(e)
  }

  /** A successful reply holds a `tag` node for the endpoint to read; the
      source follows the pointer without checking. */
  predicate Provides(reply: Result<Node, string>, tag: string)
  {
    Wellformed(reply) && (CallResult(reply).Success? ==> Find(CallResult(reply).value, tag).Some?)
  }

  /** The `if (x == NULL) x = "";` of `rtm_glib_tasks_get_list`: a NULL
      filter or last_sync is sent as the empty string. */
  function OrEmpty(s: Option<string>): (r: string)
    ensures s.Some? ==> r == s.value
    ensures s.None? ==> r == ""
  {
    if s.Some? then s.value else ""
  }

  /** The parameters of rtm.tasks.getList: the token, `filter` and
      `last_sync` always (empty when NULL), `list_id` only when given. */
  function TasksGetListArgs(token: string, listId: Option<string>, filter: Option<string>, lastSync: Option<string>): (r: Params)
    ensures r.Keys == {"auth_token", "filter", "last_sync"} + (if listId.Some? then {"list_id"} else {})
    ensures r["auth_token"] == token && r["filter"] == OrEmpty(filter) && r["last_sync"] == OrEmpty(lastSync)
    ensures listId.Some? ==> r["list_id"] == listId.value
  {
    var always := map["auth_token" := token, "filter" := OrEmpty(filter), "last_sync" := OrEmpty(lastSync)];
    if listId.None? then always else always["list_id" := listId.value]
  }

  /** The parameters of rtm.tasks.add: `parse` is "1" for any true flag and
      "0" otherwise; `list_id` only when given. */
  function TasksAddArgs(token: string, timeline: string, name: string, listId: Option<string>, parse: int): (r: Params)
    ensures r.Keys == {"auth_token", "timeline", "name", "parse"} + (if listId.Some? then {"list_id"} else {})
    ensures r["auth_token"] == token && r["timeline"] == timeline && r["name"] == name
    ensures r["parse"] == "1" <==> parse != 0
    ensures r["parse"] == "0" <==> parse == 0
    ensures listId.Some? ==> r["list_id"] == listId.value
  {
    var always := map["auth_token" := token, "timeline" := timeline, "name" := name,
                      "parse" := if parse != 0 then "1" else "0"];
    if listId.None? then always else always["list_id" := listId.value]
  }

  /** No call's own parameters collide with the ones `call_method` and
      `sign_call` add. */
  lemma EndpointArgsLeaveRoom(token: string, timeline: string, name: string, listId: Option<string>,
                              filter: Option<string>, lastSync: Option<string>, parse: int)
    ensures var a := TasksGetListArgs(token, listId, filter, lastSync);
            "method" !in a && "api_key" !in a && "api_sig" !in a
    ensures var a := TasksAddArgs(token, timeline, name, listId, parse);
            "method" !in a && "api_key" !in a && "api_sig" !in a
  {
  }

  /** Every taskseries of the list can be loaded into a task of that list. */
  predicate SeriesLoadable(list: Node)
  {
    forall s | s in Group(list, "taskseries") :: Tasks.Loadable(Some(s), Attr(list, "id"))
  }

  /** Every taskseries of every list can be loaded into a task. */
  predicate ListsLoadable(lists: seq<Node>)
  {
    forall i | 0 <= i < |lists| :: SeriesLoadable(lists[i])
  }

  /** The tasks made from the taskseries `series` of a list with id `listId`. */
  function SeriesTasks(listId: Option<string>, series: seq<Node>): (r: seq<Tasks.TaskData>)
    requires forall s | s in series :: Tasks.Loadable(Some(s), listId)
    ensures |r| == |series|
  {
    if series == [] then []
    else SeriesTasks(listId, series[..|series| - 1]) + [Tasks.Loaded(Tasks.Blank, Some(series[|series| - 1]), listId)]
  }

  /** Task `k` is a blank task loaded from taskseries `k`. */
  lemma {:induction false} SeriesTasksAt(listId: Option<string>, series: seq<Node>, k: nat)
    requires forall s | s in series :: Tasks.Loadable(Some(s), listId)
    requires k < |series|
    ensures SeriesTasks(listId, series)[k] == Tasks.Loaded(Tasks.Blank, Some(series[k]), listId)
    decreases |series|
  {
    if k < |series| - 1 {
      var init := series[..|series| - 1];
      assert init[k] == series[k];
      SeriesTasksAt(listId, init, k);
    }
  }

  /** The tasks of each list, list by list. */
  function PerList(lists: seq<Node>): (r: seq<seq<Tasks.TaskData>>)
    requires ListsLoadable(lists)
    ensures |r| == |lists|
    ensures forall i | 0 <= i < |lists| :: SeriesLoadable(lists[i])
              && r[i] == SeriesTasks(Attr(lists[i], "id"), Group(lists[i], "taskseries"))
  {
    if lists == [] then []
    else
      var init, last := lists[..|lists| - 1], lists[|lists| - 1];
      assert SeriesLoadable(last);
      assert ListsLoadable(init) by {
        forall i | 0 <= i < |init| ensures SeriesLoadable(init[i]) { assert init[i] == lists[i]; }
      }
      PerList(init) + [SeriesTasks(Attr(last, "id"), Group(last, "taskseries"))]
  }

  /** The runs one after another. */
  function Flatten(runs: seq<seq<Tasks.TaskData>>): seq<Tasks.TaskData>
  {
    if runs == [] then [] else Flatten(runs[..|runs| - 1]) + runs[|runs| - 1]
  }

  /** Flattening distributes over concatenation. */
  lemma {:induction false} FlattenAppend(a: seq<seq<Tasks.TaskData>>, b: seq<seq<Tasks.TaskData>>)
    ensures Flatten(a + b) == Flatten(a) + Flatten(b)
    decreases |b|
  {
    if b == [] {
      assert a + b == a;
    } else {
      var b' := b[..|b| - 1];
      assert (a + b)[..|a + b| - 1] == a + b';
      assert (a + b)[|a + b| - 1] == b[|b| - 1];
      FlattenAppend(a, b');
    }
  }

  /** One more run flattened. */
  lemma FlattenStep(runs: seq<seq<Tasks.TaskData>>, i: nat)
    requires i < |runs|
    ensures Flatten(runs[..i + 1]) == Flatten(runs[..i]) + runs[i]
  {
    assert runs[..i + 1] == runs[..i] + [runs[i]];
    FlattenAppend(runs[..i], [runs[i]]);
    assert [runs[i]][..0] == [];
  }

  /** The tasks rtm.tasks.getList yields: list after list, taskseries after
      taskseries within each. */
  function TasksOf(lists: seq<Node>): seq<Tasks.TaskData>
    requires ListsLoadable(lists)
  {
    Flatten(PerList(lists))
  }

  /** Every task made from a list carries that list's id, NULL included: a
      NULL id makes `load_data` refuse and the task stay blank. */
  lemma SeriesTasksCarryListId(listId: Option<string>, series: seq<Node>)
    requires forall s | s in series :: Tasks.Loadable(Some(s), listId)
    ensures forall k | 0 <= k < |series| :: SeriesTasks(listId, series)[k].listId == listId
    ensures listId.Some? ==> forall k | 0 <= k < |series| ::
              SeriesTasks(listId, series)[k].taskseriesId == Attr(series[k], "id")
  {
    forall k | 0 <= k < |series|
      ensures SeriesTasks(listId, series)[k] == Tasks.Loaded(Tasks.Blank, Some(series[k]), listId)
    {
      SeriesTasksAt(listId, series, k);
    }
  }

  /** The tasks of consecutive runs of lists come back consecutively. */
  lemma TasksOfAppend(a: seq<Node>, b: seq<Node>)
    requires ListsLoadable(a) && ListsLoadable(b)
    ensures ListsLoadable(a + b)
    ensures TasksOf(a + b) == TasksOf(a) + TasksOf(b)
  {
    assert ListsLoadable(a + b) by {
      forall i | 0 <= i < |a + b| ensures SeriesLoadable((a + b)[i]) {
        if i < |a| { assert (a + b)[i] == a[i]; } else { assert (a + b)[i] == b[i - |a|]; }
      }
    }
    assert PerList(a + b) == PerList(a) + PerList(b);
    FlattenAppend(PerList(a), PerList(b));
  }

  /** One list's tasks are its taskseries in document order. */
  lemma TasksOfOneList(l: Node)
    requires SeriesLoadable(l)
    ensures ListsLoadable([l])
    ensures TasksOf([l]) == SeriesTasks(Attr(l, "id"), Group(l, "taskseries"))
  {
    var run := SeriesTasks(Attr(l, "id"), Group(l, "taskseries"));
    assert PerList([l]) == [run];
    assert [run][..0] == [];
    assert Flatten([run]) == run;
  }

  /** The as-written name guard of `rtm_glib_lists_set_name`. */
  function ListsSetNameGuardAsWritten(name: string): bool
  {
    StrCmp0(Some(name), Some("Inbox")) != 0 || StrCmp0(Some(name), Some("Sent")) != 0
  }

  /** No name can fail the as-written guard, the two reserved names included:
      a name cannot equal both. */
  lemma ListsSetNameGuardAsWrittenAcceptsAll(name: string)
    ensures ListsSetNameGuardAsWritten(name)
    ensures ListsSetNameGuardAsWritten("Inbox") && ListsSetNameGuardAsWritten("Sent")
  {
    if name == "Inbox" {
      assert "Inbox" != "Sent" by { assert "Inbox"[0] != "Sent"[0]; }
    }
    assert "Inbox"[0] != "Sent"[0];
  }

  /** The guard the documentation describes: the name is neither "Inbox"
      nor "Sent". */
  function ListsSetNameGuard(name: string): (ok: bool)
    ensures ok <==> name != "Inbox" && name != "Sent"
  {
    StrCmp0(Some(name), Some("Inbox")) != 0 && StrCmp0(Some(name), Some("Sent")) != 0
  }

  /** `g_hash_table_get_keys`: every key once, in the table's own order,
      which the model leaves unspecified. */
  method HashKeys(params: Params) returns (keys: seq<string>)
    ensures multiset(keys) == multiset(params.Keys)
  {
    keys := [];
    var rest := params.Keys;
    while rest != {}
      invariant rest <= params.Keys
      invariant multiset(keys) + multiset(rest) == multiset(params.Keys)
      decreases rest
    {
      var k :| k in rest;
      keys := keys + [k];
      rest := rest - {k};
    }
  }

  /** The loop of `rtm_glib_caculate_md5` over the sorted keys: each key
      followed by its value. */
  method Concatenate(keys: seq<string>, params: Params) returns (s: string)
    requires forall k | k in keys :: k in params
    ensures s == Concatenation(keys, params)
  {
    s := "";
    var i := 0;
    while i < |keys|
      invariant 0 <= i <= |keys|
      invariant s == Concatenation(keys[..i], params)
    {
      assert keys[..i + 1][..i] == keys[..i];
      s := s + keys[i] + params[keys[i]];
      i := i + 1;
    }
    assert keys[..i] == keys;
  }

  /** The inner loop of `rtm_glib_tasks_get_list`: one new task per
      taskseries, loaded with the id of the list it sits in. */
  method LoadSeries(series: seq<Node>, owner: Option<string>) returns (made: seq<Tasks.RtmTask>)
    requires forall s | s in series :: Tasks.Loadable(Some(s), owner)
    ensures |made| == |series|
    ensures forall k | 0 <= k < |made| :: made[k].Data() == SeriesTasks(owner, series)[k]
    ensures forall t | t in made :: fresh(t)
    ensures Distinct(made)
  {
    made := [];
    var j := 0;
    while j < |series|
      invariant 0 <= j <= |series|
      invariant |made| == j
      invariant forall k | 0 <= k < j :: made[k].Data() == Tasks.Loaded(Tasks.Blank, Some(series[k]), owner)
      invariant forall t | t in made :: fresh(t)
      invariant Distinct(made)
    {
      assert series[j] in series;
      var task := new Tasks.RtmTask();
      task.LoadData(Some(series[j]), owner);
      made := made + [task];
      j := j + 1;
    }
    forall k | 0 <= k < |series|
      ensures SeriesTasks(owner, series)[k] == Tasks.Loaded(Tasks.Blank, Some(series[k]), owner)
    {
      SeriesTasksAt(owner, series, k);
    }
  }

  /** The fields of each task, in order. */
  function DataOf(ts: seq<Tasks.RtmTask>): (r: seq<Tasks.TaskData>)
    reads set t | t in ts
    ensures |r| == |ts|
    ensures forall k | 0 <= k < |ts| :: r[k] == ts[k].Data()
  {
    if ts == [] then [] else DataOf(ts[..|ts| - 1]) + [ts[|ts| - 1].Data()]
  }

  /** The fields of two runs of tasks, one after the other. */
  lemma DataOfAppend(a: seq<Tasks.RtmTask>, b: seq<Tasks.RtmTask>)
    ensures DataOf(a + b) == DataOf(a) + DataOf(b)
  {
  }

  /** No task object occurs twice. */
  predicate Distinct(ts: seq<Tasks.RtmTask>)
  {
    forall a, b | 0 <= a < b < |ts| :: ts[a] != ts[b]
  }

  /** Two runs of distinct objects with none in common are distinct together. */
  lemma DistinctAppend(xs: seq<Tasks.RtmTask>, ys: seq<Tasks.RtmTask>)
    requires Distinct(xs) && Distinct(ys)
    requires forall x, y | x in xs && y in ys :: x != y
    ensures Distinct(xs + ys)
  {
    var zs := xs + ys;
    forall a, b | 0 <= a < b < |zs| ensures zs[a] != zs[b] {
      if b < |xs| {
        assert zs[a] == xs[a] && zs[b] == xs[b];
      } else if a >= |xs| {
        assert zs[a] == ys[a - |xs|] && zs[b] == ys[b - |xs|];
      } else {
        assert zs[a] == xs[a] && zs[b] == ys[b - |xs|];
        assert xs[a] in xs && ys[b - |xs|] in ys;
      }
    }
  }

  /** The outer loop of `rtm_glib_tasks_get_list`: the tasks of every list
      in turn. */
  method LoadLists(lists: seq<Node>) returns (out: seq<Tasks.RtmTask>)
    requires ListsLoadable(lists)
    ensures DataOf(out) == TasksOf(lists)
    ensures forall t | t in out :: fresh(t)
    ensures Distinct(out)
  {
    ghost var per := PerList(lists);
    out := [];
    var i := 0;
    while i < |lists|
      invariant 0 <= i <= |lists|
      invariant DataOf(out) == Flatten(per[..i])
      invariant forall t | t in out :: fresh(t)
      invariant Distinct(out)
    {
      var list := lists[i];
      assert SeriesLoadable(list);
      var made := LoadSeries(Group(list, "taskseries"), Attr(list, "id"));
      assert DataOf(out + made) == Flatten(per[..i + 1]) by {
        assert DataOf(made) == per[i];
        FlattenStep(per, i);
        DataOfAppend(out, made);
      }
      DistinctAppend(out, made);
      out := out + made;
      i := i + 1;
      assert DataOf(out) == Flatten(per[..i]);
    }
    assert per[..i] == per;
  }

  /** The loop of `rtm_glib_lists_get_list`: one new list per node, loaded
      from its attributes. */
  method MakeLists(nodes: seq<Node>) returns (out: seq<Lists.RtmList>)
    ensures |out| == |nodes|
    ensures forall k | 0 <= k < |nodes| :: (fresh(out[k])
              && out[k].id == Attr(nodes[k], "id") && out[k].name == Attr(nodes[k], "name") && out[k].tasks == [])
    ensures forall a, b | 0 <= a < b < |out| :: out[a] != out[b]
  {
    out := [];
    var i := 0;
    while i < |nodes|
      invariant 0 <= i <= |nodes|
      invariant |out| == i
      invariant forall k | 0 <= k < i :: (fresh(out[k])
        && out[k].id == Attr(nodes[k], "id") && out[k].name == Attr(nodes[k], "name") && out[k].tasks == [])
      invariant forall a, b | 0 <= a < b < i :: out[a] != out[b]
    {
      var list := new Lists.RtmList();
      list.LoadData(Some(nodes[i]));
      out := out + [list];
      i := i + 1;
    }
  }

  class RtmGlib {
    const apiKey: string
    const sharedSecret: string
    /** The MD5 digest in hexadecimal, as `g_compute_checksum_for_string` gives it. */
    const checksum: string -> string
    var authToken: Option<string>

    /** `rtm_glib_new`: both keys given, no token yet. */
    constructor (apiKey: string, sharedSecret: string, checksum: string -> string)
      ensures this.apiKey == apiKey && this.sharedSecret == sharedSecret && this.checksum == checksum
      ensures authToken.None?
    {
      this.apiKey := apiKey;
      this.sharedSecret := sharedSecret;
      this.checksum := checksum;
      authToken := None;
    }

    /** The parameters a call of `methodName` with `args` goes out with. */
    ghost function SignedRequest(methodName: string, args: Params): Params
    {
      Signed(sharedSecret, checksum, Request(methodName, apiKey, args))
    }

    /** The reply that call receives. */
    ghost function Reply(send: Transport, methodName: string, args: Params): Result<Node, string>
    {
      send(SignedRequest(methodName, args))
    }

    /** `rtm_glib_caculate_md5`: the digest of the signing string of `params`.
        The keys are taken in whatever order the hash table gives them and
        then sorted, so the order cannot show in the result. */
    method CalculateMd5(params: Params) returns (md5: string)
      ensures md5 == checksum(SigningString(sharedSecret, params))
    {
      var keys := HashKeys(params);
      var sorted := Sort(keys);
      SortIsAscending(keys, params.Keys);
      AscendingMembers(params.Keys);
      var s := Concatenate(sorted, params);
      md5 := checksum(sharedSecret + s);
    }

    /** `rtm_glib_sign_call`: the parameters plus `api_sig`, computed over
        the parameters as they were. */
    method SignCall(params: Params) returns (signed: Params)
      ensures signed == Signed(sharedSecret, checksum, params)
      ensures signed.Keys == params.Keys + {"api_sig"}
    {
      var md5 := CalculateMd5(params);
      signed := params["api_sig" := md5];
    }

    /** `rtm_glib_call_method`: build, sign and send the call, then classify
        the reply. */
    method CallMethod(methodName: string, args: Params, send: Transport) returns (r: Result<Node, RtmError>)
      requires Wellformed(Reply(send, methodName, args))
      ensures r == CallResult(Reply(send, methodName, args))
    {
      var params := Request(methodName, apiKey, args);
      var signed := SignCall(params);
      var reply := send(signed);
      if reply.Failure? {
        return Failure(RtmError(UnknownError, reply.error));
      }
      var root := reply.value;
      var status := CheckResponse(root);
      if status.Fail? {
        return Failure(status.error);
      }
      return Success(root);
    }

    /** `rtm_glib_test_echo`: whether the service echoes the API key back. */
    method TestEcho(send: Transport) returns (r: Result<bool, RtmError>)
      requires Provides(Reply(send, MethodTestEcho, map[]), "api_key")
      requires Provides(Reply(send, MethodTestEcho, map[]), "method")
      ensures var call := CallResult(Reply(send, MethodTestEcho, map[]));
              (r.Failure? <==> call.Failure?)
              && (r.Failure? ==> r.error == call.error)
              && (r.Success? ==> (r.value <==> Find(call.value, "api_key").value.content == Some(apiKey)))
    {
      var root := CallMethod(MethodTestEcho, map[], send);
      if root.Failure? {
        return Failure(root.error);
      }
      var node := Find(root.value, "api_key").value;
      return Success(StrCmp0(node.content, Some(apiKey)) == 0);
    }

    /** `rtm_glib_test_login`: the user name the token logs in as. A
        successful call stores the token; a failed one leaves the stored
        token alone. */
    method TestLogin(token: string, send: Transport) returns (r: Result<Option<string>, RtmError>)
      requires Provides(Reply(send, MethodTestLogin, map["auth_token" := token]), "user")
      requires Provides(Reply(send, MethodTestLogin, map["auth_token" := token]), "username")
      modifies this`authToken
      ensures var call := CallResult(Reply(send, MethodTestLogin, map["auth_token" := token]));
              (call.Failure? ==> r == Failure(call.error) && authToken == old(authToken))
              && (call.Success? ==> r == Success(Find(call.value, "username").value.content)
                                    && authToken == Some(token))
    {
      var root := CallMethod(MethodTestLogin, map["auth_token" := token], send);
      if root.Failure? {
        return Failure(root.error);
      }
      var username := Find(root.value, "username").value.content;
      authToken := Some(token);
      return Success(username);
    }

    /** `rtm_glib_auth_get_frob`: the text of the reply's `frob` node. */
    method AuthGetFrob(send: Transport) returns (r: Result<Option<string>, RtmError>)
      requires Provides(Reply(send, MethodAuthGetFrob, map[]), "frob")
      ensures var call := CallResult(Reply(send, MethodAuthGetFrob, map[]));
              r == if call.Failure? then Failure(call.error)
                   else Success(Find(call.value, "frob").value.content)
    {
      var root := CallMethod(MethodAuthGetFrob, map[], send);
      if root.Failure? {
        return Failure(root.error);
      }
      return Success(Find(root.value, "frob").value.content);
    }

    /** `rtm_glib_auth_get_token`: exchanges a frob for a token, which a
        successful call stores (even a NULL one, when the `token` node has no
        text); a failed call leaves the stored token alone. */
    method AuthGetToken(frob: string, send: Transport) returns (r: Result<Option<string>, RtmError>)
      requires Provides(Reply(send, MethodAuthGetToken, map["frob" := frob]), "token")
      modifies this`authToken
      ensures var call := CallResult(Reply(send, MethodAuthGetToken, map["frob" := frob]));
              (call.Failure? ==> r == Failure(call.error) && authToken == old(authToken))
              && (call.Success? ==> var token := Find(call.value, "token").value.content;
                                    r == Success(token) && authToken == token)
    {
      var root := CallMethod(MethodAuthGetToken, map["frob" := frob], send);
      if root.Failure? {
        return Failure(root.error);
      }
      var token := Find(root.value, "token").value.content;
      authToken := token;
      return Success(token);
    }

    /** `rtm_glib_auth_check_token`: whether the service confirms the token.
        The token is stored exactly when it is confirmed. */
    method AuthCheckToken(token: string, send: Transport) returns (r: Result<bool, RtmError>)
      requires Provides(Reply(send, MethodAuthCheckToken, map["auth_token" := token]), "token")
      modifies this`authToken
      ensures var call := CallResult(Reply(send, MethodAuthCheckToken, map["auth_token" := token]));
              (call.Failure? ==> r == Failure(call.error) && authToken == old(authToken))
              && (call.Success? ==>
                    var valid := Find(call.value, "token").value.content == Some(token);
                    r == Success(valid) && authToken == if valid then Some(token) else old(authToken))
    {
      var root := CallMethod(MethodAuthCheckToken, map["auth_token" := token], send);
      if root.Failure? {
        return Failure(root.error);
      }
      var valid := StrCmp0(Find(root.value, "token").value.content, Some(token)) == 0;
      if valid {
        authToken := Some(token);
      }
      return Success(valid);
    }

    /** `rtm_glib_auth_get_login_url`: no call is made. The URL carries the
        API key, "delete" permission, the frob and their signature, unescaped. */
    method AuthGetLoginUrl(frob: string) returns (url: string)
      ensures url == AuthUrl + "?api_key=" + apiKey + "&perms=delete&frob=" + frob + "&api_sig="
                     + checksum(sharedSecret + "api_key" + apiKey + "frob" + frob + "perms" + "delete")
    {
      var md5 := CalculateMd5(map["api_key" := apiKey, "perms" := "delete", "frob" := frob]);
      LoginSigningString(sharedSecret, apiKey, frob);
      url := AuthUrl + "?api_key=" + apiKey + "&perms=delete&frob=" + frob + "&api_sig=" + md5;
    }

    /** `rtm_glib_tasks_get_list`: one new task per taskseries of every list
        in the reply, in document order, each loaded with its list's id. */
    method TasksGetList(listId: Option<string>, filter: Option<string>, lastSync: Option<string>, send: Transport)
      returns (r: Result<seq<Tasks.RtmTask>, RtmError>)
      requires authToken.Some?
      requires Wellformed(Reply(send, MethodTasksGetList, TasksGetListArgs(authToken.value, listId, filter, lastSync)))
      requires var call := CallResult(Reply(send, MethodTasksGetList, TasksGetListArgs(authToken.value, listId, filter, lastSync)));
               call.Success? ==> ListsLoadable(Group(call.value, "list"))
      ensures var call := CallResult(Reply(send, MethodTasksGetList, TasksGetListArgs(authToken.value, listId, filter, lastSync)));
              (r.Failure? <==> call.Failure?)
              && (r.Failure? ==> r.error == call.error)
              && (r.Success? ==>
                    DataOf(r.value) == TasksOf(Group(call.value, "list"))
                    && (forall t | t in r.value :: fresh(t)) && Distinct(r.value))
    {
      var root := CallMethod(MethodTasksGetList, TasksGetListArgs(authToken.value, listId, filter, lastSync), send);
      if root.Failure? {
        return Failure(root.error);
      }
      var out := LoadLists(Group(root.value, "list"));
      return Success(out);
    }

    /** `rtm_glib_lists_get_list`: one new list per `list` node of the reply,
        in document order, loaded from its attributes and holding no tasks. */
    method ListsGetList(send: Transport) returns (r: Result<seq<Lists.RtmList>, RtmError>)
      requires authToken.Some?
      requires Wellformed(Reply(send, MethodListsGetList, map["auth_token" := authToken.value]))
      ensures var call := CallResult(Reply(send, MethodListsGetList, map["auth_token" := authToken.value]));
              (r.Failure? <==> call.Failure?)
              && (r.Failure? ==> r.error == call.error)
              && (r.Success? ==>
                    var nodes := Group(call.value, "list");
                    |r.value| == |nodes|
                    && (forall k | 0 <= k < |nodes| :: fresh(r.value[k])
                          && r.value[k].id == Attr(nodes[k], "id") && r.value[k].name == Attr(nodes[k], "name")
                          && r.value[k].tasks == [])
                    && (forall a, b | 0 <= a < b < |r.value| :: r.value[a] != r.value[b]))
    {
      var root := CallMethod(MethodListsGetList, map["auth_token" := authToken.value], send);
      if root.Failure? {
        return Failure(root.error);
      }
      var out := MakeLists(Group(root.value, "list"));
      return Success(out);
    }

    /** `rtm_glib_timelines_create`: the text of the reply's `timeline` node. */
    method TimelinesCreate(send: Transport) returns (r: Result<Option<string>, RtmError>)
      requires authToken.Some?
      requires Provides(Reply(send, MethodTimelinesCreate, map["auth_token" := authToken.value]), "timeline")
      ensures var call := CallResult(Reply(send, MethodTimelinesCreate, map["auth_token" := authToken.value]));
              r == if call.Failure? then Failure(call.error)
                   else Success(Find(call.value, "timeline").value.content)
    {
      var root := CallMethod(MethodTimelinesCreate, map["auth_token" := authToken.value], send);
      if root.Failure? {
        return Failure(root.error);
      }
      return Success(Find(root.value, "timeline").value.content);
    }

    /** `rtm_glib_tasks_add`: a new task loaded from the first taskseries of
        the reply's `list` node, with that list's id. A reply without a
        taskseries, or a list without an id, yields a blank task. */
    method TasksAdd(timeline: string, name: string, listId: Option<string>, parse: int, send: Transport)
      returns (r: Result<Tasks.RtmTask, RtmError>)
      requires authToken.Some?
      requires Provides(Reply(send, MethodTasksAdd, TasksAddArgs(authToken.value, timeline, name, listId, parse)), "list")
      requires var call := CallResult(Reply(send, MethodTasksAdd, TasksAddArgs(authToken.value, timeline, name, listId, parse)));
               call.Success? ==>
                 var list := Find(call.value, "list").value;
                 Tasks.Loadable(Find(list, "taskseries"), Attr(list, "id"))
      ensures var call := CallResult(Reply(send, MethodTasksAdd, TasksAddArgs(authToken.value, timeline, name, listId, parse)));
              (r.Failure? <==> call.Failure?)
              && (r.Failure? ==> r.error == call.error)
              && (r.Success? ==>
                    var list := Find(call.value, "list").value;
                    fresh(r.value)
                    && r.value.Data() == Tasks.Loaded(Tasks.Blank, Find(list, "taskseries"), Attr(list, "id")))
    {
      var root := CallMethod(MethodTasksAdd, TasksAddArgs(authToken.value, timeline, name, listId, parse), send);
      if root.Failure? {
        return Failure(root.error);
      }
      var list := Find(root.value, "list").value;
      var owner := Attr(list, "id");
      var series := Find(list, "taskseries");
      var task := new Tasks.RtmTask();
      task.LoadData(series, owner);
      return Success(task);
    }

    /** `rtm_glib_transactions_undo`: success exactly when the call succeeds. */
    method TransactionsUndo(timeline: string, transactionId: string, send: Transport) returns (r: Outcome<RtmError>)
      requires authToken.Some?
      requires Wellformed(Reply(send, MethodTransactionsUndo,
                 map["auth_token" := authToken.value, "timeline" := timeline, "transaction_id" := transactionId]))
      ensures var call := CallResult(Reply(send, MethodTransactionsUndo,
                map["auth_token" := authToken.value, "timeline" := timeline, "transaction_id" := transactionId]));
              r == if call.Failure? then Fail(call.error) else Pass
    {
      var root := CallMethod(MethodTransactionsUndo,
        map["auth_token" := authToken.value, "timeline" := timeline, "transaction_id" := transactionId], send);
      if root.Failure? {
        return Fail(root.error);
      }
      return Pass;
    }

    /** The parameters naming one task of one list. */
    static function TaskArgs(token: string, timeline: string, task: Tasks.TaskData): Params
      requires task.listId.Some? && task.taskseriesId.Some? && task.id.Some?
    {
      map["auth_token" := token, "timeline" := timeline, "list_id" := task.listId.value,
          "taskseries_id" := task.taskseriesId.value, "task_id" := task.id.value]
    }

    /** `rtm_glib_tasks_delete`: the id of the transaction that deleted the task. */
    method TasksDelete(timeline: string, task: Tasks.RtmTask, send: Transport) returns (r: Result<Option<string>, RtmError>)
      requires authToken.Some?
      requires task.listId.Some? && task.taskseriesId.Some? && task.id.Some?
      requires Provides(Reply(send, MethodTasksDelete, TaskArgs(authToken.value, timeline, task.Data())), "transaction")
      ensures var call := CallResult(Reply(send, MethodTasksDelete, TaskArgs(authToken.value, timeline, task.Data())));
              r == if call.Failure? then Failure(call.error)
                   else Success(Attr(Find(call.value, "transaction").value, "id"))
    {
      var root := CallMethod(MethodTasksDelete, TaskArgs(authToken.value, timeline, task.Data()), send);
      if root.Failure? {
        return Failure(root.error);
      }
      return Success(Attr(Find(root.value, "transaction").value, "id"));
    }

    /** `rtm_glib_tasks_set_name`: the id of the transaction that renamed the task. */
    method TasksSetName(timeline: string, task: Tasks.RtmTask, name: string, send: Transport)
      returns (r: Result<Option<string>, RtmError>)
      requires authToken.Some?
      requires task.listId.Some? && task.taskseriesId.Some? && task.id.Some?
      requires Provides(Reply(send, MethodTasksSetName, TaskArgs(authToken.value, timeline, task.Data())["name" := name]), "transaction")
      ensures var call := CallResult(Reply(send, MethodTasksSetName, TaskArgs(authToken.value, timeline, task.Data())["name" := name]));
              r == if call.Failure? then Failure(call.error)
                   else Success(Attr(Find(call.value, "transaction").value, "id"))
    {
      var root := CallMethod(MethodTasksSetName, TaskArgs(authToken.value, timeline, task.Data())["name" := name], send);
      if root.Failure? {
        return Failure(root.error);
      }
      return Success(Attr(Find(root.value, "transaction").value, "id"));
    }

    /** `rtm_glib_lists_add`: a new list loaded from the reply's `list` node;
        blank when there is none. */
    method ListsAdd(timeline: string, name: string, send: Transport) returns (r: Result<Lists.RtmList, RtmError>)
      requires authToken.Some?
      requires Wellformed(Reply(send, MethodListsAdd, map["auth_token" := authToken.value, "timeline" := timeline, "name" := name]))
      ensures var call := CallResult(Reply(send, MethodListsAdd, map["auth_token" := authToken.value, "timeline" := timeline, "name" := name]));
              (r.Failure? <==> call.Failure?)
              && (r.Failure? ==> r.error == call.error)
              && (r.Success? ==>
                    var node := Find(call.value, "list");
                    fresh(r.value) && r.value.tasks == []
                    && r.value.id == (if node.Some? then Attr(node.value, "id") else None)
                    && r.value.name == (if node.Some? then Attr(node.value, "name") else None))
    {
      var root := CallMethod(MethodListsAdd, map["auth_token" := authToken.value, "timeline" := timeline, "name" := name], send);
      if root.Failure? {
        return Failure(root.error);
      }
      var node := Find(root.value, "list");
      var list := new Lists.RtmList();
      list.LoadData(node);
      r := Success(list);
    }

    /** `rtm_glib_lists_delete`: the id of the transaction that deleted the list. */
    method ListsDelete(timeline: string, list: Lists.RtmList, send: Transport) returns (r: Result<Option<string>, RtmError>)
      requires authToken.Some? && list.id.Some?
      requires Provides(Reply(send, MethodListsDelete,
                 map["auth_token" := authToken.value, "timeline" := timeline, "list_id" := list.id.value]), "transaction")
      ensures var call := CallResult(Reply(send, MethodListsDelete,
                map["auth_token" := authToken.value, "timeline" := timeline, "list_id" := list.id.value]));
              r == if call.Failure? then Failure(call.error)
                   else Success(Attr(Find(call.value, "transaction").value, "id"))
    {
      var root := CallMethod(MethodListsDelete,
        map["auth_token" := authToken.value, "timeline" := timeline, "list_id" := list.id.value], send);
      if root.Failure? {
        return Failure(root.error);
      }
      return Success(Attr(Find(root.value, "transaction").value, "id"));
    }

    /** `rtm_glib_lists_set_name`: the id of the transaction that renamed the
        list. The name guard is the one the source writes, which every name
        passes (`ListsSetNameGuardAsWrittenAcceptsAll`), so "Inbox" and "Sent"
        are sent like any other name. */
    method ListsSetName(timeline: string, list: Lists.RtmList, name: string, send: Transport)
      returns (r: Result<Option<string>, RtmError>)
      requires authToken.Some? && list.id.Some?
      requires ListsSetNameGuardAsWritten(name)
      requires Provides(Reply(send, MethodListsSetName,
                 map["auth_token" := authToken.value, "timeline" := timeline, "list_id" := list.id.value, "name" := name]),
                 "transaction")
      ensures var call := CallResult(Reply(send, MethodListsSetName,
                map["auth_token" := authToken.value, "timeline" := timeline, "list_id" := list.id.value, "name" := name]));
              r == if call.Failure? then Failure(call.error)
                   else Success(Attr(Find(call.value, "transaction").value, "id"))
    {
      var root := CallMethod(MethodListsSetName,
        map["auth_token" := authToken.value, "timeline" := timeline, "list_id" := list.id.value, "name" := name], send);
      if root.Failure? {
        return Failure(root.error);
      }
      return Success(Attr(Find(root.value, "transaction").value, "id"));
    }
  }
}
