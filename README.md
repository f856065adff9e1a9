# rtm-glib in Dafny

A model of rtm-glib, the GLib/GObject client library for the Remember The Milk
REST API. The model covers:

- the client object `RtmGlib`, with its API key, shared secret and
  authentication token;
- how every call is built and signed, and how each reply is classified into
  success, a service failure or an unknown response;
- the endpoints that turn replies into tasks, lists, tokens and
  transaction ids;
- the list-owned task collection (`RtmList`);
- the record types `RtmTask`, `RtmLocation`, `RtmTimeZone` and `RtmContact`;
- the string helpers that every `to_string` uses.

## Layout

One module per source file. rtm-glib.c is split three ways: what goes into a signature, how a reply is judged, and the client object.

| module | file | models |
|---|---|---|
| `Wrappers` | wrappers.dfy | `Option`, `Result`, `Outcome` |
| `Errors` | errors.dfy | the `RtmError` codes and a `GError` as code plus message |
| `GlibStrings` | glib_strings.dfy | `g_strcmp0`, `g_list_sort`, and the ascending order of a set of keys |
| `Xml` | xml.dfy | librest's `RestXmlNode`, `rest_xml_node_get_attr`, `rest_xml_node_find` |
| `Util` | util.dfy | rtm-util.c and the `"Title: [\n  Field: value\n…]\n"` frame of every `to_string` |
| `Signing` | signing.dfy | the signing string of the Remember The Milk authentication scheme |
| `Response` | response.dfy | `rtm_glib_check_response` |
| `Tasks`, `Locations`, `TimeZones`, `Contacts` | tasks.dfy, locations.dfy, time_zones.dfy, contacts.dfy | one class per record, over a datatype of its fields |
| `Lists` | lists.dfy | class `RtmList` and its task sequence |
| `Client` | client.dfy | class `RtmGlib`: signing, calling and the endpoints |

Each record is a class whose fields the setters and `load_data` update in place. A `Data()` function reads those fields into a value. Pure functions on that value (`Loaded`, `Render`) say what `load_data` and `to_string` compute, and the lemmas are stated about those functions.

### How the C is represented

- **Strings and flags.** A possibly-NULL `gchar *` is an `Option<string>`. A `gboolean` is an `int`, read as true when non-zero.
- **NULL checks.** A `g_return_val_if_fail` on a record setter, `find_task`, `remove_task` or a `load_data` is modelled as the early return it is.
  - On an endpoint, the `auth_token != NULL` check and the other argument checks act as preconditions. The caller cannot get past them; the model has no error value for them.
- **Missing reply nodes.** A node the code dereferences without checking must be present in the reply; the method states this as a precondition. Examples are the `err` child of a failing reply, the `username` node of `rtm.test.login`, and a taskseries' `task` child.
- **MD5.** `g_compute_checksum_for_string` is the client's `checksum` function, a constructor argument.
- **Transport.** The HTTP round trip through librest, together with XML parsing, is the `send` function given to each call: signed parameters in, parsed tree or error message out.
  - Each endpoint's contract is stated about `Reply(send, method, args)`, the reply that `send` gives to the exact signed request.
- **Child lookup.** librest keeps a node's children in a hash table from tag to the first child with that tag, with the same-tag siblings chained through `next`.
  - The model keeps the children as one sequence in document order. `Xml.Group` is the `next` chain of what `rest_xml_node_find` reaches.
  - The search looks at a node's own children first, then descends into the child that heads each tag's chain, in document order (see "## Left out").

## Model

| member | source | states |
|---|---|---|
| `Client.RtmGlib.constructor` | rtm-glib/rtm-glib.c:286-296 | the client keeps the key and secret it is given and starts with no token |
| `Client.RtmGlib.CalculateMd5` | rtm-glib/rtm-glib.c:309-353 | the digest is the checksum of the shared secret followed by every key and its value, keys in ascending `g_strcmp0` order; it depends on the parameter map only, never on the hash table's enumeration order |
| `Client.HashKeys` | rtm-glib/rtm-glib.c:327 | the enumerated keys are exactly the map's keys, each once |
| `Client.Concatenate` | rtm-glib/rtm-glib.c:331-339 | the loop leaves every key of the list followed by its value, in list order |
| `Client.RtmGlib.SignCall` | rtm-glib/rtm-glib.c:363-385 | the signed call is the call plus `api_sig`, computed over the parameters that existed before `api_sig` was added |
| `Client.CallResult` | rtm-glib/rtm-glib.c:473-498 | a transport error becomes RTM_UNKNOWN_ERROR with the transport's message; otherwise the call succeeds with the root exactly when `check_response` passes it, and fails with its error when not |
| `Client.RtmGlib.CallMethod` | rtm-glib/rtm-glib.c:446-505 | the call sends `method`, `api_key` and its own parameters, signed, and its result is `CallResult` of the reply to that request |
| `Signing.Request` | rtm-glib/rtm-glib.c:463-468 | the request holds the keys `method`, `api_key` and the call's own keys |
| `Signing.SignedRequestShape` | rtm-glib/rtm-glib.c:363-385 | a signed request carries exactly `method`, `api_key`, the call's own parameters and `api_sig`, each with its value; `api_sig` is not among the signed keys |
| `Signing.AscendingMembers` | rtm-glib/rtm-glib.c:327-328 | the sorted key list holds only keys of the table |
| `Signing.AscendingOf` | rtm-glib/rtm-glib.c:327-328 | any sorted list holding each key once is the ascending order of the key set |
| `Signing.ConcatenationOfThree` | rtm-glib/rtm-glib.c:331-339 | three keys concatenate as key, value, key, value, key, value with no separators |
| `Signing.LoginKeysAscending` | rtm-glib/rtm-glib.c:742-746 | the login URL's keys sort as `api_key`, `frob`, `perms` |
| `Signing.SigningStringOfThree` | rtm-glib/rtm-glib.c:323-339 | the signing string of three keys in ascending order is the secret followed by each key and value |
| `Signing.LoginSigningString` | rtm-glib/rtm-glib.c:742-748 | the login URL signs the secret, then `api_key`, its value, `frob`, its value, `perms`, `delete` |
| `Signing.SigningStringAmbiguous` | rtm-glib/rtm-glib.c:331-339 | without separators the maps {a: bc} and {ab: c} share a signing string, and so a signature |
| `Response.Printf` | rtm-glib/rtm-glib.c:411-420 | `%s` of NULL prints `(null)`, of a string the string itself |
| `Response.CheckResponse` | rtm-glib/rtm-glib.c:397-433 | it passes exactly when the root is `rsp` with `stat` exactly `ok`; a failing `rsp` reports RTM_ERROR_RESPONSE_FAIL with `"<code>: <msg>"` from its `err` node; any other root reports RTM_UNKNOWN_ERROR, "Unknown response from Remember The Milk" |
| `Response.InvalidApiKeyReported` | rtm-glib/rtm-glib.c:406-420 | the service's bad-key reply is reported as "101: Invalid API Key" |
| `Response.StatusComparedExactly` | rtm-glib/rtm-glib.c:406-408 | a status of `OK` or a missing status is a failure |
| `Client.RtmGlib.TestEcho` | rtm-glib/rtm-glib.c:516-544 | a call failure is returned as it is; otherwise the result is whether the echoed `api_key` content equals the client's key |
| `Client.RtmGlib.TestLogin` | rtm-glib/rtm-glib.c:557-590 | on success the token is stored and the `username` content returned; on failure the error is returned and the stored token is untouched |
| `Client.RtmGlib.AuthGetFrob` | rtm-glib/rtm-glib.c:601-628 | the `frob` node's content, or the call's error |
| `Client.RtmGlib.AuthGetToken` | rtm-glib/rtm-glib.c:640-671 | on success the `token` node's content is stored and returned, even when it is NULL; on failure the token is untouched |
| `Client.RtmGlib.AuthCheckToken` | rtm-glib/rtm-glib.c:684-716 | on success the result is whether the returned token equals the argument, and the argument is stored exactly when it does; on failure the token is untouched |
| `Client.RtmGlib.AuthGetLoginUrl` | rtm-glib/rtm-glib.c:727-760 | no call is made; the URL is the auth address, `?api_key=K&perms=delete&frob=F&api_sig=` and the checksum of the secret plus `api_keyKfrobFpermsdelete`, with no escaping |
| `Client.OrEmpty` | rtm-glib/rtm-glib.c:784-789 | NULL becomes the empty string, any other string stays |
| `Client.TasksGetListArgs` | rtm-glib/rtm-glib.c:784-816 | `auth_token`, `filter` and `last_sync` are always sent, NULL filter or last_sync as `""`; `list_id` is sent exactly when given |
| `Client.TasksAddArgs` | rtm-glib/rtm-glib.c:944-970 | `auth_token`, `timeline` and `name` are always sent; `parse` is `"1"` exactly when the flag is set and `"0"` exactly when not; `list_id` is sent exactly when given |
| `Client.EndpointArgsLeaveRoom` | rtm-glib/rtm-glib.c:463-468 | no endpoint's own parameters clash with `method`, `api_key` or `api_sig` |
| `Client.SeriesTasks` | rtm-glib/rtm-glib.c:824-828 | one task per taskseries of a list |
| `Client.SeriesTasksAt` | rtm-glib/rtm-glib.c:824-828 | the k-th task is a fresh task loaded from the k-th taskseries with the enclosing list's id |
| `Client.SeriesTasksCarryListId` | rtm-glib/rtm-glib.c:823-828 | each task carries the id of its enclosing list and, when that id is present, the id of its own taskseries |
| `Client.PerList` | rtm-glib/rtm-glib.c:822-829 | one run of tasks per list, each run the list's taskseries in order |
| `Client.TasksOfAppend` | rtm-glib/rtm-glib.c:822-829 | the tasks of two runs of lists are the tasks of the first followed by the tasks of the second |
| `Client.TasksOfOneList` | rtm-glib/rtm-glib.c:822-829 | the tasks of a single list are its taskseries' tasks in document order |
| `Client.LoadSeries` | rtm-glib/rtm-glib.c:824-828 | the inner loop makes one new, distinct task per taskseries, each equal to the specification's task at that position |
| `Client.DataOf` | rtm-glib/rtm-glib.c:824-828 | the field values of a sequence of tasks, position by position |
| `Client.LoadLists` | rtm-glib/rtm-glib.c:822-829 | the nested loops give new, pairwise distinct tasks whose values are those of every list's taskseries, in document order |
| `Client.RtmGlib.TasksGetList` | rtm-glib/rtm-glib.c:777-834 | a call failure is returned as it is; on success the tasks are those of the `list` nodes of the reply, in document order, each carrying its list's id |
| `Client.MakeLists` | rtm-glib/rtm-glib.c:867-871 | one new list per `list` node, in order, with that node's `id` and `name` and no tasks |
| `Client.RtmGlib.ListsGetList` | rtm-glib/rtm-glib.c:845-876 | a call failure is returned as it is; on success one new, distinct list per `list` node, each with that node's `id` and `name` |
| `Client.RtmGlib.TimelinesCreate` | rtm-glib/rtm-glib.c:887-915 | the `timeline` node's content, or the call's error |
| `Client.RtmGlib.TasksAdd` | rtm-glib/rtm-glib.c:931-987 | a call failure is returned as it is; on success a new task loaded from the reply's `list` and its `taskseries`, with that list's id |
| `Client.RtmGlib.TransactionsUndo` | rtm-glib/rtm-glib.c:1000-1028 | success exactly when the call succeeds, else the call's error |
| `Client.RtmGlib.TasksDelete` | rtm-glib/rtm-glib.c:1041-1077 | sends the task's list, taskseries and task ids; returns the `id` of the reply's `transaction`, or the call's error |
| `Client.RtmGlib.TasksSetName` | rtm-glib/rtm-glib.c:1091-1129 | also sends the new name; returns the transaction id, or the call's error |
| `Client.RtmGlib.ListsAdd` | rtm-glib/rtm-glib.c:1142-1177 | a call failure is returned as it is; on success a new list with no tasks, loaded from the reply's `list` node, and both fields stay NULL when that node is missing |
| `Client.RtmGlib.ListsDelete` | rtm-glib/rtm-glib.c:1190-1224 | sends the list's id; returns the transaction id, or the call's error |
| `Client.RtmGlib.ListsSetName` | rtm-glib/rtm-glib.c:1234-1278 | sends the list's id and the new name; returns the transaction id, or the call's error; the name guard is taken as written, so every name is sent, "Inbox" and "Sent" included (see "## Findings") |
| `Client.ListsSetNameGuardAsWrittenAcceptsAll` | rtm-glib/rtm-glib.c:1247-1250 | the guard as written holds for every name, "Inbox" and "Sent" included |
| `Client.ListsSetNameGuard` | rtm-glib/rtm-glib.c:1234 | the documented guard: true exactly when the name is neither "Inbox" nor "Sent" |
| `GlibStrings.Compare` | rtm-glib/rtm-glib.c:328 | `strcmp`'s sign: -1, 0 or 1 |
| `GlibStrings.CompareZeroIffEqual` | rtm-glib/rtm-glib.c:328 | two strings compare equal exactly when they are the same string |
| `GlibStrings.StrCmp0` | rtm-glib/rtm-glib.c:328 | `g_strcmp0` is zero exactly when both arguments are NULL, or both are equal strings |
| `GlibStrings.CompareAntisymmetric` | rtm-glib/rtm-glib.c:328 | swapping the arguments negates the comparison |
| `GlibStrings.CompareTransitive` | rtm-glib/rtm-glib.c:328 | the strict order is transitive |
| `GlibStrings.CompareAtMostTransitive` | rtm-glib/rtm-glib.c:328 | the non-strict order is transitive |
| `GlibStrings.ConsSorted` | rtm-glib/rtm-glib.c:328 | a head no greater than any element of a sorted tail gives a sorted list |
| `GlibStrings.Insert` | rtm-glib/rtm-glib.c:328 | inserting into a sorted list keeps it sorted and adds exactly that element |
| `GlibStrings.Sort` | rtm-glib/rtm-glib.c:328 | `g_list_sort` gives a sorted permutation of its input |
| `GlibStrings.HeadIsLeast` | rtm-glib/rtm-glib.c:328 | the head of a sorted list is no greater than any of its elements |
| `GlibStrings.SortedUnique` | rtm-glib/rtm-glib.c:328 | two sorted permutations of one multiset are equal |
| `GlibStrings.SortIgnoresInputOrder` | rtm-glib/rtm-glib.c:327-328 | sorting two enumerations of the same keys gives the same list |
| `GlibStrings.LeastExists` | rtm-glib/rtm-glib.c:328 | every non-empty key set has a least key |
| `GlibStrings.AscendingSortedPermutation` | rtm-glib/rtm-glib.c:327-328 | the ascending order of a key set is sorted and holds each key once |
| `GlibStrings.SortIsAscending` | rtm-glib/rtm-glib.c:327-328 | sorting any enumeration of the keys gives their ascending order |
| `Xml.Attr` | rtm-glib/rtm-task.c:423-428 | `rest_xml_node_get_attr`: the attribute's value exactly when present, NULL otherwise |
| `Xml.Named` | rtm-glib/rtm-glib.c:822-829 | the chain of same-tag siblings holds only nodes of that tag from the children |
| `Xml.NamedFirst` | rtm-glib/rtm-glib.c:822-829 | a tag has a chain exactly when some child has the tag, and the chain starts at the first such child |
| `Xml.Group` | rtm-glib/rtm-glib.c:822-824 | everything the search returns has the tag asked for |
| `Xml.GroupBelow` | rtm-glib/rtm-glib.c:822-824 | the continued search, too, returns only nodes of the tag |
| `Xml.Find` | rtm-glib/rtm-glib.c:409 | `rest_xml_node_find` returns a node of the tag exactly when the search finds one, NULL otherwise |
| `Xml.FindPrefersChild` | rtm-glib/rtm-glib.c:409 | a direct child with the tag is found before anything deeper, and the first such child in document order |
| `Lists.RtmList.constructor` | rtm-glib/rtm-list.c:151-156 | a new list has no id, no name and no tasks |
| `Lists.RtmList.SetId` | rtm-glib/rtm-list.c:196-204 | NULL is refused and nothing changes; otherwise the id is stored |
| `Lists.RtmList.SetName` | rtm-glib/rtm-list.c:231-239 | NULL is refused and nothing changes; otherwise the name is stored |
| `Lists.RtmList.LoadData` | rtm-glib/rtm-list.c:249-256 | a NULL node changes nothing; otherwise `id` and `name` become the node's attributes, NULL when absent |
| `Lists.RtmList.ToString` | rtm-glib/rtm-list.c:266-288 | the header with the list's id and name, followed by the rendering of every task in order |
| `Lists.RendersOf` | rtm-glib/rtm-list.c:282-285 | the k-th rendering is the k-th task's `to_string` |
| `Lists.HeaderShowsFields` | rtm-glib/rtm-list.c:275-280 | the header shows the list's id and name, "NULL" when absent |
| `Lists.TextShowsRenders` | rtm-glib/rtm-list.c:282-285 | every task's rendering appears in the text |
| `Lists.RenderShowsTasks` | rtm-glib/rtm-list.c:266-288 | the list's text shows its id, its name and every task's rendering |
| `Lists.RtmList.GetTasks` | rtm-glib/rtm-list.c:299-305 | a new sequence holding the same tasks in the same order; changing it cannot change the list |
| `Lists.IdsOf` | rtm-glib/rtm-list.c:325-331 | the id of each contained task, position by position |
| `Lists.Lookup` | rtm-glib/rtm-list.c:316-333 | the position of the first id equal to the key; none for a NULL key or when no id equals it |
| `Lists.RtmList.FindTask` | rtm-glib/rtm-list.c:316-333 | the first contained task whose id equals the argument, or NULL when there is none or the argument is NULL; nothing changes |
| `Lists.RtmList.AddTask` | rtm-glib/rtm-list.c:346-371 | a task whose id is already present is refused with RTM_TASK_ALREADY_EXISTS and nothing changes; otherwise it is appended and given the list's id, which a NULL list id leaves as it was; a task with a NULL id is always accepted; distinct ids stay distinct |
| `Lists.AddKeepsDistinct` | rtm-glib/rtm-list.c:355-370 | appending an id that is not present keeps the ids distinct |
| `Lists.FindAfterAdd` | rtm-glib/rtm-list.c:355-370 | a task just added is found at the end |
| `Lists.RtmList.RemoveTask` | rtm-glib/rtm-list.c:383-405 | NULL is refused; an absent id gives RTM_TASK_NOT_FOUND and nothing changes; otherwise exactly the found task is removed and the others keep their order; distinct ids stay distinct |
| `Lists.RemoveKeepsDistinct` | rtm-glib/rtm-list.c:403 | removing one position keeps the ids distinct |
| `Lists.FindAfterRemove` | rtm-glib/rtm-list.c:403 | with distinct ids, a removed id is no longer found |
| `Lists.RemoveFirst` | rtm-glib/rtm-list.c:403 | `g_list_remove` removes one occurrence when present and none otherwise |
| `Lists.RemoveFirstAt` | rtm-glib/rtm-list.c:403 | it removes the first occurrence, keeping the rest in order |
| `Tasks.RtmTask.constructor` | rtm-glib/rtm-task.c:207-223 | every field of a new task is NULL |
| `Tasks.RtmTask.SetId` | rtm-glib/rtm-task.c:250-258 | NULL is refused and nothing changes; otherwise the id is stored |
| `Tasks.RtmTask.SetTaskseriesId` | rtm-glib/rtm-task.c:285-293 | NULL is refused and nothing changes; otherwise the taskseries id is stored |
| `Tasks.RtmTask.SetListId` | rtm-glib/rtm-task.c:320-328 | NULL is refused and nothing changes; otherwise the list id is stored |
| `Tasks.RtmTask.SetName` | rtm-glib/rtm-task.c:355-363 | NULL is refused and nothing changes; otherwise the name is stored |
| `Tasks.RtmTask.SetPriority` | rtm-glib/rtm-task.c:391-404 | accepted exactly when the value is "N", "1", "2" or "3", and stored then; anything else, NULL included, changes nothing |
| `Tasks.RtmTask.LoadData` | rtm-glib/rtm-task.c:414-431 | the fields become `Loaded` of the old fields, the node and the list id |
| `Tasks.LoadSample` | tests/check-rtm-task.c:82-110 | the test's taskseries loads as id 123456, taskseries 987654, list 102030, name Test, priority 2 |
| `Tasks.LoadIdempotent` | rtm-glib/rtm-task.c:414-431 | loading the same node twice is loading it once |
| `Tasks.LoadRefused` | rtm-glib/rtm-task.c:417-419 | a NULL node or list id leaves every field as it was |
| `Tasks.LoadForgetsPrevious` | rtm-glib/rtm-task.c:423-430 | a successful load overwrites every field, so the result does not depend on the old fields, and the list id is the argument |
| `Tasks.LoadBypassesPriorityCheck` | rtm-glib/rtm-task.c:428 | the priority is stored verbatim, so a value `set_priority` refuses can be loaded |
| `Tasks.RenderShowsFields` | rtm-glib/rtm-task.c:441-457 | the text shows each of the five fields on its own line, "NULL" when absent |
| `Tasks.RenderInjective` | rtm-glib/rtm-task.c:441-457 | for values without line breaks and other than "NULL", the text determines the task |
| `Locations.RtmLocation.constructor` | rtm-glib/rtm-location.c:246-262 | every string field of a new location is NULL and it is not viewable |
| `Locations.RtmLocation.SetId` | rtm-glib/rtm-location.c:289-297 | NULL is refused and nothing changes; otherwise the id is stored |
| `Locations.RtmLocation.SetName` | rtm-glib/rtm-location.c:324-332 | NULL is refused and nothing changes; otherwise the name is stored |
| `Locations.RtmLocation.SetLongitude` | rtm-glib/rtm-location.c:359-367 | NULL is refused and nothing changes; otherwise the longitude is stored |
| `Locations.RtmLocation.SetLatitude` | rtm-glib/rtm-location.c:394-402 | NULL is refused and nothing changes; otherwise the latitude is stored |
| `Locations.RtmLocation.SetZoom` | rtm-glib/rtm-location.c:429-437 | NULL is refused and nothing changes; otherwise the zoom is stored |
| `Locations.RtmLocation.SetAddress` | rtm-glib/rtm-location.c:464-472 | NULL is refused and nothing changes; otherwise the address is stored |
| `Locations.RtmLocation.SetViewable` | rtm-glib/rtm-location.c:499-506 | always succeeds and stores the flag |
| `Locations.RtmLocation.LoadData` | rtm-glib/rtm-location.c:515-530 | the fields become `Loaded` of the old fields and the node |
| `Locations.LoadSample` | tests/check-rtm-location.c:98-131 | the test's node loads as 987654321, Berlin, 13.411508, 52.524008, 9, "Berlin, Germany", viewable |
| `Locations.ViewableDecoding` | rtm-glib/rtm-location.c:529 | viewable exactly when the attribute is exactly "1"; not viewable when it is absent |
| `Locations.LoadForgetsMissing` | rtm-glib/rtm-location.c:523-528 | a missing attribute sets its field to NULL |
| `Locations.RenderShowsFields` | rtm-glib/rtm-location.c:540-560 | the text shows every field, "NULL" for absent strings and "TRUE"/"FALSE" for viewable |
| `Locations.RenderInjective` | rtm-glib/rtm-location.c:540-560 | for values without line breaks and other than "NULL", the text determines the fields and the truth of viewable |
| `TimeZones.RtmTimeZone.constructor` | rtm-glib/rtm-time-zone.c:202-218 | every string field of a new time zone is NULL and dst is false |
| `TimeZones.RtmTimeZone.SetId` | rtm-glib/rtm-time-zone.c:245-253 | NULL is refused and nothing changes; otherwise the id is stored |
| `TimeZones.RtmTimeZone.SetName` | rtm-glib/rtm-time-zone.c:280-288 | NULL is refused and nothing changes; otherwise the name is stored |
| `TimeZones.RtmTimeZone.SetDst` | rtm-glib/rtm-time-zone.c:315-322 | always succeeds and stores the flag |
| `TimeZones.RtmTimeZone.SetOffset` | rtm-glib/rtm-time-zone.c:349-357 | NULL is refused and nothing changes; otherwise the offset is stored |
| `TimeZones.RtmTimeZone.SetCurrentOffset` | rtm-glib/rtm-time-zone.c:384-392 | NULL is refused and nothing changes; otherwise the current offset is stored |
| `TimeZones.RtmTimeZone.LoadData` | rtm-glib/rtm-time-zone.c:401-412 | the fields become `Loaded` of the old fields and the node |
| `TimeZones.LoadSample` | tests/check-rtm-time-zone.c:82-110 | the test's node loads as 217, Asia/Hovd, dst, 28800, 25200 |
| `TimeZones.DstDecoding` | rtm-glib/rtm-time-zone.c:409 | dst exactly when the attribute is exactly "1"; false when it is absent |
| `TimeZones.LoadForgetsMissing` | rtm-glib/rtm-time-zone.c:407-411 | a missing attribute sets its field to NULL |
| `TimeZones.RenderShowsFields` | rtm-glib/rtm-time-zone.c:422-440 | the text shows every field, "NULL" for absent strings and "TRUE"/"FALSE" for daylight saving |
| `TimeZones.RenderInjective` | rtm-glib/rtm-time-zone.c:422-440 | for values without line breaks and other than "NULL", the text determines the fields and the truth of dst |
| `Contacts.Kept` | rtm-glib/rtm-contact.c:221-230 | a NULL-refusing assignment keeps the old value on NULL and takes the new one otherwise |
| `Contacts.RtmContact.constructor` | rtm-glib/rtm-contact.c:173-194 | a new contact has id, username and fullname all NULL |
| `Contacts.RtmContact.SetProperty` | rtm-glib/rtm-contact.c:78-110 | the named property is replaced and the others stay |
| `Contacts.RtmContact.SetId` | rtm-glib/rtm-contact.c:221-230 | NULL is refused and nothing changes; otherwise the id is replaced through `set_property` |
| `Contacts.RtmContact.SetUsername` | rtm-glib/rtm-contact.c:257-266 | NULL is refused and nothing changes; otherwise the username is replaced through `set_property` |
| `Contacts.RtmContact.SetFullname` | rtm-glib/rtm-contact.c:293-302 | NULL is refused and nothing changes; otherwise the fullname is replaced through `set_property` |
| `Contacts.RtmContact.LoadData` | rtm-glib/rtm-contact.c:312-321 | the fields become `Loaded` of the old fields and the node, by way of the three setters |
| `Contacts.LoadSample` | tests/check-rtm-contact.c:66-92 | the test's contact loads as exactly 123456, username, fullname |
| `Contacts.LoadKeepsMissing` | rtm-glib/rtm-contact.c:312-321 | an attribute missing from the node leaves the field's previous value |
| `Contacts.LoadNeverClears` | rtm-glib/rtm-contact.c:312-321 | a field that holds a value still holds one after any load |
| `Contacts.RenderShowsFields` | rtm-glib/rtm-contact.c:331-345 | the text shows the three fields, "NULL" when absent |
| `Contacts.RenderInjective` | rtm-glib/rtm-contact.c:331-345 | for values without line breaks and other than "NULL", the text determines the contact |
| `Util.StringOrNull` | rtm-glib/rtm-util.c:37-45 | the string itself when present, the literal "NULL" otherwise |
| `Util.StringOrNullConflatesNull` | rtm-glib/rtm-util.c:37-45 | a NULL field and the string "NULL" print alike |
| `Util.StringOrNullInjective` | rtm-glib/rtm-util.c:37-45 | apart from the string "NULL", distinct values print differently |
| `Util.BooleanToString` | rtm-glib/rtm-util.c:55-63 | "TRUE" exactly for non-zero, "FALSE" exactly for zero |
| `Util.FlagOf` | rtm-glib/rtm-location.c:529 | a boolean attribute is 1 exactly when it reads "1", 0 otherwise (absent included) |
| `Util.TimeValDup` | rtm-glib/rtm-util.c:73-83 | NULL gives NULL; otherwise a value with the same seconds and microseconds |
| `Util.TimeValToString` | rtm-glib/rtm-util.c:94-102 | NULL gives "NULL"; otherwise the ISO 8601 text of the value |
| `Util.Fields` | rtm-glib/rtm-task.c:446-456 | one "  Name: value" line per field, in order |
| `Util.FieldsInjective` | rtm-glib/rtm-task.c:446-456 | with values free of line breaks, the joined lines determine the values |
| `Util.FrameInjective` | rtm-glib/rtm-task.c:446-456 | the framed text, too, determines the values |
| `Util.FrameShowsLine` | rtm-glib/rtm-task.c:446-456 | every field line appears in the framed text |
| `Util.FrameEnds` | rtm-glib/rtm-task.c:446-456 | the text opens with "Title: [" and a line break and closes with "]" and a line break |

## Left out

- MD5 itself: `g_compute_checksum_for_string` is the client's `checksum` function, and only the string fed to it is modelled.
- HTTP and XML parsing: librest's proxy, call and parser are the per-call `send` function.
- A reply that fails to parse: C meets a NULL root at a `g_assert` in `check_response`. The model has no such reply.
- `rest_xml_node_find`: librest's hash table enumerates the tags in hash order, not document order. The model searches them in document order, so for a reply with the same tag under two different parents, the one found can differ.
- Client.RtmGlib.TasksDelete: the model requires the task's ids to be present. The C passes a NULL id to librest unchecked, and what librest does with it is not modelled.
- Client.RtmGlib.TasksSetName, Client.RtmGlib.ListsDelete, Client.RtmGlib.ListsSetName: the same precondition on the task's or list's ids. The C passes a NULL id to librest unchecked; what librest does with it is not modelled.
- Client.RtmGlib.TasksGetList: like the other endpoints, takes the NULL argument checks and `auth_token != NULL` as preconditions. C logs a critical and returns NULL instead.
- Client.RtmGlib.constructor: the API key and the shared secret are fixed at construction. The GObject properties that would let them change later are not modelled.
- `caculate_md5` starts from the secret's own pointer and frees or leaks the intermediate strings. Memory is not modelled.
- GObject plumbing is not modelled: `get_property`, `set_property` (except the contact's, which the setters use), `class_init`, `finalize`, `dispose`, type registration and reference counts.
  - Also out: the switch fall-throughs in the location and time-zone `get_property`, and the duplicated `PROP_SHARED_SECRET` at rtm-glib/rtm-glib.c:259-261.
- The getters are plain field reads and are not separate members; the setters' contracts state what a getter returns afterwards.
- `g_debug` logging, and the error accessors of rtm-glib/rtm-error.c, are not modelled.
- `g_time_val_to_iso8601` is the `iso8601` parameter of `Util.TimeValToString`; only its NULL branch is the library's own.
- Fields and operations that only have declarations in the headers: the deleted, locked, archived, position, smart, sort order and filter fields of a list; a task's url; the tag, archive, default-list and location endpoints; and the tag error codes, which no modelled code raises.
- tests/check-rtm-list.c:116-153 asserts list fields that `rtm_list_load_data` does not read. The model follows the `.c`.
- The contact load test exists in tests/check-rtm-contact.c but is not added to its suite. `Contacts.LoadSample` states what it checks.
- examples/rtm-glib-example.c is an interactive program with no logic of its own, so it is not modelled.
- The record `to_string` functions are single concatenations. The model gives them as functions without contracts of their own; the `RenderShowsFields` and `RenderInjective` lemmas state what the text holds.

## Findings

| source | as written | input that shows it | evidently intended | confidence | as-written member | corrected member |
|---|---|---|---|---|---|---|
| rtm-glib/rtm-glib.c:1247-1250 | the guard of `rtm_glib_lists_set_name` is "name differs from Inbox OR name differs from Sent", which every name passes | renaming to "Inbox": it differs from "Sent", so the guard passes and the call goes out | refuse "Inbox" and "Sent", as the comment at rtm-glib/rtm-glib.c:1234 says | high (the guard is a tautology), not executed | `Client.ListsSetNameGuardAsWritten` (`Client.ListsSetNameGuardAsWrittenAcceptsAll`) | `Client.ListsSetNameGuard` |

`Client.RtmGlib.ListsSetName` follows the code: it takes the guard as written, so it sends "Inbox" and "Sent" like any other name. `Client.ListsSetNameGuard` states the documented rule.
