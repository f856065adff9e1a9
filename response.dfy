/** `rtm_glib_check_response` (rtm-glib.c): sorting a parsed reply into
    success, a failure reported by the service, or an unknown reply. */
module Response {
  import opened Wrappers
  import opened Errors
  import opened GlibStrings
  import opened Xml

  /** A possibly-NULL string passed to `g_set_error`'s "%s": the C does not
      check it, and glibc's printf prints NULL as "(null)". */
  function Printf(s: Option<string>): (r: string)
    ensures s.Some? ==> r == s.value
    ensures s.None? ==> r == "(null)"
  {
    if s.Some? then s.value else "(null)"
  }

  const UnknownResponse := "Unknown response from Remember The Milk"

  /** A failing `rsp` carries an `err` node to read the code and message
      from; the source follows the pointer without checking. */
  predicate Classifiable(root: Node)
  {
    root.name == "rsp" && Attr(root, "stat") != Some("ok") ==> Find(root, "err").Some?
  }

  /** The reply is a success exactly when its root is `rsp` and its `stat`
      attribute is exactly "ok". A failing `rsp` reports RTM_ERROR_RESPONSE_FAIL
      with "<code>: <msg>" from its `err` node; any other root reports
      RTM_UNKNOWN_ERROR. */
  function CheckResponse(root: Node): (r: Outcome<RtmError>)
    requires Classifiable(root)
    ensures r.Pass? <==> root.name == "rsp" && Attr(root, "stat") == Some("ok")
    ensures r.Fail? && root.name == "rsp" ==>
              var err := Find(root, "err").value;
              r.error == RtmError(ResponseFail, Printf(Attr(err, "code")) + ": " + Printf(Attr(err, "msg")))
    ensures root.name != "rsp" ==> r == Fail(RtmError(UnknownError, UnknownResponse))
  {
    if StrCmp0(Some(root.name), Some("rsp")) == 0 then
      if StrCmp0(Attr(root, "stat"), Some("ok")) != 0 then
        var err := Find(root, "err").value;
        Fail(RtmError(ResponseFail, Printf(Attr(err, "code")) + ": " + Printf(Attr(err, "msg"))))
      else
        Pass
    else
      Fail(RtmError(UnknownError, UnknownResponse))
  }

  /** The service's reply to a bad API key. */
  function InvalidApiKeyReply(): Node
  {
    Node("rsp", map["stat" := "fail"], None,
      [Node("err", map["code" := "101", "msg" := "Invalid API Key"], None, [])])
  }

  /** That reply is reported as "101: Invalid API Key". */
  lemma InvalidApiKeyReported()
    ensures Classifiable(InvalidApiKeyReply())
    ensures CheckResponse(InvalidApiKeyReply()) == Fail(RtmError(ResponseFail, "101: Invalid API Key"))
  {
    var reply := InvalidApiKeyReply();
    FindPrefersChild(reply, "err", 0);
    var err := Find(reply, "err").value;
    assert Attr(err, "code") == Some("101") && Attr(err, "msg") == Some("Invalid API Key");
    assert Attr(reply, "stat") == Some("fail");
    assert "101" + ": " + "Invalid API Key" == "101: Invalid API Key";
  }

  /** The status is compared exactly: "OK" or a missing status is a failure. */
  lemma StatusComparedExactly(children: seq<Node>)
    requires Find(Node("rsp", map["stat" := "OK"], None, children), "err").Some?
    requires Find(Node("rsp", map[], None, children), "err").Some?
    ensures CheckResponse(Node("rsp", map["stat" := "OK"], None, children)).Fail?
    ensures CheckResponse(Node("rsp", map[], None, children)).Fail?
  {
  }
}
