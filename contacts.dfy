/** `RtmContact` (rtm-contact.c): another user of the service. Unlike the
    other records, its setters go through the GObject property machinery and
    its `load_data` goes through its setters. */
module Contacts {
  import opened Wrappers
  import opened Xml
  import opened Util

  /** The three private fields. */
  datatype ContactData = ContactData(id: Option<string>, username: Option<string>, fullname: Option<string>)

  /** `rtm_contact_init`: all three fields NULL. */
  const Blank := ContactData(None, None, None)

  /** The properties `set_property` dispatches on. */
  datatype Property = PropId | PropUsername | PropFullname

  /** What a NULL-refusing setter leaves in a field. */
  function Kept(current: Option<string>, given: Option<string>): (r: Option<string>)
    ensures given.Some? ==> r == given
    ensures given.None? ==> r == current
  {
    if given.Some? then given else current
  }

  /** The fields after `rtm_contact_load_data (contact, node)`: a NULL node is
      refused; otherwise each attribute present replaces its field and a
      missing one keeps the old value, because the setters refuse NULL. */
  function Loaded(d: ContactData, node: Option<Node>): ContactData
  {
    match node
    case None => d
    case Some(n) =>
      ContactData(Kept(d.id, Attr(n, "id")), Kept(d.username, Attr(n, "username")),
                  Kept(d.fullname, Attr(n, "fullname")))
  }

  const FieldNames := ["ID", "Username", "Fullname"]

  /** The values `rtm_contact_to_string` prints, in order. */
  function Shown(d: ContactData): seq<string>
  {
    [StringOrNull(d.id), StringOrNull(d.username), StringOrNull(d.fullname)]
  }

  /** `rtm_contact_to_string`. */
  function Render(d: ContactData): string
  {
    Frame("RtmContact", Fields(FieldNames, Shown(d)))
  }

  class RtmContact {
    var id: Option<string>
    var username: Option<string>
    var fullname: Option<string>

    function Data(): ContactData
      reads this
    {
      ContactData(id, username, fullname)
    }

    /** `rtm_contact_new`: every field NULL. */
    constructor ()
      ensures Data() == Blank
    {
      id, username, fullname := None, None, None;
    }

    /** `set_property`: the named field is replaced by the value, the others
        stay. */
    method SetProperty(prop: Property, value: Option<string>)
      modifies this
      ensures prop == PropId ==> Data() == old(Data()).(id := value)
      ensures prop == PropUsername ==> Data() == old(Data()).(username := value)
      ensures prop == PropFullname ==> Data() == old(Data()).(fullname := value)
    {
      match prop
      case PropId => id := value;
      case PropUsername => username := value;
      case PropFullname => fullname := value;
    }

    /** `rtm_contact_set_id`: refuses NULL, otherwise sets the property. */
    method SetId(v: Option<string>) returns (ok: bool)
      modifies this
      ensures ok <==> v.Some?
      ensures Data() == old(Data()).(id := Kept(old(id), v))
    {
      if v.None? {
        return false;
      }
      SetProperty(PropId, v);
      ok := true;
    }

    /** `rtm_contact_set_username`: refuses NULL, otherwise sets the property. */
    method SetUsername(v: Option<string>) returns (ok: bool)
      modifies this
      ensures ok <==> v.Some?
      ensures Data() == old(Data()).(username := Kept(old(username), v))
    {
      if v.None? {
        return false;
      }
      SetProperty(PropUsername, v);
      ok := true;
    }

    /** `rtm_contact_set_fullname`: refuses NULL, otherwise sets the property. */
    method SetFullname(v: Option<string>) returns (ok: bool)
      modifies this
      ensures ok <==> v.Some?
      ensures Data() == old(Data()).(fullname := Kept(old(fullname), v))
    {
      if v.None? {
        return false;
      }
      SetProperty(PropFullname, v);
      ok := true;
    }

    /** `rtm_contact_load_data`: the three setters in turn, fed the node's
        attributes. */
    method LoadData(node: Option<Node>)
      modifies this
      ensures Data() == Loaded(old(Data()), node)
    {
      if node.None? {
        return;
      }
      var n := node.value;
      var _ := SetId(Attr(n, "id"));
      var _ := SetUsername(Attr(n, "username"));
      var _ := SetFullname(Attr(n, "fullname"));
    }

    /** `rtm_contact_to_string`. */
    function ToString(): string
      reads this
    {
      Render(Data())
    }
  }

  /** The contact of the library's own load test. */
  function SampleContact(): Node
  {
    Node("contact", map["id" := "123456", "username" := "username", "fullname" := "fullname"], None, [])
  }

  /** Loading the sample into a new contact yields exactly its three values. */
  lemma LoadSample()
    ensures Loaded(Blank, Some(SampleContact()))
         == ContactData(Some("123456"), Some("username"), Some("fullname"))
  {
  }

  /** An attribute missing from the node leaves the previous value in place,
      where a location or a time zone would lose it. */
  lemma LoadKeepsMissing(d: ContactData, n: Node)
    ensures "id" !in n.attrs ==> Loaded(d, Some(n)).id == d.id
    ensures "username" !in n.attrs ==> Loaded(d, Some(n)).username == d.username
    ensures "fullname" !in n.attrs ==> Loaded(d, Some(n)).fullname == d.fullname
  {
  }

  /** A contact that has been given a value never loses it to a load. */
  lemma LoadNeverClears(d: ContactData, node: Option<Node>)
    ensures d.id.Some? ==> Loaded(d, node).id.Some?
    ensures d.username.Some? ==> Loaded(d, node).username.Some?
    ensures d.fullname.Some? ==> Loaded(d, node).fullname.Some?
  {
  }

  /** The rendering shows every field, "NULL" when absent. */
  lemma RenderShowsFields(d: ContactData)
    ensures Contains(Render(d), Line("ID", StringOrNull(d.id)))
    ensures Contains(Render(d), Line("Username", StringOrNull(d.username)))
    ensures Contains(Render(d), Line("Fullname", StringOrNull(d.fullname)))
  {
    var lines := Fields(FieldNames, Shown(d));
    FrameShowsLine("RtmContact", lines, 0);
    FrameShowsLine("RtmContact", lines, 1);
    FrameShowsLine("RtmContact", lines, 2);
  }

  /** The rendering can be read back for values free of line breaks and of
      the text "NULL". */
  lemma RenderInjective(d1: ContactData, d2: ContactData)
    requires d1.id != Some("NULL") && d1.username != Some("NULL") && d1.fullname != Some("NULL")
    requires d2.id != Some("NULL") && d2.username != Some("NULL") && d2.fullname != Some("NULL")
    requires forall k | 0 <= k < 3 :: OneLine(Shown(d1)[k]) && OneLine(Shown(d2)[k])
    requires Render(d1) == Render(d2)
    ensures d1 == d2
  {
    var s1, s2 := Shown(d1), Shown(d2);
    FrameInjective("RtmContact", FieldNames, s1, s2);
    assert s1[0] == s2[0] && s1[1] == s2[1] && s1[2] == s2[2];
    StringOrNullInjective(d1.id, d2.id);
    StringOrNullInjective(d1.username, d2.username);
    StringOrNullInjective(d1.fullname, d2.fullname);
  }
}
