/** `RtmTimeZone` (rtm-time-zone.c): a time zone as the service describes
    it, offsets kept as the strings it sends. */
module TimeZones {
  import opened Wrappers
  import opened Xml
  import opened Util

  /** The five private fields; `dst` is a `gboolean`. */
  datatype TimeZoneData = TimeZoneData(
    id: Option<string>,
    name: Option<string>,
    dst: int,
    offset: Option<string>,
    currentOffset: Option<string>)

  /** A fresh time zone: GObject zero-fills the private structure. */
  const Blank := TimeZoneData(None, None, 0, None, None)

  /** The fields after `rtm_time_zone_load_data (time_zone, node)`: a NULL
      node is refused; otherwise the strings are the attributes `id`, `name`,
      `offset` and `current_offset` (NULL when absent) and `dst` is whether
      its attribute is exactly "1". */
  function Loaded(d: TimeZoneData, node: Option<Node>): TimeZoneData
  {
    match node
    case None => d
    case Some(n) =>
      TimeZoneData(Attr(n, "id"), Attr(n, "name"), FlagOf(Attr(n, "dst")),
                   Attr(n, "offset"), Attr(n, "current_offset"))
  }

  const FieldNames := ["ID", "Name", "Daylight Time Saving", "Offset", "Current offset"]

  /** The values `rtm_time_zone_to_string` prints, in order. */
  function Shown(d: TimeZoneData): seq<string>
  {
    [StringOrNull(d.id), StringOrNull(d.name), BooleanToString(d.dst),
     StringOrNull(d.offset), StringOrNull(d.currentOffset)]
  }

  /** `rtm_time_zone_to_string`. */
  function Render(d: TimeZoneData): string
  {
    Frame("RtmTimeZone", Fields(FieldNames, Shown(d)))
  }

  /** A field value that `to_string` reproduces unambiguously. */
  predicate Printable(s: Option<string>)
  {
    s != Some("NULL") && OneLine(StringOrNull(s))
  }

  class RtmTimeZone {
    var id: Option<string>
    var name: Option<string>
    var dst: int
    var offset: Option<string>
    var currentOffset: Option<string>

    function Data(): TimeZoneData
      reads this
    {
      TimeZoneData(id, name, dst, offset, currentOffset)
    }

    /** `rtm_time_zone_new`: every string NULL, no daylight saving. */
    constructor ()
      ensures Data() == Blank
    {
      id, name, dst, offset, currentOffset := None, None, 0, None, None;
    }

    /** `rtm_time_zone_set_id`: refuses NULL, otherwise stores the value. */
    method SetId(v: Option<string>) returns (ok: bool)
      modifies this`id
      ensures ok <==> v.Some?
      ensures id == if ok then v else old(id)
    {
      ok := v.Some?;
      if ok { id := v; }
    }

    /** `rtm_time_zone_set_name`: refuses NULL, otherwise stores the value. */
    method SetName(v: Option<string>) returns (ok: bool)
      modifies this`name
      ensures ok <==> v.Some?
      ensures name == if ok then v else old(name)
    {
      ok := v.Some?;
      if ok { name := v; }
    }

    /** `rtm_time_zone_set_dst`: always succeeds and stores the flag as given. */
    method SetDst(v: int) returns (ok: bool)
      modifies this`dst
      ensures ok && dst == v
    {
      dst := v;
      ok := true;
    }

    /** `rtm_time_zone_set_offset`: refuses NULL, otherwise stores the value. */
    method SetOffset(v: Option<string>) returns (ok: bool)
      modifies this`offset
      ensures ok <==> v.Some?
      ensures offset == if ok then v else old(offset)
    {
      ok := v.Some?;
      if ok { offset := v; }
    }

    /** `rtm_time_zone_set_current_offset`: refuses NULL, otherwise stores the value. */
    method SetCurrentOffset(v: Option<string>) returns (ok: bool)
      modifies this`currentOffset
      ensures ok <==> v.Some?
      ensures currentOffset == if ok then v else old(currentOffset)
    {
      ok := v.Some?;
      if ok { currentOffset := v; }
    }

    /** `rtm_time_zone_load_data`. */
    method LoadData(node: Option<Node>)
      modifies this
      ensures Data() == Loaded(old(Data()), node)
    {
      if node.None? {
        return;
      }
      var n := node.value;
      id := Attr(n, "id");
      name := Attr(n, "name");
      dst := FlagOf(Attr(n, "dst"));
      offset := Attr(n, "offset");
      currentOffset := Attr(n, "current_offset");
    }

    /** `rtm_time_zone_to_string`. */
    function ToString(): string
      reads this
    {
      Render(Data())
    }
  }

  /** The time zone of the library's own load test. */
  function SampleTimeZone(): Node
  {
    Node("timezone",
      map["id" := "217", "name" := "Asia/Hovd", "dst" := "1", "offset" := "28800", "current_offset" := "25200"],
      None, [])
  }

  /** Loading the sample yields exactly the test's values, daylight saving on. */
  lemma LoadSample(d: TimeZoneData)
    ensures Loaded(d, Some(SampleTimeZone()))
         == TimeZoneData(Some("217"), Some("Asia/Hovd"), 1, Some("28800"), Some("25200"))
    ensures Loaded(d, Some(SampleTimeZone())).dst != 0
  {
  }

  /** `dst` is decoded as "the attribute is exactly 1". */
  lemma DstDecoding(d: TimeZoneData, n: Node)
    ensures Loaded(d, Some(n)).dst != 0 <==> "dst" in n.attrs && n.attrs["dst"] == "1"
    ensures "dst" !in n.attrs ==> Loaded(d, Some(n)).dst == 0
  {
  }

  /** An attribute missing from the node wipes the field it feeds. */
  lemma LoadForgetsMissing(d: TimeZoneData, n: Node)
    requires "offset" !in n.attrs
    ensures Loaded(d, Some(n)).offset.None?
  {
  }

  /** The rendering shows every field, strings as "NULL" when absent and
      daylight saving as TRUE or FALSE. */
  lemma RenderShowsFields(d: TimeZoneData)
    ensures Contains(Render(d), Line("ID", StringOrNull(d.id)))
    ensures Contains(Render(d), Line("Name", StringOrNull(d.name)))
    ensures Contains(Render(d), Line("Daylight Time Saving", if d.dst != 0 then "TRUE" else "FALSE"))
    ensures Contains(Render(d), Line("Offset", StringOrNull(d.offset)))
    ensures Contains(Render(d), Line("Current offset", StringOrNull(d.currentOffset)))
  {
    var lines := Fields(FieldNames, Shown(d));
    FrameShowsLine("RtmTimeZone", lines, 0);
    FrameShowsLine("RtmTimeZone", lines, 1);
    FrameShowsLine("RtmTimeZone", lines, 2);
    FrameShowsLine("RtmTimeZone", lines, 3);
    FrameShowsLine("RtmTimeZone", lines, 4);
  }

  /** The rendering can be read back: printable time zones that render alike
      agree on every string and on daylight saving. */
  lemma RenderInjective(d1: TimeZoneData, d2: TimeZoneData)
    requires Printable(d1.id) && Printable(d1.name) && Printable(d1.offset) && Printable(d1.currentOffset)
    requires Printable(d2.id) && Printable(d2.name) && Printable(d2.offset) && Printable(d2.currentOffset)
    requires Render(d1) == Render(d2)
    ensures d1.id == d2.id && d1.name == d2.name
    ensures d1.offset == d2.offset && d1.currentOffset == d2.currentOffset
    ensures d1.dst != 0 <==> d2.dst != 0
  {
    var s1, s2 := Shown(d1), Shown(d2);
    assert OneLine(s1[2]) && OneLine(s2[2]);
    FrameInjective("RtmTimeZone", FieldNames, s1, s2);
    assert s1[0] == s2[0] && s1[1] == s2[1] && s1[2] == s2[2];
    assert s1[3] == s2[3] && s1[4] == s2[4];
    StringOrNullInjective(d1.id, d2.id);
    StringOrNullInjective(d1.name, d2.name);
    StringOrNullInjective(d1.offset, d2.offset);
    StringOrNullInjective(d1.currentOffset, d2.currentOffset);
  }
}
