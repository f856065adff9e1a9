/** `RtmLocation` (rtm-location.c): a saved place, its coordinates kept as
    the strings the service sends, and whether it is shared. */
module Locations {
  import opened Wrappers
  import opened Xml
  import opened Util

  /** The seven private fields; `viewable` is a `gboolean`. */
  datatype LocationData = LocationData(
    id: Option<string>,
    name: Option<string>,
    longitude: Option<string>,
    latitude: Option<string>,
    zoom: Option<string>,
    address: Option<string>,
    viewable: int)

  /** A fresh location: GObject zero-fills the private structure. */
  const Blank := LocationData(None, None, None, None, None, None, 0)

  /** The fields after `rtm_location_load_data (location, node)`: a NULL node
      is refused; otherwise every string field is the attribute of the same
      name (NULL when absent) and `viewable` is whether that attribute is
      exactly "1". */
  function Loaded(d: LocationData, node: Option<Node>): LocationData
  {
    match node
    case None => d
    case Some(n) =>
      LocationData(Attr(n, "id"), Attr(n, "name"), Attr(n, "longitude"), Attr(n, "latitude"),
                   Attr(n, "zoom"), Attr(n, "address"), FlagOf(Attr(n, "viewable")))
  }

  const FieldNames := ["ID", "Name", "Longitude", "Latitude", "Zoom", "Address", "Viewable"]

  /** The values `rtm_location_to_string` prints, in order. */
  function Shown(d: LocationData): seq<string>
  {
    [StringOrNull(d.id), StringOrNull(d.name), StringOrNull(d.longitude), StringOrNull(d.latitude),
     StringOrNull(d.zoom), StringOrNull(d.address), BooleanToString(d.viewable)]
  }

  /** `rtm_location_to_string`. */
  function Render(d: LocationData): string
  {
    Frame("RtmLocation", Fields(FieldNames, Shown(d)))
  }

  /** A field value that `to_string` reproduces unambiguously. */
  predicate Printable(s: Option<string>)
  {
    s != Some("NULL") && OneLine(StringOrNull(s))
  }

  class RtmLocation {
    var id: Option<string>
    var name: Option<string>
    var longitude: Option<string>
    var latitude: Option<string>
    var zoom: Option<string>
    var address: Option<string>
    var viewable: int

    function Data(): LocationData
      reads this
    {
      LocationData(id, name, longitude, latitude, zoom, address, viewable)
    }

    /** `rtm_location_new`: every string NULL, not viewable. */
    constructor ()
      ensures Data() == Blank
    {
      id, name, longitude, latitude, zoom, address, viewable := None, None, None, None, None, None, 0;
    }

    /** `rtm_location_set_id`: refuses NULL, otherwise stores the value. */
    method SetId(v: Option<string>) returns (ok: bool)
      modifies this`id
      ensures ok <==> v.Some?
      ensures id == if ok then v else old(id)
    {
      ok := v.Some?;
      if ok { id := v; }
    }

    /** `rtm_location_set_name`: refuses NULL, otherwise stores the value. */
    method SetName(v: Option<string>) returns (ok: bool)
      modifies this`name
      ensures ok <==> v.Some?
      ensures name == if ok then v else old(name)
    {
      ok := v.Some?;
      if ok { name := v; }
    }

    /** `rtm_location_set_longitude`: refuses NULL, otherwise stores the value. */
    method SetLongitude(v: Option<string>) returns (ok: bool)
      modifies this`longitude
      ensures ok <==> v.Some?
      ensures longitude == if ok then v else old(longitude)
    {
      ok := v.Some?;
      if ok { longitude := v; }
    }

    /** `rtm_location_set_latitude`: refuses NULL, otherwise stores the value. */
    method SetLatitude(v: Option<string>) returns (ok: bool)
      modifies this`latitude
      ensures ok <==> v.Some?
      ensures latitude == if ok then v else old(latitude)
    {
      ok := v.Some?;
      if ok { latitude := v; }
    }

    /** `rtm_location_set_zoom`: refuses NULL, otherwise stores the value. */
    method SetZoom(v: Option<string>) returns (ok: bool)
      modifies this`zoom
      ensures ok <==> v.Some?
      ensures zoom == if ok then v else old(zoom)
    {
      ok := v.Some?;
      if ok { zoom := v; }
    }

    /** `rtm_location_set_address`: refuses NULL, otherwise stores the value. */
    method SetAddress(v: Option<string>) returns (ok: bool)
      modifies this`address
      ensures ok <==> v.Some?
      ensures address == if ok then v else old(address)
    {
      ok := v.Some?;
      if ok { address := v; }
    }

    /** `rtm_location_set_viewable`: always succeeds and stores the flag as given. */
    method SetViewable(v: int) returns (ok: bool)
      modifies this`viewable
      ensures ok && viewable == v
    {
      viewable := v;
      ok := true;
    }

    /** `rtm_location_load_data`. */
    method LoadData(node: Option<Node>)
      modifies this
      ensures Data() == Loaded(old(Data()), node)
    {
      if node.None? {
        return;
      }
      var n := node.value;
      id := Attr(n, "id");
      name := Attr(n, "name");
      longitude := Attr(n, "longitude");
      latitude := Attr(n, "latitude");
      zoom := Attr(n, "zoom");
      address := Attr(n, "address");
      viewable := FlagOf(Attr(n, "viewable"));
    }

    /** `rtm_location_to_string`. */
    function ToString(): string
      reads this
    {
      Render(Data())
    }
  }

  /** The location of the library's own load test. */
  function SampleLocation(): Node
  {
    Node("location",
      map["id" := "987654321", "name" := "Berlin", "longitude" := "13.411508", "latitude" := "52.524008",
          "zoom" := "9", "address" := "Berlin, Germany", "viewable" := "1"],
      None, [])
  }

  /** Loading the sample yields exactly the test's values, viewable true. */
  lemma LoadSample(d: LocationData)
    ensures Loaded(d, Some(SampleLocation()))
         == LocationData(Some("987654321"), Some("Berlin"), Some("13.411508"), Some("52.524008"),
                         Some("9"), Some("Berlin, Germany"), 1)
    ensures Loaded(d, Some(SampleLocation())).viewable != 0
  {
  }

  /** `viewable` is decoded as "the attribute is exactly 1": absent, "0",
      "true" or anything else reads as false. */
  lemma ViewableDecoding(d: LocationData, n: Node)
    ensures Loaded(d, Some(n)).viewable != 0 <==> "viewable" in n.attrs && n.attrs["viewable"] == "1"
    ensures "viewable" !in n.attrs ==> Loaded(d, Some(n)).viewable == 0
  {
  }

  /** An attribute missing from the node wipes the field it feeds: the old
      value does not survive a load. */
  lemma LoadForgetsMissing(d: LocationData, n: Node)
    requires "name" !in n.attrs && "address" !in n.attrs
    ensures Loaded(d, Some(n)).name.None? && Loaded(d, Some(n)).address.None?
  {
  }

  /** The rendering shows every field, strings as "NULL" when absent and the
      flag as TRUE or FALSE. */
  lemma RenderShowsFields(d: LocationData)
    ensures Contains(Render(d), Line("ID", StringOrNull(d.id)))
    ensures Contains(Render(d), Line("Name", StringOrNull(d.name)))
    ensures Contains(Render(d), Line("Longitude", StringOrNull(d.longitude)))
    ensures Contains(Render(d), Line("Latitude", StringOrNull(d.latitude)))
    ensures Contains(Render(d), Line("Zoom", StringOrNull(d.zoom)))
    ensures Contains(Render(d), Line("Address", StringOrNull(d.address)))
    ensures Contains(Render(d), Line("Viewable", if d.viewable != 0 then "TRUE" else "FALSE"))
  {
    var lines := Fields(FieldNames, Shown(d));
    FrameShowsLine("RtmLocation", lines, 0);
    FrameShowsLine("RtmLocation", lines, 1);
    FrameShowsLine("RtmLocation", lines, 2);
    FrameShowsLine("RtmLocation", lines, 3);
    FrameShowsLine("RtmLocation", lines, 4);
    FrameShowsLine("RtmLocation", lines, 5);
    FrameShowsLine("RtmLocation", lines, 6);
  }

  /** The rendering can be read back: printable locations that render alike
      agree on every string and on whether they are viewable. */
  lemma RenderInjective(d1: LocationData, d2: LocationData)
    requires Printable(d1.id) && Printable(d1.name) && Printable(d1.longitude)
    requires Printable(d1.latitude) && Printable(d1.zoom) && Printable(d1.address)
    requires Printable(d2.id) && Printable(d2.name) && Printable(d2.longitude)
    requires Printable(d2.latitude) && Printable(d2.zoom) && Printable(d2.address)
    requires Render(d1) == Render(d2)
    ensures d1.id == d2.id && d1.name == d2.name && d1.longitude == d2.longitude
    ensures d1.latitude == d2.latitude && d1.zoom == d2.zoom && d1.address == d2.address
    ensures d1.viewable != 0 <==> d2.viewable != 0
  {
    var s1, s2 := Shown(d1), Shown(d2);
    assert OneLine(s1[6]) && OneLine(s2[6]);
    FrameInjective("RtmLocation", FieldNames, s1, s2);
    assert s1[0] == s2[0] && s1[1] == s2[1] && s1[2] == s2[2] && s1[3] == s2[3];
    assert s1[4] == s2[4] && s1[5] == s2[5] && s1[6] == s2[6];
    StringOrNullInjective(d1.id, d2.id);
    StringOrNullInjective(d1.name, d2.name);
    StringOrNullInjective(d1.longitude, d2.longitude);
    StringOrNullInjective(d1.latitude, d2.latitude);
    StringOrNullInjective(d1.zoom, d2.zoom);
    StringOrNullInjective(d1.address, d2.address);
  }
}
