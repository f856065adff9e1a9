/** The helpers of rtm-util.c, and the framed layout every `to_string` of the
    library shares. */
module Util {
  import opened Wrappers
  import opened GlibStrings

  /** `rtm_util_string_or_null`: the string itself, or the text "NULL". */
  function StringOrNull(s: Option<string>): (r: string)
    ensures s.Some? ==> r == s.value
    ensures s.None? ==> r == "NULL"
  {
    match s
    case Some(v) => v
    case None => "NULL"
  }

  /** The text "NULL" cannot be told apart from a missing string. */
  lemma StringOrNullConflatesNull()
    ensures StringOrNull(Some("NULL")) == StringOrNull(None)
    ensures Some("NULL") != None
  {
  }

  /** `rtm_util_gboolean_to_string`: a `gboolean` is an int and every non-zero
      value is true. */
  function BooleanToString(b: int): (r: string)
    ensures r == "TRUE" <==> b != 0
    ensures r == "FALSE" <==> b == 0
  {
    if b != 0 then "TRUE" else "FALSE"
  }

  /** How a `load_data` decodes a boolean attribute:
      `g_strcmp0 (value, "1") == 0`, stored as a `gboolean`. */
  function FlagOf(value: Option<string>): (r: int)
    ensures r == 1 <==> value == Some("1")
    ensures r == 0 <==> value != Some("1")
  {
    if StrCmp0(value, Some("1")) == 0 then 1 else 0
  }

  /** A `GTimeVal`: seconds and microseconds. */
  datatype TimeVal = TimeVal(sec: int, usec: int)

  /** `rtm_util_g_time_val_dup`: NULL for NULL, otherwise a fresh copy holding
      the same seconds and microseconds. */
  function TimeValDup(t: Option<TimeVal>): (r: Option<TimeVal>)
    ensures r.None? <==> t.None?
    ensures r.Some? ==> r.value.sec == t.value.sec && r.value.usec == t.value.usec
  {
    match t
    case None => None
    case Some(v) => Some(TimeVal(v.sec, v.usec))
  }

  /** `rtm_util_g_time_val_to_string`; `iso8601` stands for GLib's
      `g_time_val_to_iso8601`, which is not part of this model. */
  function TimeValToString(t: Option<TimeVal>, iso8601: TimeVal -> string): (r: string)
    ensures t.None? ==> r == "NULL"
    ensures t.Some? ==> r == iso8601(t.value)
  {
    if t.None? then "NULL" else iso8601(t.value)
  }

  /** One field line of a `to_string`: two spaces, the field name, ": ", the value. */
  function Line(field: string, value: string): string
  {
    "  " + field + ": " + value + "\n"
  }

  /** The concatenation of `lines`. */
  function Join(lines: seq<string>): string
  {
    if lines == [] then "" else lines[0] + Join(lines[1..])
  }

  /** Appending one line to the concatenation. */
  lemma {:induction false} JoinAppend(lines: seq<string>, last: string)
    ensures Join(lines + [last]) == Join(lines) + last
  {
    if lines != [] {
      assert (lines + [last])[1..] == lines[1..] + [last];
      JoinAppend(lines[1..], last);
    } else {
      assert [last][1..] == [];
    }
  }

  /** The layout of every `to_string`: "<Title>: [", the field lines, "]". */
  function Frame(title: string, lines: seq<string>): string
  {
    title + ": [\n" + Join(lines) + "]\n"
  }

  /** The field lines of a record: one `Line` per field name and value. */
  function Fields(names: seq<string>, values: seq<string>): (r: seq<string>)
    requires |names| == |values|
    ensures |r| == |names|
    ensures forall k | 0 <= k < |r| :: r[k] == Line(names[k], values[k])
  {
    if names == [] then [] else [Line(names[0], values[0])] + Fields(names[1..], values[1..])
  }

  /** No line break inside `s`. */
  predicate OneLine(s: string)
  {
    forall i | 0 <= i < |s| :: s[i] != '\n'
  }

  /** The characters of `a + "\n" + b` up to its first line break. */
  lemma NewlineAfter(a: string, b: string)
    ensures (a + "\n" + b)[|a|] == '\n'
    ensures forall i | 0 <= i < |a| :: (a + "\n" + b)[i] == a[i]
  {
  }

  /** Splitting at the first line break is unambiguous. */
  lemma SplitAtNewline(a: string, b: string, c: string, e: string)
    requires OneLine(a) && OneLine(c)
    requires a + "\n" + b == c + "\n" + e
    ensures a == c && b == e
  {
    var s := a + "\n" + b;
    NewlineAfter(a, b);
    NewlineAfter(c, e);
    if |a| < |c| {
      assert false;
    } else if |c| < |a| {
      assert false;
    } else {
      assert a == s[..|a|] == c;
      assert b == s[|a| + 1..] == e;
    }
  }

  /** The field lines of one-line values can be read back: equal renderings
      under the same field names come from equal values. */
  lemma {:induction false} FieldsInjective(names: seq<string>, v1: seq<string>, v2: seq<string>)
    requires |names| == |v1| == |v2|
    requires forall k | 0 <= k < |v1| :: OneLine(v1[k])
    requires forall k | 0 <= k < |v2| :: OneLine(v2[k])
    requires Join(Fields(names, v1)) == Join(Fields(names, v2))
    ensures v1 == v2
  {
    if names != [] {
      var p := "  " + names[0] + ": ";
      var t1, t2 := Join(Fields(names[1..], v1[1..])), Join(Fields(names[1..], v2[1..]));
      assert Join(Fields(names, v1)) == p + (v1[0] + "\n" + t1);
      assert Join(Fields(names, v2)) == p + (v2[0] + "\n" + t2);
      assert v1[0] + "\n" + t1 == v2[0] + "\n" + t2 by {
        var s1, s2 := p + (v1[0] + "\n" + t1), p + (v2[0] + "\n" + t2);
        assert s1[|p|..] == v1[0] + "\n" + t1;
        assert s2[|p|..] == v2[0] + "\n" + t2;
      }
      SplitAtNewline(v1[0], t1, v2[0], t2);
      FieldsInjective(names[1..], v1[1..], v2[1..]);
      assert v1 == [v1[0]] + v1[1..] && v2 == [v2[0]] + v2[1..];
    }
  }

  /** A framed record rendering can be read back, value by value. */
  lemma FrameInjective(title: string, names: seq<string>, v1: seq<string>, v2: seq<string>)
    requires |names| == |v1| == |v2|
    requires forall k | 0 <= k < |v1| :: OneLine(v1[k])
    requires forall k | 0 <= k < |v2| :: OneLine(v2[k])
    requires Frame(title, Fields(names, v1)) == Frame(title, Fields(names, v2))
    ensures v1 == v2
  {
    var h := title + ": [\n";
    var j1, j2 := Join(Fields(names, v1)), Join(Fields(names, v2));
    var s1, s2 := Frame(title, Fields(names, v1)), Frame(title, Fields(names, v2));
    assert s1 == h + j1 + "]\n" && s2 == h + j2 + "]\n";
    assert j1 == s1[|h|..|s1| - 2];
    assert j2 == s2[|h|..|s2| - 2];
    FieldsInjective(names, v1, v2);
  }

  /** Away from the text "NULL", `StringOrNull` loses nothing. */
  lemma StringOrNullInjective(a: Option<string>, b: Option<string>)
    requires a != Some("NULL") && b != Some("NULL")
    requires StringOrNull(a) == StringOrNull(b)
    ensures a == b
  {
  }

  /** `part` occurs in `s` starting at index `i`. */
  predicate OccursAt(s: string, part: string, i: int)
  {
    0 <= i <= |s| - |part| && s[i..i + |part|] == part
  }

  /** `part` occurs somewhere in `s`. */
  predicate Contains(s: string, part: string)
  {
    exists i | 0 <= i <= |s| :: OccursAt(s, part, i)
  }

  /** A string occurring in the middle of a concatenation occurs in it. */
  lemma ContainsMiddle(a: string, part: string, b: string)
    ensures Contains(a + part + b, part)
  {
    var s := a + part + b;
    assert s[|a|..|a| + |part|] == part;
    assert OccursAt(s, part, |a|);
  }

  /** Every line of `lines` ends up in their concatenation. */
  lemma {:induction false} JoinContains(lines: seq<string>, k: nat)
    requires k < |lines|
    ensures exists pre, post :: Join(lines) == pre + lines[k] + post
  {
    if k == 0 {
      assert Join(lines) == "" + lines[0] + Join(lines[1..]);
    } else {
      JoinContains(lines[1..], k - 1);
      var pre, post :| Join(lines[1..]) == pre + lines[1..][k - 1] + post;
      assert Join(lines) == (lines[0] + pre) + lines[k] + post;
    }
  }

  /** A framed rendering shows each of its field lines. */
  lemma FrameShowsLine(title: string, lines: seq<string>, k: nat)
    requires k < |lines|
    ensures Contains(Frame(title, lines), lines[k])
  {
    JoinContains(lines, k);
    var pre, post :| Join(lines) == pre + lines[k] + post;
    assert Frame(title, lines) == (title + ": [\n" + pre) + lines[k] + (post + "]\n");
    ContainsMiddle(title + ": [\n" + pre, lines[k], post + "]\n");
  }

  /** A framed rendering opens with its title and closes with "]". */
  lemma FrameEnds(title: string, lines: seq<string>)
    ensures Frame(title, lines)[..|title| + 4] == title + ": [\n"
    ensures |Frame(title, lines)| >= |title| + 6
    ensures Frame(title, lines)[|Frame(title, lines)| - 2..] == "]\n"
  {
  }
}
