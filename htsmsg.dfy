/**
 * The already-parsed XML document as the ingester sees it: an htsmsg tree.
 * Every node is an ordered list of named fields; a field holds either a
 * string (character data, an attribute value) or a nested message. The XML
 * parser puts an element's attributes under the field "attrib", its child
 * elements under "tags" and its text under "cdata".
 */
module Htsmsg {
  import opened Common

  datatype Value = Str(text: string) | Map(msg: Msg)
  datatype Field = Field(name: string, value: Value)
  datatype Msg = Msg(fields: seq<Field>)

  /** Index of the first field called `name`, as htsmsg's field lookup finds it. */
  function FindIndex(fields: seq<Field>, name: string): (r: Option<nat>)
    ensures r.Some? ==> r.value < |fields| && fields[r.value].name == name
    ensures r.Some? ==> forall k | 0 <= k < r.value :: fields[k].name != name
    ensures r.None? ==> forall k | 0 <= k < |fields| :: fields[k].name != name
  {
    if fields == [] then None
    else if fields[0].name == name then Some(0)
    else match FindIndex(fields[1..], name)
      case None => None
      case Some(k) => Some(k + 1)
  }

  /** `htsmsg_get_map`: the first field with that name, when it is a map. */
  function GetMap(m: Msg, name: string): Option<Msg>
  {
    match FindIndex(m.fields, name)
    case None => None
    case Some(k) => if m.fields[k].value.Map? then Some(m.fields[k].value.msg) else None
  }

  /** `htsmsg_get_str`: the first field with that name, when it is a string. */
  function GetStr(m: Msg, name: string): Option<string>
  {
    match FindIndex(m.fields, name)
    case None => None
    case Some(k) => if m.fields[k].value.Str? then Some(m.fields[k].value.text) else None
  }

  /** `htsmsg_get_map_by_field`: the field's value, when it is a map. */
  function MapOf(f: Field): Option<Msg>
  {
    if f.value.Map? then Some(f.value.msg) else None
  }

  /** `htsmsg_xml_get_cdata_str`: the text of the first child element called `name`. */
  function CdataOf(tags: Msg, name: string): Option<string>
  {
    match GetMap(tags, name)
    case None => None
    case Some(e) => GetStr(e, "cdata")
  }

  /** `htsmsg_xml_get_attr_str`: the attribute `name` of an element. */
  function AttrOf(e: Msg, name: string): Option<string>
  {
    match GetMap(e, "attrib")
    case None => None
    case Some(a) => GetStr(a, name)
  }

  /** True when a field called `name` holding a map exists (the presence tests of the source). */
  predicate HasMap(m: Msg, name: string)
  {
    GetMap(m, name).Some?
  }
}
