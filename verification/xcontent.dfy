/**
 * Structured documents, abstracted: the untyped values a parsed document holds, the calls
 * a builder receives, and a reader that turns one flat object back into a map.
 */
module XContent {
  import opened JavaInt
  import opened Wrappers

  /** A value of an untyped `Map<String, Object>`: an Integer, a String, null, or anything else. */
  datatype Value = Int(i: Int32) | Str(s: string) | Null | Other

  /** One builder call: `startObject()`, `field(name, value)` or `endObject()`. */
  datatype Event = StartObject | Field(name: string, value: Value) | EndObject

  /** The builder as a sink that records its calls in order. */
  class XContentBuilder {
    var events: seq<Event>

    constructor ()
      ensures events == []
    {
      events := [];
    }

    method StartObject()
      modifies this
      ensures events == old(events) + [Event.StartObject]
    {
      events := events + [Event.StartObject];
    }

    method Field(name: string, value: Value)
      modifies this
      ensures events == old(events) + [Event.Field(name, value)]
    {
      events := events + [Event.Field(name, value)];
    }

    method EndObject()
      modifies this
      ensures events == old(events) + [Event.EndObject]
    {
      events := events + [Event.EndObject];
    }
  }

  /** The `field` calls that emit `fields`, in order. */
  function FieldEvents(fields: seq<(string, Value)>): (es: seq<Event>)
  {
    seq(|fields|, i requires 0 <= i < |fields| => Event.Field(fields[i].0, fields[i].1))
  }

  /** The calls that emit one object holding `fields`. */
  function ObjectEvents(fields: seq<(string, Value)>): seq<Event>
  {
    [Event.StartObject] + FieldEvents(fields) + [Event.EndObject]
  }

  predicate AllFields(es: seq<Event>)
  {
    forall i :: 0 <= i < |es| ==> es[i].Field?
  }

  predicate DistinctNames(es: seq<Event>)
    requires AllFields(es)
  {
    forall i, j :: 0 <= i < j < |es| ==> es[i].name != es[j].name
  }

  /**
   * Reads the fields of a flat object into a map, refusing anything that is not a field
   * and any name given twice.
   */
  function ReadFields(es: seq<Event>): (r: Option<map<string, Value>>)
    ensures r.Some? <==> AllFields(es) && DistinctNames(es)
    ensures r.Some? ==> r.value.Keys == set i | 0 <= i < |es| :: es[i].name
    ensures r.Some? ==> forall i :: 0 <= i < |es| ==> r.value[es[i].name] == es[i].value
  {
    if es == [] then Some(map[])
    else if !es[0].Field? then None
    else match ReadFields(es[1..])
      case None => None
      case Some(rest) =>
        if es[0].name in rest then None else Some(rest[es[0].name := es[0].value])
  }

  /** Reads one flat object: `startObject`, fields, `endObject`. */
  function ReadObject(es: seq<Event>): Option<map<string, Value>>
  {
    if 2 <= |es| && es[0] == Event.StartObject && es[|es| - 1] == Event.EndObject
    then ReadFields(es[1..|es| - 1])
    else None
  }
}
