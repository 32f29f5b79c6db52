/**
 * The part of Jackson's `JsonNode` tree that the AI client reads.  The
 * parser itself is a parameter of the client; this module only fixes how
 * the navigation methods behave on each kind of node.
 */
module JsonTree {
  import opened Wrappers

  /** `MissingNode`, `NullNode`, the value nodes and the two container nodes. */
  datatype Json =
    | JMissing
    | JNull
    | JBool(b: bool)
    | JNumber(literal: string)
    | JText(text: string)
    | JArray(items: seq<Json>)
    | JObject(fields: map<string, Json>)
  {
    /** `get(fieldName)`: the member of an object, Java `null` for an absent member or any other node. */
    function Get(name: string): (r: Option<Json>)
      ensures r.Some? <==> JObject? && name in fields
      ensures r.Some? ==> r.value == fields[name]
    {
      if JObject? && name in fields then Some(fields[name]) else None
    }

    /** `has(fieldName)`: whether `get` finds a member, even one whose value is JSON null. */
    predicate Has(name: string)
      ensures Has(name) <==> JObject? && name in fields
    {
      Get(name).Some?
    }

    /** `path(fieldName)`: like `get`, with `MissingNode` for Java `null`. */
    function Path(name: string): (r: Json)
      ensures Has(name) ==> r == Get(name).value
      ensures !Has(name) ==> r == JMissing
    {
      match Get(name)
      case Some(child) => child
      case None => JMissing
    }

    /** `get(index)`: an element of an array, Java `null` out of range or for any other node. */
    function At(index: int): (r: Option<Json>)
      ensures r.Some? <==> JArray? && 0 <= index < |items|
      ensures r.Some? ==> r.value == items[index]
    {
      if JArray? && 0 <= index < |items| then Some(items[index]) else None
    }

    /** `size()`: the number of children; zero for every non-container node. */
    function Size(): (n: nat)
      ensures !JArray? && !JObject? ==> n == 0
    {
      match this
      case JArray(items) => |items|
      case JObject(fields) => |fields|
      case _ => 0
    }

    /** `isEmpty()`: no children. */
    predicate IsEmpty()
      ensures IsEmpty() <==> (JArray? ==> items == []) && (JObject? ==> fields == map[])
    {
      Size() == 0
    }

    /** `asText()`: the text of a value node, "null" for JSON null, "" for containers and the missing node. */
    function AsText(): (s: string)
      ensures JText? ==> s == text
      ensures JArray? || JObject? || JMissing? ==> s == ""
      ensures JNull? ==> s == "null"
      ensures JNumber? ==> s == literal
    {
      match this
      case JMissing => ""
      case JNull => "null"
      case JBool(b) => if b then "true" else "false"
      case JNumber(literal) => literal
      case JText(text) => text
      case JArray(_) => ""
      case JObject(_) => ""
    }
  }

  /** A node has children exactly when it is a non-empty array or a non-empty object. */
  lemma NonEmptyIsPopulatedContainer(node: Json)
    ensures !node.IsEmpty() <==> (node.JArray? && |node.items| > 0) || (node.JObject? && |node.fields| > 0)
  {
  }

  /** `path` never yields Java `null`, and reaches through a missing member to the missing node. */
  lemma PathThroughMissing(name: string, next: string)
    ensures JMissing.Path(name).Path(next) == JMissing
    ensures JMissing.Path(name).AsText() == ""
  {
  }
}
