/**
 * The parsed document as the core sees it, and the foreign code it relies on:
 * the HTML parser and serializer, CSS selection and URL hostname parsing.
 */
module Dom {
  import opened Wrappers

  /**
   * One element: its (lower-case) tag name and its attributes as written in
   * the markup, a bare attribute such as `<script async>` having the value "".
   */
  datatype Element = Element(tag: string, attrs: map<string, string>)

  /**
   * The attributes cheerio's `.attr(name)` reports by their own name whenever
   * they are present, whatever value the markup gives them.
   */
  const BooleanAttributes: set<string> := {
    "autofocus", "autoplay", "async", "checked", "controls", "defer", "disabled",
    "hidden", "loop", "multiple", "open", "readonly", "required", "scoped", "selected"}

  /**
   * `$(el).attr(name)`: `undefined` when the attribute is absent, its own name
   * for a present boolean attribute, and otherwise its value as written.
   */
  function Attr(e: Element, name: string): (r: Option<string>)
    ensures r.Some? <==> name in e.attrs
    ensures name in e.attrs && name in BooleanAttributes ==> r == Some(name)
    ensures name in e.attrs && name !in BooleanAttributes ==> r == Some(e.attrs[name])
  {
    if name !in e.attrs then None
    else if name in BooleanAttributes then Some(name)
    else Some(e.attrs[name])
  }

  /** JavaScript truthiness of an optional string: present and non-empty. */
  predicate Truthy(v: Option<string>) {
    v.Some? && v.value != ""
  }

  /**
   * A parsed page: its elements in document order, and the child nodes of
   * `<head>` as the markup fragments they were inserted as.
   */
  datatype Document = Document(elements: seq<Element>, head: seq<string>)

  /**
   * The foreign code the core calls: `cheerio.load`, `$.html()`, `$(selector)`
   * for a caller-supplied selector, and `new URL(s).hostname` (`None` where the
   * constructor throws, as it does for a relative path).
   */
  datatype Library = Library(
    parse: string -> Document,
    render: Document -> string,
    select: (Document, string) -> seq<Element>,
    hostname: string -> Option<string>)
}
