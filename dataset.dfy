/** Values read from an element's `data-*` attributes (`element.dataset.x`).
    An attribute the markup does not carry reads as JavaScript `undefined`. */
module Dataset {

  datatype Attr = Absent | Present(value: string)

  /** The string JavaScript produces for the value in a template literal or
      a string-typed DOM property: `undefined` becomes the text "undefined". */
  function Text(a: Attr): (r: string)
    ensures a.Present? ==> r == a.value
    ensures a.Absent? ==> r == "undefined"
  {
    match a
    case Absent => "undefined"
    case Present(v) => v
  }

  /** JavaScript truthiness of the value: `undefined` and "" are falsy. */
  predicate Truthy(a: Attr) {
    a.Present? && a.value != ""
  }
}
