/** The already-decoded XML child elements the translator walks over. */
module Dom {

  /** An element: its local name and its attribute values by attribute name. */
  datatype Element = Element(localName: string, attributes: map<string, string>)

  /** DOM `getAttribute`: the attribute's value, or the empty string when it is absent. */
  function GetAttribute(e: Element, name: string): string {
    if name in e.attributes then e.attributes[name] else ""
  }
}
