/** Abstract records for the Telethon objects the bridge reads. Only the
    attributes the bridge looks at are kept. */
module Entities {
  import opened Python

  /** An attribute read with `getattr(obj, name, default)`: the object may
      lack the attribute, or hold `None` or a string in it. */
  datatype Attr = Absent | Present(value: Option<string>)

  /** `getattr(obj, name, default)` */
  function AttrOr(a: Attr, default: string): (r: Option<string>)
    ensures a.Absent? ==> r == Some(default)
    ensures a.Present? ==> r == a.value
  {
    match a
    case Absent => Some(default)
    case Present(v) => v
  }

  /** Reading an attribute with `getattr(obj, name, '')` and then `or ''`
      gives the same text as `hasattr(obj, name) and obj.name`; the read is
      truthy exactly when the attribute holds a non-empty string, or is
      absent and the default is non-empty. */
  lemma AttrOrText(a: Attr, default: string)
    ensures OrEmpty(AttrOr(a, "")) == AttrText(a)
    ensures TruthyStr(AttrOr(a, default)) <==> AttrTruthy(a) || (a.Absent? && default != "")
  {
  }

  /** `hasattr(obj, name) and obj.name`: present and truthy. */
  predicate AttrTruthy(a: Attr) {
    a.Present? && TruthyStr(a.value)
  }

  /** `obj.name or ''` where the attribute is known to exist. */
  function AttrText(a: Attr): string {
    if AttrTruthy(a) then a.value.value else ""
  }

  /** A user, group or channel. `typeName` is the class name (`User`,
      `Chat`, `Channel`). */
  datatype Entity = Entity(id: int, typeName: string, firstName: Attr, lastName: Attr, username: Attr)

  /** A chat identifier as a caller hands it in: `str | int`. */
  datatype ChatId = IntId(i: int) | StrId(s: string)
}
