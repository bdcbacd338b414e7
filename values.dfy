/** The dynamically typed payloads a profile stores: the part of a Qt
    QVariant that the typed property accessors use. A payload is a string,
    an integer, a boolean or a colour; a variant is either invalid (empty)
    or holds one payload. */
module Values {

  datatype Option<+T> = None | Some(value: T)

  /** Colours are opaque tokens. The four named ones are the colour defaults
      of the profile; InvalidColor is what a default-constructed colour is. */
  datatype Color = InvalidColor | Black | DarkYellow | DarkBlue | Red | OtherColor(token: nat)

  /** The static types a property can be declared with. */
  datatype Kind = StringKind | IntKind | BoolKind | ColorKind

  datatype Value = Str(s: string) | Int(i: int) | Bool(b: bool) | ColorVal(c: Color)
  {
    function KindOf(): Kind {
      match this
      case Str(_) => StringKind
      case Int(_) => IntKind
      case Bool(_) => BoolKind
      case ColorVal(_) => ColorKind
    }
  }

  /** A QVariant: None is the invalid variant, Some(v) a valid one holding v. */
  type Variant = Option<Value>

  /** The default-constructed value of a kind: an empty string, zero, false,
      an invalid colour. */
  function Null(k: Kind): (r: Value)
    ensures r.KindOf() == k
  {
    match k
    case StringKind => Str("")
    case IntKind => Int(0)
    case BoolKind => Bool(false)
    case ColorKind => ColorVal(InvalidColor)
  }

  /** Reading a variant back at a static kind (QVariant::value<T>()): a payload
      of that kind comes back as it is; an invalid variant, or a payload of
      another kind, gives the kind's default-constructed value. */
  function Convert(x: Variant, k: Kind): (r: Value)
    ensures r.KindOf() == k
    ensures x.Some? && x.value.KindOf() == k ==> r == x.value
    ensures x.None? ==> r == Null(k)
  {
    if x.Some? && x.value.KindOf() == k then x.value else Null(k)
  }
}
