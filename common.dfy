/**
  Shared vocabulary of the steel-frame configurator: the four walls, the three
  kinds of placed items, and the few numeric helpers (Math.min, Math.max,
  Math.abs, Math.ceil) the layout code leans on. Lengths are exact reals in
  metres; item sizes arrive as whole millimetres.
*/
module Common {

  datatype Option<T> = None | Some(value: T)

  /** The outcome of the one operation that throws: a value or an error message. */
  datatype Result<T> = Ok(value: T) | Err(message: string)

  /**
    The four walls. Front and back run along the building's width (the x
    axis); left and right run along its length (the z axis).
  */
  datatype Wall = Front | Back | Left | Right {
    predicate AlongWidth() {
      this == Front || this == Back
    }
  }

  /** Sectional door, walk door and window ("sectionaaldeur", "loopdeur", "raam"). */
  datatype ItemType = Sectionaaldeur | Loopdeur | Raam {
    predicate IsDoor() {
      this == Sectionaaldeur || this == Loopdeur
    }

    /** The type's code as items carry it. */
    function Code(): string {
      match this
      case Sectionaaldeur => "sectionaaldeur"
      case Loopdeur => "loopdeur"
      case Raam => "raam"
    }
  }

  /** The span of a wall: the building width for front and back, its length for the sides. */
  function WallSpan(wall: Wall, width: real, length: real): real {
    if wall.AlongWidth() then width else length
  }

  function Min(a: real, b: real): (m: real)
    ensures m <= a && m <= b && (m == a || m == b)
  {
    if a <= b then a else b
  }

  function Max(a: real, b: real): (m: real)
    ensures m >= a && m >= b && (m == a || m == b)
  {
    if a >= b then a else b
  }

  function Abs(a: real): (r: real)
    ensures r >= 0.0 && (r == a || r == -a)
  {
    if a < 0.0 then -a else a
  }

  /** Math.ceil: the least integer not below x. */
  function Ceil(x: real): (c: int)
    ensures x <= c as real < x + 1.0
  {
    -((-x).Floor)
  }

  /** Taking one step off a distance takes one off the number of steps it holds. */
  lemma StepDown(a: real, step: real)
    requires step > 0.0
    ensures (a - step) / step == a / step - 1.0
  {
    var q := a / step;
    var q2 := (a - step) / step;
    assert q * step == a;
    assert q2 * step == a - step;
    var d := q2 - q + 1.0;
    assert d * step == q2 * step - q * step + step;
    assert d * step == 0.0;
    if d > 0.0 { assert false; }
    if d < 0.0 { assert false; }
  }

  /** A positive part of a larger quantity is a ratio strictly between 0 and 1. */
  lemma RatioBelowOne(a: real, b: real)
    requires 0.0 < a < b
    ensures 0.0 < a / b < 1.0
  {
    var q := a / b;
    assert q * b == a;
    if q <= 0.0 { assert false; }
    if q >= 1.0 { assert false; }
  }

  /** Millimetres (as the forms hold them) to metres (as the layout uses them). */
  function Metres(mm: real): real {
    mm / 1000.0
  }

  /**
    A placed door or window as the item list holds it: width, height and
    elevation in millimetres, position along the wall in metres from the
    wall's left edge, and an optional display name.
  */
  datatype ItemData = ItemData(id: string, kind: ItemType, width: real, height: real, wall: Wall,
                               position: real, elevation: real, name: Option<string>)

  /** An item before it has an id: what the add menu hands over and what the preview shows. */
  datatype NewItem = NewItem(kind: ItemType, width: real, height: real, wall: Wall,
                             position: real, elevation: real, name: Option<string>)
  {
    function WithId(id: string): ItemData {
      ItemData(id, kind, width, height, wall, position, elevation, name)
    }
  }

  /** The value a partial field leaves behind: the new one when present, the old one otherwise. */
  function Override<T>(patch: Option<T>, current: T): (v: T)
    ensures patch.Some? ==> v == patch.value
    ensures patch.None? ==> v == current
  {
    match patch
    case Some(x) => x
    case None => current
  }

  /** A partial item: the fields an update carries (the id among them). */
  datatype ItemPatch = ItemPatch(id: Option<string>, kind: Option<ItemType>, width: Option<real>,
                                 height: Option<real>, wall: Option<Wall>, position: Option<real>,
                                 elevation: Option<real>, name: Option<string>)

  const NoItemChange := ItemPatch(None, None, None, None, None, None, None, None)

  /** The spread { ...item, ...data } on an item. */
  function MergeItem(item: ItemData, p: ItemPatch): ItemData {
    ItemData(Override(p.id, item.id), Override(p.kind, item.kind), Override(p.width, item.width),
             Override(p.height, item.height), Override(p.wall, item.wall), Override(p.position, item.position),
             Override(p.elevation, item.elevation), if p.name.Some? then p.name else item.name)
  }
}
