/** The annotation surface's state: a Fabric.js canvas reduced to the fields
    the renderer reads or writes. Library objects become immutable values. */
module Scene {

  datatype Option<+T> = None | Some(value: T)

  /** A free-drawing brush. `opacity` is None while no code has assigned one. */
  datatype Brush = Brush(width: nat, color: string, opacity: Option<real>)

  /** A brush as Fabric's PencilBrush constructor leaves it. */
  const FreshPencil: Brush := Brush(1, "rgb(0, 0, 0)", None)

  /** A member of a group. Both kinds carry a fill, as every Fabric object does. */
  datatype Shape =
    | Rect(fill: string, width: nat, height: nat, rx: nat, ry: nat, stroke: string, strokeWidth: nat)
    | Textbox(fill: string, text: string, width: nat, left: int, top: int,
              fontFamily: string, fontSize: nat, editable: bool)

  /** An object on the canvas. A freehand stroke keeps the style of the brush
      that drew it; a group is what a sticky note is made of. */
  datatype Drawable =
    | Path(style: Brush)
    | Group(items: seq<Shape>, left: int, top: int, rotatable: bool)

  /** The Fabric canvas: pixel size, background colour, drawing-mode flag,
      current brush, objects in z-order and the index of the active object. */
  datatype Canvas = Canvas(
    width: nat,
    height: nat,
    background: string,
    drawingMode: bool,
    brush: Brush,
    objects: seq<Drawable>,
    active: Option<nat>)

  /** Every group on the canvas has a first item, so its fill can be read. */
  predicate GroupsHaveItems(objs: seq<Drawable>) {
    forall d :: d in objs && d.Group? ==> d.items != []
  }

  /** The active object, if any, is on the canvas, and no group is empty. */
  predicate WellFormed(c: Canvas) {
    && (c.active.Some? ==> c.active.value < |c.objects|)
    && GroupsHaveItems(c.objects)
  }
}
