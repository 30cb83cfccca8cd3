/** The annotation surface: (re)creating the canvas for a newly opened
    document, the select-mode pointer handler, and sticky-note insertion. */
module Surface {
  import opened Scene
  import Tools

  const TransparentBackground: string := "rgba(0,0,0,0)"

  const NoteWidth: nat := 220
  const NoteHeight: nat := 140
  const NoteFill: string := "#fff590"
  const NoteText: string := "New note"
  /** Where a new note is placed, in canvas pixels from the top-left corner. */
  const NoteLeft: int := 50
  const NoteTop: int := 50

  /** The group the add-note button builds: a rounded yellow rectangle with an
      editable textbox inset by 10 pixels, rotation disabled. */
  const NewNote: Drawable :=
    Group(
      [ Rect(NoteFill, NoteWidth, NoteHeight, 8, 8, "#d7c85b", 2),
        Textbox("rgb(0,0,0)", NoteText, NoteWidth - 20, 10, 10,
                "'Patrick Hand', 'Segoe UI', sans-serif", 18, true) ],
      NoteLeft, NoteTop, false)

  /** A canvas as `new fabric.Canvas` creates it: empty, transparent, in
      drawing mode, with the PencilBrush Fabric installs by default. */
  function NewCanvas(w: nat, h: nat): Canvas {
    Canvas(w, h, TransparentBackground, true, FreshPencil, [], None)
  }

  /** `initFabric(w, h)` as written: the old scene is discarded, the brush is
      configured from the toolbar, and then replaced by a fresh PencilBrush. */
  function InitFabric(ui: Tools.Controls, w: nat, h: nat): (c: Canvas)
    ensures c.width == w && c.height == h && c.background == TransparentBackground
    ensures c.objects == [] && c.active == None && WellFormed(c)
    ensures c.drawingMode <==> ui.tool != "select"
    ensures c.brush == FreshPencil
  {
    var configured := Tools.UpdateBrush(Some(NewCanvas(w, h)), ui).value;
    configured.(brush := FreshPencil)
  }

  /** After a document opens with the pen, red, size 4 selected, the canvas's
      brush is not the one the toolbar shows: the next stroke is 1 pixel wide
      and black until some control changes. */
  lemma InitFabricDiscardsConfiguredBrush()
    ensures var ui := Tools.Controls("pen", "#ff0000", 4);
            var c := InitFabric(ui, 250, 375);
            !Tools.Configured(c, ui) && c.brush.width == 1 && c.brush.width != ui.size
  {
  }

  /** `initFabric` without the brush reset: the canvas starts out agreeing with
      the toolbar, like after any control change. */
  function InitFabricIntended(ui: Tools.Controls, w: nat, h: nat): (c: Canvas)
    ensures c.width == w && c.height == h && c.background == TransparentBackground
    ensures c.objects == [] && c.active == None && WellFormed(c)
    ensures Tools.Configured(c, ui)
  {
    Tools.UpdateBrush(Some(NewCanvas(w, h)), ui).value
  }

  /** Opening a document and then touching a control leaves the same canvas as
      opening it: the corrected canvas is a fixed point of the brush update. */
  lemma InitFabricIntendedIsStable(ui: Tools.Controls, w: nat, h: nat)
    ensures Tools.UpdateBrush(Some(InitFabricIntended(ui, w, h)), ui) == Some(InitFabricIntended(ui, w, h))
  {
  }

  /** The `mouse:down` listener: with 'select' chosen, drawing mode goes off;
      otherwise the canvas is untouched. Objects, brush and selection never change. */
  function MouseDown(c: Canvas, tool: string): (r: Canvas)
    ensures tool == "select" ==> !r.drawingMode
    ensures tool != "select" ==> r == c
    ensures r.(drawingMode := c.drawingMode) == c
  {
    if tool == "select" then c.(drawingMode := false) else c
  }

  /** The add-note click on an existing canvas: one new note group goes on
      top of the scene and becomes the active object. */
  function AddNote(c: Canvas): (r: Canvas)
    ensures |r.objects| == |c.objects| + 1
    ensures r.objects[..|c.objects|] == c.objects
    ensures r.active == Some(|c.objects|) && r.objects[|c.objects|] == NewNote
    ensures r.(objects := c.objects, active := c.active) == c
    ensures WellFormed(c) ==> WellFormed(r)
  {
    c.(objects := c.objects + [NewNote], active := Some(|c.objects|))
  }
}
