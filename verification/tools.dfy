/** Tool configuration: the toolbar's tool, colour and size turned into the
    canvas's free-drawing brush and drawing-mode flag (`updateBrush`). */
module Tools {
  import opened Scene

  /** The toolbar: the tool selector's value, the colour picker's value and
      the size slider's value read as a whole number. */
  datatype Controls = Controls(tool: string, color: string, size: nat)

  const HighlighterOpacity: real := 0.25
  const PenOpacity: real := 1.0
  /** The eraser paints over in opaque black, whatever the picker says. */
  const EraserColor: string := "rgba(0,0,0,1)"

  /** The tool values that install a brush of their own. */
  predicate IsBrushTool(tool: string) {
    tool == "highlighter" || tool == "pen" || tool == "eraser"
  }

  /** The brush a tool installs, or None for 'select' and unrecognised values,
      which keep whatever brush the canvas has. */
  function ToolBrush(ui: Controls): (b: Option<Brush>)
    ensures b.Some? <==> IsBrushTool(ui.tool)
    ensures ui.tool == "highlighter" ==>
      b.value.width == 3 * ui.size && b.value.color == ui.color && b.value.opacity == Some(HighlighterOpacity)
    ensures ui.tool == "pen" ==>
      b.value.width == ui.size && b.value.color == ui.color && b.value.opacity == Some(PenOpacity)
    ensures ui.tool == "eraser" ==>
      b.value.width == 3 * ui.size && b.value.color == EraserColor && b.value.opacity.None?
  {
    if ui.tool == "highlighter" then Some(Brush(ui.size * 3, ui.color, Some(HighlighterOpacity)))
    else if ui.tool == "pen" then Some(Brush(ui.size, ui.color, Some(PenOpacity)))
    else if ui.tool == "eraser" then Some(FreshPencil.(width := ui.size * 3, color := EraserColor))
    else None
  }

  /** The canvas agrees with the toolbar: drawing mode is on exactly when the
      tool is not 'select', and a brush tool's brush is installed. */
  predicate Configured(c: Canvas, ui: Controls) {
    && (c.drawingMode <==> ui.tool != "select")
    && (IsBrushTool(ui.tool) ==> Some(c.brush) == ToolBrush(ui))
  }

  /** `updateBrush`: with no canvas nothing happens; otherwise the tool's brush
      replaces the current one (if the tool has one) and the drawing-mode flag
      follows the tool. Nothing else about the canvas changes. */
  function UpdateBrush(c: Option<Canvas>, ui: Controls): (r: Option<Canvas>)
    ensures c.None? <==> r.None?
    ensures c.Some? ==> Configured(r.value, ui)
    ensures c.Some? && !IsBrushTool(ui.tool) ==> r.value.brush == c.value.brush
    ensures c.Some? ==> r.value == c.value.(drawingMode := r.value.drawingMode, brush := r.value.brush)
  {
    match c
    case None => None
    case Some(cv) =>
      var brush := match ToolBrush(ui)
        case Some(b) => b
        case None => cv.brush;
      Some(cv.(brush := brush, drawingMode := ui.tool != "select"))
  }

  /** Re-applying the same controls changes nothing, so the handler may run
      on every control event. */
  lemma UpdateBrushIdempotent(c: Option<Canvas>, ui: Controls)
    ensures UpdateBrush(UpdateBrush(c, ui), ui) == UpdateBrush(c, ui)
  {
  }

  /** For a brush tool the result does not depend on the previous brush or
      drawing mode: switching tool always yields the same configuration. */
  lemma UpdateBrushForgetsPriorTool(c: Canvas, d: Canvas, ui: Controls)
    requires IsBrushTool(ui.tool)
    requires c.(brush := d.brush, drawingMode := d.drawingMode) == d
    ensures UpdateBrush(Some(c), ui) == UpdateBrush(Some(d), ui)
  {
  }

  /** The eraser ignores the colour picker. */
  lemma EraserIgnoresPicker(ui: Controls, color: string)
    requires ui.tool == "eraser"
    ensures ToolBrush(ui) == ToolBrush(ui.(color := color))
  {
  }

  /** A highlighter stroke is three pen widths wide in the same colour, at a
      quarter of the pen's opacity. */
  lemma HighlighterIsWidePen(ui: Controls)
    requires ui.tool == "highlighter"
    ensures var h := ToolBrush(ui).value;
            var p := ToolBrush(ui.(tool := "pen")).value;
            h.width == 3 * p.width && h.color == p.color
            && h.opacity.value * 4.0 == p.opacity.value
  {
  }
}
