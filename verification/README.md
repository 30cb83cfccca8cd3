# StickBook annotation state, in Dafny

StickBook is a small Electron app. It opens a PDF page or an image, lets the user draw over it with a pen, highlighter or eraser, adds sticky notes, and exports a flattened PNG. This project models the renderer's annotation state machine (`renderer.js`) apart from Fabric.js, pdf.js and the DOM. The Fabric canvas is a plain record: size, background colour, drawing-mode flag, brush `{width, color, opacity}`, objects in z-order and the active object. The toolbar is an input: a tool string, a colour string and a whole-number size.

Modules, one per part of the renderer:

- `Scene` (`scene.dfy`): the data model. It holds brushes, note items (rectangle, textbox), drawables (freehand path, group), the canvas and its well-formedness.
- `Tools` (`tools.dfy`): `updateBrush`. It maps the toolbar to a brush and the drawing-mode flag.
- `Surface` (`surface.dfy`): `initFabric`, the `mouse:down` listener and the add-note insertion.
- `NotesPanel` (`notes.dfy`): `updateNotesList` and the click on a list entry.
- `Opening` (`opening.dfy`): the open button's choice between the PDF loader and the image loader.
- `Session` (`session.dfy`): the handlers as one step over the page state (toolbar, optional canvas, panel entries). It also holds invariants over every sequence of events.

Two behaviours of the code are worth knowing before reading the model; the model follows the code in both:

- The eraser brush is a fresh PencilBrush with width 3 × size and colour `rgba(0,0,0,1)`. The code never assigns it an opacity, so the model leaves it unset (`None`), unlike the pen (1.0) and the highlighter (0.25).
- Reading a note's colour throws a TypeError for a group without items, so the panel refresh is modelled with the entries appended before that point and a flag saying whether it ran to the end.

The code also does two things its evident intent does not (a new canvas drops the toolbar's brush, and opening a document leaves the notes panel stale); see Findings.

## Model

| member | source | states |
|---|---|---|
| `Tools.ToolBrush` | renderer.js:48-67 | highlighter: width 3 × size, picker colour, opacity 0.25; pen: width = size, picker colour, opacity 1.0; eraser: width 3 × size, colour `rgba(0,0,0,1)` whatever the picker holds, opacity never set; 'select' and unknown tools install no brush |
| `Tools.UpdateBrush` | renderer.js:44-69 | with no canvas nothing happens; otherwise drawing mode is on iff the tool is not 'select', a brush tool's brush is installed, 'select' and unknown tools keep the previous brush, and no other canvas field changes |
| `Tools.UpdateBrushIdempotent` | renderer.js:71-73 | re-running the handler with the same controls changes nothing, so it may run on every control event |
| `Tools.UpdateBrushForgetsPriorTool` | renderer.js:48-68 | for a brush tool the result does not depend on the previous brush or drawing mode |
| `Tools.EraserIgnoresPicker` | renderer.js:59-66 | the eraser's brush is the same whatever colour the picker holds |
| `Tools.HighlighterIsWidePen` | renderer.js:48-58 | the highlighter is three pen widths wide, in the pen's colour, at a quarter of the pen's opacity |
| `Surface.InitFabric` | renderer.js:21-36 | the new canvas has the document's size, a transparent background, and no objects or active object; drawing mode is on iff the tool is not 'select'; the brush is a fresh default PencilBrush whatever the toolbar says |
| `Surface.InitFabricDiscardsConfiguredBrush` | renderer.js:33-36 | opening a document with pen, red, size 4 selected leaves a 1-pixel brush that disagrees with the toolbar |
| `Surface.InitFabricIntended` | renderer.js:21-33 | without the reset on line 36, the new empty canvas agrees with the toolbar |
| `Surface.InitFabricIntendedIsStable` | renderer.js:33-33 | the corrected canvas is a fixed point of the brush update: touching a control right after opening changes nothing |
| `Surface.MouseDown` | renderer.js:39-41 | with 'select', drawing mode goes off; with any other tool the canvas is unchanged; objects, brush and selection never change |
| `Surface.AddNote` | renderer.js:159-175 | exactly one object is appended: the 220×140 `#fff590` rectangle and "New note" textbox group at (50,50). Earlier objects are unchanged, the note becomes active, nothing else changes, and well-formedness is kept |
| `NotesPanel.NoteGroups` | renderer.js:182-183 | the groups of the scene, each a group and no more of them than objects |
| `NotesPanel.NoteGroupsMembers` | renderer.js:182-183 | a drawable is listed iff it is a group of the scene |
| `NotesPanel.NoteGroupsAppend` | renderer.js:182-183 | scene order is kept: the groups of a concatenation are the groups of each part, in order |
| `NotesPanel.Summarize` | renderer.js:186-187 | the entry colour is never empty: the first item's fill, or `#fff590` when that fill is empty; the text is the second item's text (empty for an item without one), or "note" for a single-item group |
| `NotesPanel.UpdateNotesList` | renderer.js:179-194 | the refresh never lists more entries than the scene has objects |
| `NotesPanel.EntriesHaveColor` | renderer.js:186-186 | every entry of a refresh gets a non-empty background colour |
| `NotesPanel.UpdateNotesListFollowsGroups` | renderer.js:179-194 | entry k summarises the k-th group of the scene, in scene order |
| `NotesPanel.UpdateNotesListCountsGroups` | renderer.js:179-194 | a complete refresh lists every group; an interrupted one lists fewer, and stops at a group without items |
| `NotesPanel.UpdateNotesListCompleteIff` | renderer.js:182-187 | the refresh runs to the end iff every group has a first item |
| `NotesPanel.UpdateNotesListAppend` | renderer.js:179-194 | refreshing a scene with objects appended continues a complete refresh of the prefix with the suffix's entries |
| `NotesPanel.AddNoteAddsOneEntry` | renderer.js:175-176 | adding a note to a scene without empty groups adds exactly one entry at the end, coloured with the note rectangle's fill `#fff590` (not the fallback) and reading "New note", and keeps the earlier entries |
| `NotesPanel.GroupPosition` | renderer.js:182-189 | the scene position of the k-th group holds that group, with exactly k groups before it |
| `NotesPanel.SelectNote` | renderer.js:188-190 | clicking entry k makes the k-th group of the scene active, and nothing else changes |
| `Opening.ToLower` | renderer.js:79-79 | lower-casing keeps the length, leaves no ASCII capital, turns each capital into its small letter and leaves every other character in place |
| `Opening.ToLowerIdempotent` | renderer.js:79-79 | lower-casing an already lower-cased name changes nothing |
| `Opening.LowerEndsWithPdf` | renderer.js:79-79 | the handler's test (lower-case, then ends with ".pdf") holds iff the name ends in ".pdf" in any letter case |
| `Opening.OpenDispatch` | renderer.js:75-85 | no answer or no paths means no action; otherwise the first path, unchanged, goes to the PDF loader iff it ends in ".pdf" ignoring case, else to the image loader |
| `Opening.OpenDispatchUsesFirstPath` | renderer.js:77-78 | paths after the first do not affect the choice |
| `Session.AddNoteHandler` | renderer.js:159-177 | without a canvas the handler throws and changes nothing. Otherwise the note is added and the panel is rebuilt from the new scene; it throws iff some earlier group is empty |
| `Session.Step` | renderer.js:71-177 | control changes keep the canvas present or absent; opening a document empties the scene but leaves the panel as it was; only the add-note click can throw |
| `Session.StepKeepsInvariant` | renderer.js:39-176 | every handler keeps the canvas well formed and drawing mode equal to "tool is not 'select'" |
| `Session.RunFromKeepsInvariant` | renderer.js:39-176 | the invariant holds after any sequence of events from a page that satisfies it |
| `Session.RunKeepsInvariant` | renderer.js:16-176 | every page reachable from the start satisfies the invariant |
| `Session.ReachableHandlers` | renderer.js:39-41 | on a reachable page add-note throws iff no document is open, and the renderer's `mouse:down` listener changes nothing |
| `Session.AddNoteGrowsPanel` | renderer.js:175-176 | when the panel lists the current scene, add-note appends exactly one entry, the note rectangle's fill `#fff590` / "New note" |
| `Session.StalePanelAfterReopen` | renderer.js:125-125 | open, add a note, open again: the panel still shows one note while the new canvas has no objects |
| `Session.StepIntended` | renderer.js:21-33 | with both corrections, opening a document yields an empty canvas that agrees with the toolbar and an empty panel; other events are handled as written |
| `Session.StepIntendedKeepsInvariant` | renderer.js:159-194 | under the corrected handlers the canvas stays well formed and configured, and the panel lists exactly the current scene's notes |
| `Session.RunIntendedKeepsInvariant` | renderer.js:159-194 | the corrected invariant holds after any sequence of events |

## Left out

- pdf.js loading, page rendering and the 1.25 viewport scale (renderer.js:87-131). These are an external library and floating-point viewport math. A loader finishing is the `DocumentReady(width, height)` event, with whole-number pixel sizes.
- Image element loading (renderer.js:133-156), `setBackgroundImage`, `toDataURL` flattening and the PNG download (renderer.js:196-213). These are library calls and raster output. The background image set after the canvas is created is not a canvas field here.
- Fabric.js internals: PencilBrush stroke capture, hit-testing and selection by pointer. Freehand paths exist as `Path` objects, but no operation creates them. The values of a fresh PencilBrush (width 1, colour `rgb(0, 0, 0)`) and of a textbox's fill (`rgb(0,0,0)`) are Fabric's defaults. Fabric is not part of this model.
- DOM work: element sizing, list elements and event registration. The panel is its sequence of entries.
- Async ordering of `loadPDF`, `renderPage`, `img.onload` and the `fromURL` callbacks. Each handler is one atomic step.
- `parseInt` of the slider string. The size is a whole number.
- `Opening.ToLower`: lower-cases ASCII letters only. No other character lower-cases to '.', 'p', 'd' or 'f', so the extension test is unaffected.
- `NotesPanel.SelectNote`: models a click on an entry of a panel refreshed from the current canvas. An entry left over from a replaced canvas selects an object that is no longer on it, and that case is not modelled.
- `Session.Step`: does not include clicks on panel entries; `NotesPanel.SelectNote` covers them on the canvas.
- main.js and preload.js: window creation, the IPC bridge and the dialog's extension filter.

## Findings

| source | as written | input that shows it | evidently intended | confidence | as-written member | corrected member |
|---|---|---|---|---|---|---|
| renderer.js:36 | `initFabric` configures the brush from the toolbar, then replaces it with a fresh PencilBrush | pen, `#ff0000`, size 4, then open a file: the brush is 1 pixel wide and black until a control changes | the new canvas keeps the brush the toolbar describes | medium, not executed | `Surface.InitFabricDiscardsConfiguredBrush` | `Surface.InitFabricIntended` |
| renderer.js:125 | opening a document rebuilds the canvas but not the notes panel, which is refreshed only by add-note | open a file, add a note, open another file: the panel lists one note, the canvas has none | the panel lists the notes of the current scene | medium, not executed | `Session.StalePanelAfterReopen` | `Session.RunIntendedKeepsInvariant` |
