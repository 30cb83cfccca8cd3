/** The renderer's handlers as one event step over the page state: the
    toolbar, the canvas (absent until a document has been opened) and the
    notes panel's entries. */
module Session {
  import opened Scene
  import Tools
  import Surface
  import NotesPanel

  datatype App = App(ui: Tools.Controls, canvas: Option<Canvas>, panel: seq<NotesPanel.NoteSummary>)

  /** The events the page reacts to. `DocumentReady` is a loader finishing
      with a page or image of the given pixel size. */
  datatype Event =
    | ControlsChanged(ui: Tools.Controls)
    | DocumentReady(width: nat, height: nat)
    | PointerDown
    | AddNoteClicked

  /** One handler run. `threw` is set when it stopped with a TypeError; the
      state then holds whatever the handler had done up to that point. */
  datatype Handled = Handled(app: App, threw: bool)

  /** The page before any document is opened. */
  function Start(ui: Tools.Controls): App {
    App(ui, None, [])
  }

  /** The add-note handler: without a canvas, `fabricCanvas.add` throws
      before anything changes; otherwise the note is added and the panel is
      refreshed from the new scene. */
  function AddNoteHandler(a: App): (h: Handled)
    ensures a.canvas.None? ==> h == Handled(a, true)
    ensures a.canvas.Some? ==>
      && h.app.canvas == Some(Surface.AddNote(a.canvas.value))
      && h.app.panel == NotesPanel.UpdateNotesList(h.app.canvas.value.objects).entries
      && h.app.ui == a.ui
      && (h.threw <==> !GroupsHaveItems(a.canvas.value.objects))
  {
    match a.canvas
    case None => Handled(a, true)
    case Some(c) =>
      var c' := Surface.AddNote(c);
      var listing := NotesPanel.UpdateNotesList(c'.objects);
      NotesPanel.UpdateNotesListCompleteIff(c'.objects);
      assert GroupsHaveItems(c'.objects) <==> GroupsHaveItems(c.objects) by {
        assert forall d :: d in c'.objects <==> d in c.objects || d == Surface.NewNote;
      }
      Handled(a.(canvas := Some(c'), panel := listing.entries), !listing.complete)
  }

  /** The page's reaction to one event, as written. Opening a document
      rebuilds the canvas and leaves the panel as it was. */
  function Step(a: App, e: Event): (h: Handled)
    ensures e.ControlsChanged? ==> h.app.canvas.Some? == a.canvas.Some? && !h.threw
    ensures e.DocumentReady? ==> h.app.panel == a.panel && h.app.canvas.Some? && h.app.canvas.value.objects == []
    ensures e.PointerDown? ==> h.app.panel == a.panel && !h.threw
    ensures h.threw ==> e.AddNoteClicked?
  {
    match e
    case ControlsChanged(ui) =>
      Handled(a.(ui := ui, canvas := Tools.UpdateBrush(a.canvas, ui)), false)
    case DocumentReady(w, h) =>
      Handled(a.(canvas := Some(Surface.InitFabric(a.ui, w, h))), false)
    case PointerDown =>
      if a.canvas.None? then Handled(a, false)
      else Handled(a.(canvas := Some(Surface.MouseDown(a.canvas.value, a.ui.tool))), false)
    case AddNoteClicked =>
      AddNoteHandler(a)
  }

  /** A sequence of events; a handler that throws does not stop the page. */
  function Run(a: App, events: seq<Event>): App
    decreases |events|
  {
    if events == [] then a else Run(Step(a, events[0]).app, events[1..])
  }

  /** What holds on the page whatever the user has done: the canvas is well
      formed and drawing mode is on exactly when the tool is not 'select'. */
  predicate Invariant(a: App) {
    a.canvas.Some? ==>
      && WellFormed(a.canvas.value)
      && (a.canvas.value.drawingMode <==> a.ui.tool != "select")
  }

  lemma StepKeepsInvariant(a: App, e: Event)
    requires Invariant(a)
    ensures Invariant(Step(a, e).app)
  {
  }

  /** Every reachable page satisfies the invariant. */
  lemma {:induction false} RunKeepsInvariant(ui: Tools.Controls, events: seq<Event>)
    ensures Invariant(Run(Start(ui), events))
  {
    RunFromKeepsInvariant(Start(ui), events);
  }

  lemma {:induction false} RunFromKeepsInvariant(a: App, events: seq<Event>)
    requires Invariant(a)
    ensures Invariant(Run(a, events))
    decreases |events|
  {
    if events != [] {
      StepKeepsInvariant(a, events[0]);
      RunFromKeepsInvariant(Step(a, events[0]).app, events[1..]);
    }
  }

  /** On a reachable page, adding a note throws exactly when no document is
      open, and the renderer's `mouse:down` listener changes nothing: it only
      repeats what the last brush update already did. */
  lemma ReachableHandlers(a: App)
    requires Invariant(a)
    ensures Step(a, AddNoteClicked).threw <==> a.canvas.None?
    ensures Step(a, PointerDown).app == a
  {
  }

  /** When the panel lists the current scene, adding a note adds exactly one
      entry at its end, reading "New note" on the note rectangle's fill. */
  lemma AddNoteGrowsPanel(a: App)
    requires Invariant(a) && a.canvas.Some?
    requires a.panel == NotesPanel.UpdateNotesList(a.canvas.value.objects).entries
    ensures var b := Step(a, AddNoteClicked).app;
            b.panel == a.panel + [NotesPanel.NoteSummary(Surface.NoteFill, Surface.NoteText)]
  {
    NotesPanel.AddNoteAddsOneEntry(a.canvas.value);
    var after := NotesPanel.UpdateNotesList(Surface.AddNote(a.canvas.value).objects).entries;
    assert after == after[..|a.panel|] + [after[|a.panel|]];
  }

  /** Opening a second document keeps the first document's note in the panel
      although the new canvas holds no objects. */
  lemma StalePanelAfterReopen(ui: Tools.Controls)
    ensures var b := Run(Start(ui), [DocumentReady(200, 300), AddNoteClicked, DocumentReady(250, 375)]);
            b.canvas.Some? && b.canvas.value.objects == []
            && |b.panel| == 1 && b.panel != NotesPanel.UpdateNotesList(b.canvas.value.objects).entries
  {
  }

  /** The page's reaction with both corrections: a new document's canvas keeps
      the configured brush, and the panel is refreshed from the new, empty scene. */
  function StepIntended(a: App, e: Event): (h: Handled)
    ensures e.DocumentReady? ==>
      h.app.canvas.Some? && h.app.canvas.value.objects == [] && h.app.panel == []
      && Tools.Configured(h.app.canvas.value, a.ui)
    ensures !e.DocumentReady? ==> h == Step(a, e)
  {
    match e
    case DocumentReady(w, h) =>
      Handled(a.(canvas := Some(Surface.InitFabricIntended(a.ui, w, h)), panel := []), false)
    case _ => Step(a, e)
  }

  function RunIntended(a: App, events: seq<Event>): App
    decreases |events|
  {
    if events == [] then a else RunIntended(StepIntended(a, events[0]).app, events[1..])
  }

  /** The intended page: the canvas is well formed and agrees with the
      toolbar, and the panel lists exactly the current scene's notes. */
  predicate IntendedInvariant(a: App) {
    match a.canvas
    case None => a.panel == []
    case Some(c) =>
      && WellFormed(c)
      && Tools.Configured(c, a.ui)
      && a.panel == NotesPanel.UpdateNotesList(c.objects).entries
  }

  lemma StepIntendedKeepsInvariant(a: App, e: Event)
    requires IntendedInvariant(a)
    ensures IntendedInvariant(StepIntended(a, e).app)
  {
  }

  /** Every page reached by the corrected handlers keeps its panel in step
      with its scene and its brush in step with its toolbar. */
  lemma {:induction false} RunIntendedKeepsInvariant(a: App, events: seq<Event>)
    requires IntendedInvariant(a)
    ensures IntendedInvariant(RunIntended(a, events))
    decreases |events|
  {
    if events != [] {
      StepIntendedKeepsInvariant(a, events[0]);
      RunIntendedKeepsInvariant(StepIntended(a, events[0]).app, events[1..]);
    }
  }
}
