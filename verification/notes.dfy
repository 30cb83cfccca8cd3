/** The notes panel: one entry per sticky-note group, in scene order
    (`updateNotesList`), and focusing a note by clicking its entry. */
module NotesPanel {
  import opened Scene
  import Surface

  /** What an entry shows: its background colour and its text. */
  datatype NoteSummary = NoteSummary(color: string, text: string)

  /** The outcome of one refresh: the entries appended to the emptied panel,
      and whether the refresh ran to the end. It stops with a TypeError at the
      first group without items, whose first item's fill cannot be read; the
      entries appended before it stay. */
  datatype Listing = Listing(entries: seq<NoteSummary>, complete: bool)

  const FallbackColor: string := "#fff590"
  const FallbackText: string := "note"

  /** The groups of a scene, in scene order: the panel's reference list. */
  function NoteGroups(objs: seq<Drawable>): (gs: seq<Drawable>)
    ensures |gs| <= |objs|
    ensures forall k :: 0 <= k < |gs| ==> gs[k].Group?
  {
    if objs == [] then []
    else
      (if objs[0].Group? then [objs[0]] else []) + NoteGroups(objs[1..])
  }

  /** A drawable is listed exactly when it is a group of the scene. */
  lemma {:induction false} NoteGroupsMembers(objs: seq<Drawable>, d: Drawable)
    ensures d in NoteGroups(objs) <==> d in objs && d.Group?
  {
    if objs != [] {
      assert d in objs <==> d == objs[0] || d in objs[1..];
      NoteGroupsMembers(objs[1..], d);
    }
  }

  /** The text shown for a group's second item. A rectangle has no `text`
      property, and an undefined text content displays as the empty string. */
  function ItemText(s: Shape): string {
    match s
    case Textbox(_, text, _, _, _, _, _, _) => text
    case Rect(_, _, _, _, _, _, _) => ""
  }

  /** The entry for one group: the first item's fill, or the default yellow
      when that fill is empty; the second item's text, or "note" when the group
      has a single item. */
  function Summarize(items: seq<Shape>): (n: NoteSummary)
    requires |items| > 0
    ensures n.color != ""
    ensures n.color == (if items[0].fill == "" then FallbackColor else items[0].fill)
    ensures |items| == 1 ==> n.text == FallbackText
    ensures |items| > 1 ==> n.text == ItemText(items[1])
  {
    NoteSummary(
      if items[0].fill != "" then items[0].fill else FallbackColor,
      if |items| > 1 then ItemText(items[1]) else FallbackText)
  }

  /** `updateNotesList`: walks the scene in order and appends one entry per
      group; it never lists more entries than there are objects. */
  function UpdateNotesList(objs: seq<Drawable>): (r: Listing)
    ensures |r.entries| <= |objs|
  {
    if objs == [] then Listing([], true)
    else Visit(objs[0], UpdateNotesList(objs[1..]))
  }

  /** One step of the walk: a non-group is skipped, an empty group throws,
      and any other group's entry goes in front of the entries after it. */
  function Visit(d: Drawable, rest: Listing): (r: Listing)
    ensures |r.entries| <= |rest.entries| + 1
  {
    if !d.Group? then rest
    else if d.items == [] then Listing([], false)
    else Listing([Summarize(d.items)] + rest.entries, rest.complete)
  }

  /** A refresh of one part of the scene followed by a refresh of the next. */
  function Then(first: Listing, second: Listing): Listing {
    if first.complete then Listing(first.entries + second.entries, second.complete) else first
  }

  /** The panel against its reference list, by count: a complete refresh
      lists every group, an interrupted one stops at a group without items. */
  lemma {:induction false} UpdateNotesListCountsGroups(objs: seq<Drawable>)
    ensures var r := UpdateNotesList(objs);
            var gs := NoteGroups(objs);
            && |r.entries| <= |gs|
            && (r.complete <==> |r.entries| == |gs|)
            && (!r.complete ==> gs[|r.entries|].items == [])
  {
    if objs != [] {
      UpdateNotesListCountsGroups(objs[1..]);
      var rest := UpdateNotesList(objs[1..]);
      var gsRest := NoteGroups(objs[1..]);
      if objs[0].Group? {
        assert NoteGroups(objs) == [objs[0]] + gsRest;
        if objs[0].items != [] {
          assert UpdateNotesList(objs) == Listing([Summarize(objs[0].items)] + rest.entries, rest.complete);
        } else {
          assert UpdateNotesList(objs) == Listing([], false);
        }
      } else {
        assert NoteGroups(objs) == gsRest;
        assert UpdateNotesList(objs) == rest;
      }
    }
  }

  /** An entry shows the summary of a group that has items. */
  predicate Shows(entry: NoteSummary, g: Drawable) {
    g.Group? && |g.items| > 0 && entry == Summarize(g.items)
  }

  /** Entry k summarises the k-th of the given groups. */
  predicate EntriesFollow(entries: seq<NoteSummary>, gs: seq<Drawable>) {
    |entries| <= |gs| && forall k :: 0 <= k < |entries| ==> Shows(entries[k], gs[k])
  }

  lemma EntriesFollowCons(g: Drawable, entries: seq<NoteSummary>, gs: seq<Drawable>)
    requires g.Group? && |g.items| > 0 && EntriesFollow(entries, gs)
    ensures EntriesFollow([Summarize(g.items)] + entries, [g] + gs)
  {
    var es' := [Summarize(g.items)] + entries;
    var gs' := [g] + gs;
    forall k | 0 < k < |es'|
      ensures Shows(es'[k], gs'[k])
    {
      assert es'[k] == entries[k - 1] && gs'[k] == gs[k - 1];
    }
  }

  /** The panel against its reference list, entry by entry: entry k
      summarises the k-th group of the scene. */
  lemma {:induction false} UpdateNotesListFollowsGroups(objs: seq<Drawable>)
    ensures EntriesFollow(UpdateNotesList(objs).entries, NoteGroups(objs))
  {
    if objs != [] {
      UpdateNotesListFollowsGroups(objs[1..]);
      var rest := UpdateNotesList(objs[1..]);
      var gsRest := NoteGroups(objs[1..]);
      if objs[0].Group? {
        assert NoteGroups(objs) == [objs[0]] + gsRest;
        if objs[0].items != [] {
          assert UpdateNotesList(objs).entries == [Summarize(objs[0].items)] + rest.entries;
          EntriesFollowCons(objs[0], rest.entries, gsRest);
        }
      } else {
        assert NoteGroups(objs) == gsRest;
        assert UpdateNotesList(objs) == rest;
      }
    }
  }

  /** The refresh runs to the end exactly when every group has items. */
  lemma {:induction false} UpdateNotesListCompleteIff(objs: seq<Drawable>)
    ensures UpdateNotesList(objs).complete <==> GroupsHaveItems(objs)
  {
    if objs != [] {
      assert forall d :: d in objs <==> d == objs[0] || d in objs[1..];
      UpdateNotesListCompleteIff(objs[1..]);
    }
  }

  /** Every entry gets a background colour. */
  lemma EntriesHaveColor(objs: seq<Drawable>)
    ensures forall k :: 0 <= k < |UpdateNotesList(objs).entries| ==> UpdateNotesList(objs).entries[k].color != ""
  {
    UpdateNotesListFollowsGroups(objs);
  }

  /** Scene order is kept: the groups of a concatenation are the groups of
      its parts, one after the other. */
  lemma {:induction false} NoteGroupsAppend(a: seq<Drawable>, b: seq<Drawable>)
    ensures NoteGroups(a + b) == NoteGroups(a) + NoteGroups(b)
  {
    if a == [] {
      assert a + b == b;
    } else {
      assert (a + b)[1..] == a[1..] + b;
      NoteGroupsAppend(a[1..], b);
    }
  }

  /** Refreshing after objects are appended: a finished refresh of the prefix
      continues with the entries of the suffix; an interrupted one stops where it did. */
  lemma {:induction false} UpdateNotesListAppend(a: seq<Drawable>, b: seq<Drawable>)
    ensures UpdateNotesList(a + b) == Then(UpdateNotesList(a), UpdateNotesList(b))
  {
    if a == [] {
      assert a + b == b;
    } else {
      assert (a + b)[0] == a[0];
      assert (a + b)[1..] == a[1..] + b;
      UpdateNotesListAppend(a[1..], b);
      VisitThen(a[0], UpdateNotesList(a[1..]), UpdateNotesList(b));
    }
  }

  lemma VisitThen(d: Drawable, first: Listing, second: Listing)
    ensures Visit(d, Then(first, second)) == Then(Visit(d, first), second)
  {
    if d.Group? && d.items != [] && first.complete {
      var h := [Summarize(d.items)];
      assert h + (first.entries + second.entries) == (h + first.entries) + second.entries;
    }
  }

  /** Adding a note to a scene whose groups all have items adds exactly one
      entry at the end of the panel, reading "New note" on the note
      rectangle's own fill (its fill is not empty, so no fallback is taken). */
  lemma AddNoteAddsOneEntry(c: Canvas)
    requires GroupsHaveItems(c.objects)
    ensures var before := UpdateNotesList(c.objects);
            var after := UpdateNotesList(Surface.AddNote(c).objects);
            after.complete
            && |after.entries| == |before.entries| + 1
            && after.entries[..|before.entries|] == before.entries
            && after.entries[|before.entries|] == NoteSummary(Surface.NoteFill, Surface.NoteText)
  {
    UpdateNotesListCompleteIff(c.objects);
    UpdateNotesListAppend(c.objects, [Surface.NewNote]);
    assert [Surface.NewNote][1..] == [];
  }

  /** Counting the groups of a prefix one object at a time. */
  lemma PrefixGroups(objs: seq<Drawable>, j: nat)
    requires j < |objs|
    ensures NoteGroups(objs[..1 + j]) == (if objs[0].Group? then [objs[0]] else []) + NoteGroups(objs[1..][..j])
  {
    assert objs[..1 + j] == [objs[0]] + objs[1..][..j];
    NoteGroupsAppend([objs[0]], objs[1..][..j]);
  }

  /** The position in the scene of the k-th group. */
  function GroupPosition(objs: seq<Drawable>, k: nat): (i: nat)
    requires k < |NoteGroups(objs)|
    ensures i < |objs| && objs[i] == NoteGroups(objs)[k] && |NoteGroups(objs[..i])| == k
  {
    assert NoteGroups(objs) == (if objs[0].Group? then [objs[0]] else []) + NoteGroups(objs[1..]);
    if objs[0].Group? && k == 0 then
      assert objs[..0] == [];
      0
    else
      var k' := if objs[0].Group? then k - 1 else k;
      var j := GroupPosition(objs[1..], k');
      assert objs[1 + j] == objs[1..][j];
      assert NoteGroups(objs)[k] == NoteGroups(objs[1..])[k'];
      PrefixGroups(objs, j);
      1 + j
  }

  /** Clicking the k-th entry of a panel refreshed from this canvas makes the
      k-th group the active object; nothing else changes. */
  function SelectNote(c: Canvas, k: nat): (r: Canvas)
    requires k < |NoteGroups(c.objects)|
    ensures r.(active := c.active) == c
    ensures r.active.Some? && r.active.value < |c.objects|
      && c.objects[r.active.value] == NoteGroups(c.objects)[k]
      && |NoteGroups(c.objects[..r.active.value])| == k
    ensures WellFormed(c) ==> WellFormed(r)
  {
    c.(active := Some(GroupPosition(c.objects, k)))
  }
}
