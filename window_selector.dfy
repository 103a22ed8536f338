/**
 * The window picker (src/components/WindowSelector.tsx): which capture
 * sources it offers, whether it shows a grid or the "No windows available"
 * message, and what a click on a thumbnail reports.
 */
module WindowSelector {
  import opened Wrappers
  import Seqs

  /** A capture source: a window with its thumbnail. */
  datatype WindowSource = WindowSource(id: string, name: string, thumbnailDataUrl: string, appIcon: Option<string>)

  /** Sources hidden because they are not real application windows. */
  function ProblematicNames(): seq<string>
  {
    ["NVIDIA GeForce Overlay", "Program Manager"]
  }

  predicate Offered(s: WindowSource)
  {
    s.name !in ProblematicNames()
  }

  /** The sources the picker offers: every one whose name is not a problematic name, in order. */
  function Shown(sources: seq<WindowSource>): (r: seq<WindowSource>)
    ensures forall i :: 0 <= i < |r| ==> r[i].name != "NVIDIA GeForce Overlay" && r[i].name != "Program Manager"
    ensures forall i :: 0 <= i < |sources| && Offered(sources[i]) ==> sources[i] in r
    ensures Seqs.IsSubsequence(r, sources)
  {
    Seqs.FilterIsSubsequence(sources, Offered);
    Seqs.Filter(sources, Offered)
  }

  /** A list with no problematic source is shown unchanged. */
  lemma NothingHiddenWithoutProblems(sources: seq<WindowSource>)
    requires forall i :: 0 <= i < |sources| ==> Offered(sources[i])
    ensures Shown(sources) == sources
  {
    Seqs.FilterKeepsAll(sources, Offered);
  }

  /** What the picker shows: the message when no source remains, else the grid of the shown sources. */
  datatype View = NoWindowsMessage | Grid(items: seq<WindowSource>)

  function ViewOf(sources: seq<WindowSource>): (v: View)
    ensures v == NoWindowsMessage <==> forall i :: 0 <= i < |sources| ==> !Offered(sources[i])
    ensures v.Grid? ==> v.items == Shown(sources) && v.items != []
  {
    var shown := Shown(sources);
    if shown == [] then NoWindowsMessage else Grid(shown)
  }

  /** A list made only of the overlay and the desktop shows the message. */
  lemma OnlyProblematicShowsMessage(sources: seq<WindowSource>)
    requires forall i :: 0 <= i < |sources| ==> sources[i].name in ProblematicNames()
    ensures ViewOf(sources) == NoWindowsMessage
  {
  }

  /** handleSelectWindow: clicking the item at `k` of the grid reports that source's id, unchanged. */
  function Clicked(sources: seq<WindowSource>, k: nat): (id: Option<string>)
    ensures id.Some? <==> k < |Shown(sources)|
    ensures id.Some? ==> id.value == Shown(sources)[k].id
    ensures id.Some? ==> exists i :: 0 <= i < |sources| && sources[i].id == id.value && Offered(sources[i])
  {
    var shown := Shown(sources);
    if k < |shown| then
      assert shown[k] in sources;
      Some(shown[k].id)
    else None
  }

  /**
   * Clicking the item at `k` reports the id of the source that has exactly
   * `k` offered sources before it in the list the picker was given.
   */
  lemma ClickedIsKthOffered(sources: seq<WindowSource>, k: nat)
    requires k < |Shown(sources)|
    ensures exists i :: 0 <= i < |sources| && Offered(sources[i]) && |Shown(sources[..i])| == k
                        && Clicked(sources, k) == Some(sources[i].id)
  {
    Seqs.FilterIndex(sources, Offered, k);
  }
}
