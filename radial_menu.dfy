/**
 * The hub's radial menu (src/components/RadialMenu.tsx): the list of tool
 * hexagons and the handlers that change it (empty slots, dropped or browsed
 * applications, removal, colour cycling, the add button), and the ring
 * layout that assigns each hexagon a ring and a place in it. Pixel positions
 * (trigonometry) are not modelled; a hexagon's layout slot is.
 */
module RadialMenu {
  import opened Wrappers
  import opened HubTypes
  import Seqs
  import Strings

  /** One hexagon of the menu. The click action is not modelled. */
  datatype ToolItem = ToolItem(
    id: string,
    name: string,
    icon: string,
    color: Option<HexagonColor>,
    isAddButton: bool,
    isExternal: bool,
    externalApp: Option<ExternalApplication>,
    isEmpty: bool,
    isRemovable: bool)

  function Builtin(id: string, name: string, icon: string, color: HexagonColor): ToolItem
  {
    ToolItem(id, name, icon, Some(color), false, false, None, false, false)
  }

  /** The seven tools the menu starts with; the add button is last. */
  function DefaultTools(): seq<ToolItem>
  {
    [ Builtin("calculator", "Calculator", "\U{1F9EE}", Blue),
      Builtin("notepad", "Notepad", "\U{1F4DD}", Green),
      Builtin("browser", "Browser", "\U{1F310}", Blue),
      Builtin("snipping-tool", "Snipping Tool", "\U{2702}\U{FE0F}", Red),
      Builtin("files", "Files", "\U{1F4C1}", Red),
      Builtin("settings", "Settings", "\U{2699}\U{FE0F}", Default),
      ToolItem("add-new", "Add Tool", "\U{2795}", Some(Default), true, false, None, false, false) ]
  }

  predicate IsAddButton(t: ToolItem) { t.isAddButton }

  predicate NotAddButton(t: ToolItem) { !t.isAddButton }

  /** The add buttons of a list, in order. */
  function AddButtons(tools: seq<ToolItem>): seq<ToolItem>
  {
    Seqs.Filter(tools, IsAddButton)
  }

  /** The default list has distinct ids and exactly one add button, in last place. */
  lemma DefaultToolsShape()
    ensures |DefaultTools()| == 7
    ensures forall i, j :: 0 <= i < j < 7 ==> DefaultTools()[i].id != DefaultTools()[j].id
    ensures AddButtons(DefaultTools()) == [DefaultTools()[6]]
  {
    DefaultIdsDistinct();
    DefaultAddButtonLast();
  }

  /** The default ids differ already in their first two letters. */
  lemma DefaultIdsDistinct()
    ensures forall i, j :: 0 <= i < j < 7 ==> DefaultTools()[i].id != DefaultTools()[j].id
  {
    var d := DefaultTools();
    var heads := ["ca", "no", "br", "sn", "fi", "se", "ad"];
    forall i | 0 <= i < 7
      ensures |d[i].id| >= 2 && d[i].id[..2] == heads[i]
    {
    }
    forall i, j | 0 <= i < j < 7
      ensures d[i].id != d[j].id
    {
      assert heads[i] != heads[j];
    }
  }

  lemma DefaultAddButtonLast()
    ensures AddButtons(DefaultTools()) == [DefaultTools()[6]]
  {
    var d := DefaultTools();
    assert Seqs.Filter(d[6..], IsAddButton) == [d[6]];
    assert d[5..][1..] == d[6..];
    assert d[4..][1..] == d[5..];
    assert d[3..][1..] == d[4..];
    assert d[2..][1..] == d[3..];
    assert d[1..][1..] == d[2..];
  }

  // ---------------------------------------------------------------------
  // Adding a hexagon before the add button
  // ---------------------------------------------------------------------

  /**
   * Every add button is taken out, the new item is appended, and the first add
   * button, if there was one, is put back after it.
   */
  function InsertBeforeAdd(tools: seq<ToolItem>, item: ToolItem): (r: seq<ToolItem>)
    ensures var add := Seqs.Find(tools, IsAddButton);
      && |r| == |Seqs.Filter(tools, NotAddButton)| + (if add.Some? then 2 else 1)
      && r[..|Seqs.Filter(tools, NotAddButton)|] == Seqs.Filter(tools, NotAddButton)
      && r[|Seqs.Filter(tools, NotAddButton)|] == item
      && (add.Some? ==> r[|r| - 1] == add.value && add.value.isAddButton)
  {
    var without := Seqs.Filter(tools, NotAddButton);
    var add := Seqs.Find(tools, IsAddButton);
    if add.Some? then without + [item] + [add.value] else without + [item]
  }

  /** A new item is added only below the capacity; at or above it the list is unchanged. */
  function WithNewItem(tools: seq<ToolItem>, item: ToolItem, maxHexagons: int): (r: seq<ToolItem>)
    ensures |tools| >= maxHexagons ==> r == tools
    ensures |tools| < maxHexagons ==> r == InsertBeforeAdd(tools, item)
  {
    if |tools| >= maxHexagons then tools else InsertBeforeAdd(tools, item)
  }

  /** Every element is either an add button or not. */
  lemma AddButtonsCount(tools: seq<ToolItem>)
    ensures |Seqs.Filter(tools, NotAddButton)| + |AddButtons(tools)| == |tools|
  {
    Seqs.FilterPartition(tools, NotAddButton, IsAddButton);
    assert |multiset(Seqs.Filter(tools, NotAddButton)) + multiset(AddButtons(tools))| == |multiset(tools)|;
  }

  /**
   * Below the capacity, with at most one add button, a non-add item makes the
   * list exactly one longer, never beyond the capacity; the item comes after
   * every other hexagon, and the add button (if any) stays last.
   */
  lemma NewItemKeepsAddLast(tools: seq<ToolItem>, item: ToolItem, maxHexagons: int)
    requires |tools| < maxHexagons && |AddButtons(tools)| <= 1 && !item.isAddButton
    ensures var r := WithNewItem(tools, item, maxHexagons);
      && |r| == |tools| + 1 && |r| <= maxHexagons
      && AddButtons(r) == AddButtons(tools)
      && (AddButtons(tools) == [] ==> r == tools + [item])
      && (AddButtons(tools) != [] ==> r[|r| - 1].isAddButton && r[|r| - 2] == item)
  {
    AddButtonsCount(tools);
    if Seqs.Find(tools, IsAddButton).Some? {
      NewItemBeforeAdd(tools, item);
    } else {
      NewItemWithoutAdd(tools, item);
    }
  }

  /** With one add button, the new item goes just before it and the add buttons are unchanged. */
  lemma NewItemBeforeAdd(tools: seq<ToolItem>, item: ToolItem)
    requires |AddButtons(tools)| <= 1 && !item.isAddButton
    requires Seqs.Find(tools, IsAddButton).Some?
    ensures AddButtons(tools) == [Seqs.Find(tools, IsAddButton).value]
    ensures AddButtons(InsertBeforeAdd(tools, item)) == AddButtons(tools)
  {
    var without := Seqs.Filter(tools, NotAddButton);
    var add := Seqs.Find(tools, IsAddButton).value;
    assert AddButtons(tools) == [add] by {
      var k :| 0 <= k < |tools| && tools[k] == add && IsAddButton(tools[k]);
      var buttons := AddButtons(tools);
      assert add in buttons;
      assert |buttons| == 1 && buttons[0] == add;
    }
    assert Seqs.Filter(without, IsAddButton) == [] by {
      Seqs.FilterKeepsNone(without, IsAddButton);
    }
    assert InsertBeforeAdd(tools, item) == without + [item] + [add];
    Seqs.FilterAppend(without + [item], [add], IsAddButton);
    Seqs.FilterAppend(without, [item], IsAddButton);
  }

  /** With no add button, the new item is simply appended. */
  lemma NewItemWithoutAdd(tools: seq<ToolItem>, item: ToolItem)
    requires !item.isAddButton
    requires Seqs.Find(tools, IsAddButton).None?
    ensures InsertBeforeAdd(tools, item) == tools + [item]
    ensures AddButtons(tools) == []
    ensures AddButtons(InsertBeforeAdd(tools, item)) == []
  {
    assert Seqs.Filter(tools, NotAddButton) == tools by {
      Seqs.FilterKeepsAll(tools, NotAddButton);
    }
    Seqs.FilterKeepsNone(tools, IsAddButton);
    Seqs.FilterAppend(tools, [item], IsAddButton);
  }

  // ---------------------------------------------------------------------
  // Empty slots, applications, removal
  // ---------------------------------------------------------------------

  /** The placeholder hexagon "Click to Add", id `empty-slot-<stamp>`. */
  function EmptySlot(stamp: nat): (t: ToolItem)
    ensures t.isEmpty && t.isRemovable && !t.isAddButton && t.color == Some(Default)
  {
    ToolItem("empty-slot-" + Strings.Decimal(stamp), "Click to Add", "\U{2795}", Some(Default),
             false, false, None, true, true)
  }

  /** The hexagon for an added application: its icon or 📦, its colour or default. */
  function ToolFor(app: ExternalApplication): (t: ToolItem)
    ensures t.id == app.id && t.isExternal && t.isRemovable && !t.isAddButton
    ensures t.externalApp == Some(app)
    ensures t.icon == (if app.icon.Some? && app.icon.value != "" then app.icon.value else "\U{1F4E6}")
    ensures t.color == Some(if app.color.Some? then app.color.value else Default)
  {
    ToolItem(app.id, app.name,
             if app.icon.Some? && app.icon.value != "" then app.icon.value else "\U{1F4E6}",
             Some(if app.color.Some? then app.color.value else Default),
             false, true, Some(app), false, true)
  }

  /** Every hexagon with the target id becomes `item`; the others stay, in place. */
  function ReplaceId(tools: seq<ToolItem>, target: string, item: ToolItem): (r: seq<ToolItem>)
    ensures |r| == |tools|
    ensures forall i :: 0 <= i < |tools| ==> r[i] == (if tools[i].id == target then item else tools[i])
  {
    seq(|tools|, i requires 0 <= i < |tools| => if tools[i].id == target then item else tools[i])
  }

  /**
   * Placing an application: a (non-empty) target slot id replaces that slot in
   * place; without one the application is added like an empty slot.
   */
  function Placed(tools: seq<ToolItem>, item: ToolItem, target: Option<string>, maxHexagons: int): (r: seq<ToolItem>)
    ensures target.Some? && target.value != "" ==> r == ReplaceId(tools, target.value, item)
    ensures !(target.Some? && target.value != "") ==> r == WithNewItem(tools, item, maxHexagons)
  {
    if target.Some? && target.value != "" then ReplaceId(tools, target.value, item)
    else WithNewItem(tools, item, maxHexagons)
  }

  /** A target that names no hexagon leaves the list as it was. */
  lemma ReplaceMissingTarget(tools: seq<ToolItem>, target: string, item: ToolItem)
    requires forall i :: 0 <= i < |tools| ==> tools[i].id != target
    ensures ReplaceId(tools, target, item) == tools
  {
  }

  predicate IsCustomExternal(t: ToolItem)
  {
    t.isExternal && t.externalApp.Some? && t.externalApp.value.isCustom
  }

  /**
   * Whether removing `id` also removes an application from the service:
   * the first tool with the id is an external application the user added.
   */
  function RemovesCustomApp(tools: seq<ToolItem>, id: string): (r: bool)
    ensures r <==> exists i :: 0 <= i < |tools| && tools[i].id == id
                     && (forall j :: 0 <= j < i ==> tools[j].id != id)
                     && IsCustomExternal(tools[i])
  {
    var found := Seqs.Find(tools, (tool: ToolItem) => tool.id == id);
    found.Some? && IsCustomExternal(found.value)
  }

  /** Removal: every hexagon with the id goes; the others keep their order. */
  function Removed(tools: seq<ToolItem>, id: string): (r: seq<ToolItem>)
    ensures forall i :: 0 <= i < |r| ==> r[i].id != id
    ensures forall i :: 0 <= i < |tools| && tools[i].id != id ==> tools[i] in r
  {
    Seqs.Filter(tools, (t: ToolItem) => t.id != id)
  }

  /** Removal keeps the survivors' relative order, and removing an absent id changes nothing. */
  lemma RemovedKeepsOrder(tools: seq<ToolItem>, id: string)
    ensures Seqs.IsSubsequence(Removed(tools, id), tools)
    ensures (forall i :: 0 <= i < |tools| ==> tools[i].id != id) ==> Removed(tools, id) == tools
  {
    Seqs.FilterIsSubsequence(tools, (t: ToolItem) => t.id != id);
    Seqs.FilterKeepsAll(tools, (t: ToolItem) => t.id != id);
  }

  // ---------------------------------------------------------------------
  // Colour cycling
  // ---------------------------------------------------------------------

  /** The cycle: default, then the preferred colours. */
  function CycleColors(preferred: seq<HexagonColor>): seq<HexagonColor>
  {
    [Default] + preferred
  }

  lemma ModSucc(j: int, n: int)
    requires -1 <= j < n && n > 0
    ensures (j + 1) % n == if j + 1 < n then j + 1 else 0
  {
  }

  /**
   * The colour after `c` (a missing colour counts as default): the successor
   * of its first occurrence, wrapping round; a colour not in the cycle goes to
   * the first one.
   */
  function NextColor(colors: seq<HexagonColor>, c: Option<HexagonColor>): (r: HexagonColor)
    requires |colors| > 0
    ensures var cur := if c.Some? then c.value else Default;
      && (cur !in colors ==> r == colors[0])
      && (cur in colors ==>
            var i := Seqs.IndexOf(colors, cur);
            r == colors[if i + 1 < |colors| then i + 1 else 0])
  {
    var i := Seqs.IndexOf(colors, if c.Some? then c.value else Default);
    ModSucc(i, |colors|);
    colors[(i + 1) % |colors|]
  }

  /** handleColorCycle: when cycling is enabled, the tools with the id take the next colour. */
  function Cycled(tools: seq<ToolItem>, id: string, settings: HubMenuSettings): (r: seq<ToolItem>)
    ensures !settings.enableColorCycling ==> r == tools
    ensures |r| == |tools|
    ensures forall i :: 0 <= i < |tools| && tools[i].id != id ==> r[i] == tools[i]
    ensures settings.enableColorCycling ==>
              forall i :: 0 <= i < |tools| && tools[i].id == id ==>
                r[i] == tools[i].(color := Some(NextColor(CycleColors(settings.preferredColors), tools[i].color)))
  {
    if !settings.enableColorCycling then tools
    else
      var colors := CycleColors(settings.preferredColors);
      seq(|tools|, i requires 0 <= i < |tools| =>
        if tools[i].id == id then tools[i].(color := Some(NextColor(colors, tools[i].color))) else tools[i])
  }

  /** With the default preferences the cycle is default, blue, green, red, default. */
  lemma DefaultCycle()
    ensures var colors := CycleColors(DefaultHubSettings().preferredColors);
      && NextColor(colors, None) == Blue
      && NextColor(colors, Some(Blue)) == Green
      && NextColor(colors, Some(Green)) == Red
      && NextColor(colors, Some(Red)) == Default
  {
    var colors := CycleColors(DefaultHubSettings().preferredColors);
    assert colors == [Default, Blue, Green, Red];
    assert Distinct(colors);
    assert NextColor(colors, None) == Blue by {
      NextOf(colors, 0);
    }
    assert NextColor(colors, Some(Blue)) == Green by {
      NextOf(colors, 1);
    }
    assert NextColor(colors, Some(Green)) == Red by {
      NextOf(colors, 2);
    }
    assert NextColor(colors, Some(Red)) == Default by {
      NextOf(colors, 3);
    }
  }

  /** `k` clicks of colour cycling. */
  function Clicks(colors: seq<HexagonColor>, c: HexagonColor, k: nat): HexagonColor
    requires |colors| > 0
  {
    if k == 0 then c else NextColor(colors, Some(Clicks(colors, c, k - 1)))
  }

  predicate Distinct(colors: seq<HexagonColor>)
  {
    forall i, j :: 0 <= i < j < |colors| ==> colors[i] != colors[j]
  }

  /**
   * When the cycle has no repeated colour, clicking walks through it in order
   * from its first colour, and as many clicks as there are colours bring the
   * hexagon back to that colour.
   */
  lemma IndexOfDistinct(colors: seq<HexagonColor>, j: int)
    requires Distinct(colors) && 0 <= j < |colors|
    ensures Seqs.IndexOf(colors, colors[j]) == j
  {
    var i := Seqs.IndexOf(colors, colors[j]);
    assert colors[j] in colors;
    assert colors[i] == colors[j];
  }

  /** In a cycle without repeats, the colour after the one at `j` is the one at `j + 1`, wrapping round. */
  lemma NextOf(colors: seq<HexagonColor>, j: int)
    requires Distinct(colors) && 0 <= j < |colors|
    ensures NextColor(colors, Some(colors[j])) == colors[if j + 1 < |colors| then j + 1 else 0]
    ensures colors[j] == Default ==> NextColor(colors, None) == colors[if j + 1 < |colors| then j + 1 else 0]
  {
    IndexOfDistinct(colors, j);
    assert colors[j] in colors;
  }

  lemma {:induction false} CycleWalks(colors: seq<HexagonColor>, k: nat)
    requires |colors| > 0 && Distinct(colors) && k <= |colors|
    ensures Clicks(colors, colors[0], k) == colors[if k < |colors| then k else 0]
  {
    if k > 0 {
      CycleWalks(colors, k - 1);
      var prev := Clicks(colors, colors[0], k - 1);
      assert prev == colors[k - 1];
      assert Clicks(colors, colors[0], k) == NextColor(colors, Some(prev));
      NextOf(colors, k - 1);
    }
  }

  /** As many clicks as there are colours (without repeats) bring a hexagon back to default. */
  lemma CycleReturns(preferred: seq<HexagonColor>)
    requires Distinct(CycleColors(preferred))
    ensures Clicks(CycleColors(preferred), Default, |CycleColors(preferred)|) == Default
  {
    CycleWalks(CycleColors(preferred), |CycleColors(preferred)|);
  }

  // ---------------------------------------------------------------------
  // Ring layout
  // ---------------------------------------------------------------------

  /** A hexagon's place in the layout: its ring (1 innermost) and index in that ring. */
  datatype HexSlot = HexSlot(ring: nat, indexInRing: nat)

  /** Ring r holds 6·r hexagons, so ring r starts after 6·(1 + ... + (r-1)) of them. */
  function RingStart(ring: nat): nat
  {
    if ring <= 1 then 0 else RingStart(ring - 1) + 6 * (ring - 1)
  }

  /** The slot of the k-th hexagon when rings of 6, 12 and 18 are filled in order. */
  function RingSlot(k: nat): HexSlot
  {
    if k < 6 then HexSlot(1, k) else if k < 18 then HexSlot(2, k - 6) else HexSlot(3, k - 18)
  }

  /** Index `i` of ring `ring` is the hexagon numbered RingStart(ring) + i. */
  lemma RingSlotAt(ring: nat, i: nat)
    requires 1 <= ring <= 3 && i < 6 * ring
    ensures RingSlot(RingStart(ring) + i) == HexSlot(ring, i)
    ensures RingStart(ring + 1) == RingStart(ring) + 6 * ring
  {
    if ring == 2 {
      assert RingStart(2) == 6;
    } else if ring == 3 {
      assert RingStart(3) == 18;
    }
  }

  /**
   * getBeehivePositions: up to seven hexagons share the first ring; more fill
   * rings of 6, 12 and 18, so at most 36 are placed.
   */
  function BeehiveLayout(total: nat): seq<HexSlot>
  {
    if total <= 7 then seq(total, i requires 0 <= i => HexSlot(1, i))
    else seq(if total < 36 then total else 36, k requires 0 <= k => RingSlot(k))
  }

  /**
   * The layout places every hexagon up to 36, in distinct slots, ring by
   * ring, each within its ring's capacity (seven share the first ring when
   * there are at most seven).
   */
  lemma BeehiveShape(total: nat)
    ensures var l := BeehiveLayout(total);
      && |l| == (if total < 36 then total else 36)
      && (forall k :: 0 <= k < |l| ==> 1 <= l[k].ring <= 3)
      && (forall k :: 0 <= k < |l| ==> l[k].indexInRing < (if total <= 7 then 7 else 6 * l[k].ring))
      && (forall i, j :: 0 <= i < j < |l| ==> l[i].ring <= l[j].ring && l[i] != l[j])
  {
  }

  method BeehivePositions(total: nat) returns (positions: seq<HexSlot>)
    ensures positions == BeehiveLayout(total)
  {
    positions := [];
    if total == 0 {
      return;
    }
    if total <= 7 {
      var i := 0;
      while i < total
        invariant 0 <= i <= total
        invariant positions == seq(i, k requires 0 <= k => HexSlot(1, k))
      {
        positions := positions + [HexSlot(1, i)];
        i := i + 1;
      }
      return;
    }
    var current := 0;
    var ring := 1;
    while current < total && ring <= 3
      invariant 1 <= ring <= 4
      invariant current == (if total < RingStart(ring) then total else RingStart(ring))
      invariant positions == seq(current, k requires 0 <= k => RingSlot(k))
      decreases 4 - ring
    {
      var inRing := if ring == 1 then 6 else 6 * ring;
      assert current == RingStart(ring);
      var i := 0;
      while i < inRing && current < total
        invariant 0 <= i <= inRing
        invariant current == RingStart(ring) + i <= total
        invariant positions == seq(current, k requires 0 <= k => RingSlot(k))
      {
        RingSlotAt(ring, i);
        positions := positions + [HexSlot(ring, i)];
        current := current + 1;
        i := i + 1;
      }
      ring := ring + 1;
    }
  }

  // ---------------------------------------------------------------------
  // Clicking a hexagon
  // ---------------------------------------------------------------------

  datatype ClickOutcome = AddSlot | AtCapacity | OpenSettings | Launch(appId: string) | HideOnly

  /** The launcher ids of the built-in tools. */
  function SystemApp(toolId: string): Option<string>
  {
    if toolId == "calculator" then Some("system-calculator")
    else if toolId == "notepad" then Some("system-notepad")
    else if toolId == "browser" then Some("detected-google-chrome")
    else if toolId == "files" then Some("system-file-explorer")
    else if toolId == "snipping-tool" then Some("system-snipping-tool")
    else None
  }

  /**
   * handleSegmentClick: the add button adds an empty slot unless the list is
   * at capacity, the settings hexagon opens the settings, a built-in tool
   * launches its application, anything else just hides the menu.
   */
  function ClickOutcomeOf(toolId: string, count: int, maxHexagons: int): (r: ClickOutcome)
    ensures r == AddSlot <==> toolId == "add-new" && count < maxHexagons
    ensures r == AtCapacity <==> toolId == "add-new" && count >= maxHexagons
    ensures r.Launch? ==> SystemApp(toolId) == Some(r.appId)
    ensures toolId != "add-new" ==> (r == OpenSettings <==> toolId == "settings")
    ensures toolId != "add-new" && toolId != "settings" ==>
              r == (if SystemApp(toolId).Some? then Launch(SystemApp(toolId).value) else HideOnly)
  {
    if toolId == "add-new" then (if count >= maxHexagons then AtCapacity else AddSlot)
    else if toolId == "settings" then OpenSettings
    else
      match SystemApp(toolId)
      case Some(app) => Launch(app)
      case None => HideOnly
  }

  // ---------------------------------------------------------------------
  // The menu's tool list
  // ---------------------------------------------------------------------

  class HubMenu {
    var tools: seq<ToolItem>
    /** Nothing in the menu changes these; they stay the defaults. */
    var settings: HubMenuSettings

    constructor ()
      ensures tools == DefaultTools() && settings == DefaultHubSettings()
    {
      tools := DefaultTools();
      settings := DefaultHubSettings();
    }

    method CreateEmptySlot(stamp: nat)
      modifies this
      ensures tools == WithNewItem(old(tools), EmptySlot(stamp), settings.maxHexagons)
      ensures settings == old(settings)
    {
      if |tools| >= settings.maxHexagons {
        return;
      }
      tools := InsertBeforeAdd(tools, EmptySlot(stamp));
    }

    method SegmentClick(toolId: string, stamp: nat) returns (outcome: ClickOutcome)
      modifies this
      ensures outcome == ClickOutcomeOf(toolId, |old(tools)|, settings.maxHexagons)
      ensures outcome == AddSlot ==> tools == WithNewItem(old(tools), EmptySlot(stamp), settings.maxHexagons)
      ensures outcome != AddSlot ==> tools == old(tools)
      ensures settings == old(settings)
    {
      outcome := ClickOutcomeOf(toolId, |tools|, settings.maxHexagons);
      if outcome == AddSlot {
        CreateEmptySlot(stamp);
      }
    }

    /** handleBrowseForApplication and handleAppDropped once the service has stored the application. */
    method AddApplication(app: ExternalApplication, target: Option<string>)
      modifies this
      ensures tools == Placed(old(tools), ToolFor(app), target, settings.maxHexagons)
      ensures settings == old(settings)
    {
      var item := ToolFor(app);
      if target.Some? && target.value != "" {
        tools := ReplaceId(tools, target.value, item);
      } else if |tools| < settings.maxHexagons {
        tools := InsertBeforeAdd(tools, item);
      }
    }

    /**
     * handleRemoveTool: the result says whether the application service must
     * also forget the tool, i.e. whether `removeCustomApplication(id)` is called.
     */
    method RemoveTool(id: string) returns (removedFromBackend: bool)
      modifies this
      ensures removedFromBackend == RemovesCustomApp(old(tools), id)
      ensures tools == Removed(old(tools), id)
      ensures settings == old(settings)
    {
      var found := Seqs.Find(tools, (tool: ToolItem) => tool.id == id);
      removedFromBackend := found.Some? && IsCustomExternal(found.value);
      tools := Removed(tools, id);
    }

    method ColorCycle(id: string)
      modifies this
      ensures tools == Cycled(old(tools), id, settings)
      ensures settings == old(settings)
    {
      tools := Cycled(tools, id, settings);
    }
  }
}
