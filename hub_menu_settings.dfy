/**
 * The hub menu settings panel (src/components/HubMenuSettings.tsx). Each
 * handler builds a new settings value from the current one, makes it the
 * panel's state and reports that same value to the owner, so a handler is
 * modelled as a function from the current settings to the new ones.
 */
module HubSettingsPanel {
  import opened HubTypes
  import Seqs

  function IsNot(c: HexagonColor): HexagonColor -> bool
  {
    (d: HexagonColor) => d != c
  }

  /**
   * handleColorToggle: a preferred colour is removed (every occurrence of
   * it); any other colour is appended to the preferred list. Nothing else
   * changes.
   */
  function Toggled(s: HubMenuSettings, c: HexagonColor): (r: HubMenuSettings)
    ensures r == s.(preferredColors := r.preferredColors)
    ensures c in r.preferredColors <==> c !in s.preferredColors
    ensures forall d :: d != c ==> (d in r.preferredColors <==> d in s.preferredColors)
    ensures c in s.preferredColors ==> Seqs.IsSubsequence(r.preferredColors, s.preferredColors)
    ensures c !in s.preferredColors ==> r.preferredColors == s.preferredColors + [c]
  {
    if c in s.preferredColors then
      var kept := Seqs.Filter(s.preferredColors, IsNot(c));
      Seqs.FilterIsSubsequence(s.preferredColors, IsNot(c));
      assert forall d :: d != c && d in s.preferredColors ==> IsNot(c)(d);
      s.(preferredColors := kept)
    else
      s.(preferredColors := s.preferredColors + [c])
  }

  /** Toggling a colour that is not preferred twice gives the settings back. */
  lemma ToggleAbsentTwice(s: HubMenuSettings, c: HexagonColor)
    requires c !in s.preferredColors
    ensures Toggled(Toggled(s, c), c) == s
  {
    var p := s.preferredColors;
    assert c in p + [c];
    Seqs.FilterAppend(p, [c], IsNot(c));
    Seqs.FilterKeepsAll(p, IsNot(c));
    Seqs.FilterKeepsNone([c], IsNot(c));
  }

  /**
   * Toggling a preferred colour twice does not give the settings back: every
   * occurrence is dropped and one is appended at the end, so the colour
   * moves to the back of the list.
   */
  lemma TogglePresentTwice(s: HubMenuSettings, c: HexagonColor)
    requires c in s.preferredColors
    ensures Toggled(Toggled(s, c), c).preferredColors == Seqs.Filter(s.preferredColors, IsNot(c)) + [c]
  {
  }

  /** The settings the panel's controls edit. */
  datatype Key = Opacity | HideDelay | Size | Layout | Cycling | Labels | MaxHexagons

  /** What a control writes: one key with a value of that key's type. */
  datatype Change =
    | SetOpacity(opacity: real)
    | SetHideDelay(delay: int)
    | SetSize(size: HexagonSize)
    | SetLayout(layout: LayoutStyle)
    | SetCycling(cycling: bool)
    | SetLabels(labels: bool)
    | SetMaxHexagons(max: int)

  function KeyOf(ch: Change): Key
  {
    match ch
    case SetOpacity(_) => Opacity
    case SetHideDelay(_) => HideDelay
    case SetSize(_) => Size
    case SetLayout(_) => Layout
    case SetCycling(_) => Cycling
    case SetLabels(_) => Labels
    case SetMaxHexagons(_) => MaxHexagons
  }

  /** The current value of one key, in the form a control writes it. */
  function Field(s: HubMenuSettings, k: Key): Change
  {
    match k
    case Opacity => SetOpacity(s.menuOpacity)
    case HideDelay => SetHideDelay(s.autoHideDelay)
    case Size => SetSize(s.hexagonSize)
    case Layout => SetLayout(s.layoutStyle)
    case Cycling => SetCycling(s.enableColorCycling)
    case Labels => SetLabels(s.showLabels)
    case MaxHexagons => SetMaxHexagons(s.maxHexagons)
  }

  /** handleSliderChange: the settings with one key replaced. */
  function Applied(s: HubMenuSettings, ch: Change): (r: HubMenuSettings)
    ensures r.availableColors == s.availableColors && r.preferredColors == s.preferredColors
    ensures r.customApplications == s.customApplications && r.enableDragAndDrop == s.enableDragAndDrop
  {
    match ch
    case SetOpacity(v) => s.(menuOpacity := v)
    case SetHideDelay(v) => s.(autoHideDelay := v)
    case SetSize(v) => s.(hexagonSize := v)
    case SetLayout(v) => s.(layoutStyle := v)
    case SetCycling(v) => s.(enableColorCycling := v)
    case SetLabels(v) => s.(showLabels := v)
    case SetMaxHexagons(v) => s.(maxHexagons := v)
  }

  /**
   * A control change is a write of one key: reading that key afterwards
   * gives the written value, every other key reads as before, and the
   * colours, custom applications and drag-and-drop flag are untouched.
   */
  lemma AppliedWritesOneKey(s: HubMenuSettings, ch: Change, k: Key)
    ensures Field(Applied(s, ch), KeyOf(ch)) == ch
    ensures k != KeyOf(ch) ==> Field(Applied(s, ch), k) == Field(s, k)
  {
  }

  /** Writing a key's current value changes nothing. */
  lemma ApplyCurrentValue(s: HubMenuSettings, k: Key)
    ensures Applied(s, Field(s, k)) == s
  {
  }

  /** The slider ranges: opacity 0.1 to 1, hide delay 100 to 2000 ms, 6 to 19 hexagons. */
  predicate InSliderRanges(s: HubMenuSettings)
  {
    && 0.1 <= s.menuOpacity <= 1.0
    && 100 <= s.autoHideDelay <= 2000 && s.autoHideDelay % 100 == 0
    && 6 <= s.maxHexagons <= 19
  }

  /** resetToDefaults: the fixed defaults, whatever the current settings. */
  function Reset(s: HubMenuSettings): (r: HubMenuSettings)
    ensures r.preferredColors == [Blue, Green, Red]
    ensures r.maxHexagons == 19 && r.autoHideDelay == 300 && r.menuOpacity == 0.8
    ensures r.customApplications == []
    ensures InSliderRanges(r)
    ensures forall i :: 0 <= i < |r.preferredColors| ==> r.preferredColors[i] in r.availableColors
  {
    DefaultHubSettings()
  }

  /** Every control keeps a settings value within the slider ranges when its value is one the control offers. */
  lemma AppliedKeepsRanges(s: HubMenuSettings, ch: Change)
    requires InSliderRanges(s)
    requires ch.SetOpacity? ==> 0.1 <= ch.opacity <= 1.0
    requires ch.SetHideDelay? ==> 100 <= ch.delay <= 2000 && ch.delay % 100 == 0
    requires ch.SetMaxHexagons? ==> 6 <= ch.max <= 19
    ensures InSliderRanges(Applied(s, ch))
  {
  }
}
