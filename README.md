# Screenshot annotation editor: a verified model

This project models, in Dafny, the decision logic of an Electron/React
screenshot-annotation application. A user captures an image and draws
annotations on it: pen and highlighter strokes, arrows, rectangles, ellipses,
numbered steps, text boxes, spot blurs and focus rectangles. A radial "hub"
menu launches applications.

The model covers these parts:

- **The annotation editor** (`src/App.tsx`):
  - the mapping from mouse coordinates to canvas pixels;
  - the mouse-down/move/up gesture state machine, and the commit thresholds of each tool;
  - the annotation list with its undo history (clear and undo), and the reset on a new capture;
  - bounds (`calculatePointsBounds`, `getAnnotationBounds`, the estimate branch of `getTextBounds`);
  - hit-testing (`isPointInsideRect`, `isPointNearLine`, `isPointNearPolyline`, `isPointInsideAnnotation`) and the select-tool search;
  - which annotations a redraw paints under focus rectangles, the rule that spot blurs are painted last, and the selection outline;
  - the keyboard handler that edits the text being typed.
- **The hub menu's tool list** (`src/components/RadialMenu.tsx`):
  - the capacity check, and the placement of a new item before the add button;
  - empty slots, replacing a target slot, removal and colour cycling;
  - the ring structure of the beehive layout.
- **The application registry** (`src/services/applicationService.ts`):
  - the id-keyed map of custom applications, with adding and removing;
  - merging with detected applications, deduplicated by path;
  - detected-application ids, and the first-match icon classifier.
- **The settings dialogs** (`src/components/SettingsModal.tsx`, `src/components/HubMenuSettings.tsx`):
  - input processing with `parseInt`;
  - the JPEG-quality clamp on blur;
  - the changed-keys diff on save;
  - colour toggling, slider writes and reset to defaults.
- **The drop zone** (`src/components/AppDropZone.tsx`): the executable tests, uri-list parsing and name derivation.
- **The region selector** (`src/capture.tsx`) and the **window picker** (`src/components/WindowSelector.tsx`).

Code that works by pure expressions is modelled as functions and lemmas.
Handlers that update component state step by step are methods on classes:

- `Editor.Editor`
- `RadialMenu.HubMenu`
- `Applications.ApplicationService`
- `SettingsModal.Dialog`
- `Capture.SelectionWindow`

Each method is specified by a function of the old state, and the properties are proved about that function. The loops of `isPointNearPolyline` and `getBeehivePositions` are methods with loop invariants, proved equal to their specifications.

Each module has its own file:

- `wrappers.dfy` (`Wrappers`): the `Option` type
- `seqs.dfy` (`Seqs`): `filter`, `find` and `indexOf`
- `strings.dfy` (`Strings`): `trim`, `split`, `toLowerCase` (ASCII only) and `parseInt`
- `annotations.dfy` (`Annotations`): the annotation union and the size tables
- `hub_types.dfy` (`HubTypes`): the hub menu types
- the other files hold the module of the same name: `geometry.dfy`, `render.dfy`, `editor.dfy`, `radial_menu.dfy`, `application_service.dfy`, `settings_modal.dfy`, `hub_menu_settings.dfy` (`HubSettingsPanel`), `app_drop_zone.dfy`, `capture.dfy`, `window_selector.dfy`

Coordinates are real numbers. `Math.hypot(dx, dy) <= t` is written as a comparison of squared distances, `t >= 0 && dx*dx + dy*dy <= t*t`, which is the same test for every `t`.

## Model

| member | source | states |
|---|---|---|
| Seqs.Filter | src/App.tsx:2323-2348 | `Array.prototype.filter`: the result keeps exactly the elements satisfying the test, drawn from the input |
| Seqs.FilterKeepsAll | src/components/WindowSelector.tsx:121-123 | a filter returns the whole list exactly when every element passes |
| Seqs.FilterKeepsNone | src/components/WindowSelector.tsx:132-133 | a filter returns [] exactly when no element passes |
| Seqs.FilterFilter | src/App.tsx:2343-2348 | filtering twice is filtering by the conjunction |
| Seqs.FilterPartition | src/App.tsx:2343-2348 | the kept and the dropped elements together are a permutation of the list |
| Seqs.FilterIsSubsequence | src/App.tsx:2343-2348 | a filter keeps the relative order of what it keeps |
| Seqs.FilterAppend | src/App.tsx:2343-2348 | filtering distributes over concatenation |
| Seqs.FilterIndex | src/components/WindowSelector.tsx:121-123 | the element at position k of a filtered list is the input element with exactly k kept elements before it |
| Seqs.Find | src/components/RadialMenu.tsx:423 | `Array.prototype.find`: some value exactly when some element passes, and the value is such an element |
| Seqs.IndexOf | src/components/RadialMenu.tsx:603 | `indexOf`: -1 exactly when absent; otherwise the first index that holds the value |
| Strings.LowerChar | src/services/applicationService.ts:295 | a lower-cased character is never upper case, and other characters are unchanged |
| Strings.Lower | src/services/applicationService.ts:295-296 | `toLowerCase` keeps the length and lower-cases each character |
| Strings.LowerIdempotent | src/services/applicationService.ts:295-296 | lower-casing twice is lower-casing once |
| Strings.TrimStart | src/components/AppDropZone.tsx:72 | the result is a suffix; all that was removed is white space; it does not start with white space; it is empty exactly when the text is all white space |
| Strings.TrimEnd | src/components/AppDropZone.tsx:72 | the mirror image of TrimStart, at the end |
| Strings.Trim | src/components/AppDropZone.tsx:72 | `trim()`: the text with a white-space prefix and a white-space suffix removed, leaving no white space at either end; empty exactly when the text is blank |
| Strings.TrimIdempotent | src/components/AppDropZone.tsx:72 | trimming trimmed text changes nothing |
| Strings.Split | src/components/AppDropZone.tsx:68-69 | `split`: at least one piece; no piece contains a separator; with one piece, that piece is the text |
| Strings.SplitJoin | src/components/AppDropZone.tsx:68-69 | splitting at a character and joining with it gives back the text |
| Strings.SplitCount | src/App.tsx:1685 | splitting at a character gives one more piece than there are occurrences of it |
| Strings.LastSegment | src/components/AppDropZone.tsx:77 | `split(/[/\\]/).pop()`: a suffix free of separators, preceded by a separator unless it is the whole text |
| Strings.ParseInt | src/components/SettingsModal.tsx:54 | `parseInt(s, 10)`: NaN exactly when no digit follows the leading white space and the optional sign; otherwise the value of that digit run, negated or not; a number only when the text holds a digit, and a negative one only when it holds a minus sign |
| Strings.TrimStartAfterSpace | src/components/SettingsModal.tsx:54 | the white space `parseInt` skips is exactly a leading run of white space |
| Strings.ParseAfterSpace | src/components/SettingsModal.tsx:54 | leading white space does not change what `parseInt` reads (`" 42"` reads as `"42"`) |
| Strings.ParsePlusDigits | src/components/SettingsModal.tsx:54 | a leading `+` is read and dropped: `parseInt("+" + digits + rest)` is the digits' value |
| Strings.ParseSigned | src/components/SettingsModal.tsx:54 | after the white space, NaN exactly when no digit follows the optional sign; the sign decides the sign of the value |
| Strings.ParseDigits | src/components/SettingsModal.tsx:54-56 | `parseInt` reads a run of digits up to the first non-digit |
| Strings.ParseNegatedDigits | src/components/SettingsModal.tsx:54-56 | `parseInt` reads a minus sign followed by a run of digits as the negated value |
| Strings.ParseIntRoundTrip | src/components/SettingsModal.tsx:54-56 | `parseInt(String(n) + rest) == n` when `rest` does not start with a digit |
| Strings.BlankIsNaN | src/components/SettingsModal.tsx:76-79 | blank text parses to NaN |
| Geometry.ToCanvas | src/App.tsx:569-574 | the canvas point times the on-screen size equals the client offset times the canvas size, for each axis |
| Geometry.ToCanvasRoundTrip | src/App.tsx:569-574 | mapping a client point to canvas pixels and back gives the point |
| Geometry.RelativeCoords | src/App.tsx:1648-1663 | `getRelativeCoords`: the client offset from the container, shifted by the scroll offset |
| Geometry.MappingsAgreeUnscaled | src/App.tsx:1659-1660 | with no scroll and an unscaled canvas, the two mappings agree |
| Geometry.PointsBounds | src/App.tsx:1521-1537 | null exactly for no points; otherwise the box holds every point and each of its four edges is reached by some point |
| Geometry.LongestLine | src/App.tsx:1686-1688 | the maximum line length: no line is longer, and some line has it |
| Geometry.TextBounds | src/App.tsx:1680-1695 | the estimated text box: it starts 0.8 line heights above the baseline; one line height per line; as wide as the widest line at the per-size character width |
| Geometry.AnnotationBounds | src/App.tsx:1724-1805 | `getAnnotationBounds` is null exactly for a stroke without points |
| Geometry.StrokeBounds | src/App.tsx:1730-1742 | a stroke's box holds every point with half the stroke width to spare, the spot-blur brush defaulting to 10, and each side is reached |
| Geometry.StepBounds | src/App.tsx:1771-1777 | a step's box is the 2·radius square centred on it |
| Geometry.ShapeBounds | src/App.tsx:1755-1802 | rectangles and ellipses are grown by half the line width; a focus rectangle is returned unpadded |
| Geometry.InsideRect | src/App.tsx:1539-1552 | `isPointInsideRect`: the closed box, edges included |
| Geometry.NearLine | src/App.tsx:1554-1581 | `isPointNearLine`: the distance from the point to the closest point of the segment (its start point for a zero-length segment) is at most the threshold |
| Geometry.NearPolyline | src/App.tsx:1583-1604 | `isPointNearPolyline`: false for fewer than two points; otherwise some consecutive segment is near |
| Geometry.ProjectionOfSegmentPoint | src/App.tsx:1562-1568 | a point of a segment projects back to its own parameter |
| Geometry.ClosestOnSegment | src/App.tsx:1562-1579 | the closest point of a segment to one of its own points is that point |
| Geometry.OnSegmentIsNear | src/App.tsx:1554-1581 | every point of a segment, including a zero-length one, is near it for every threshold >= 0 |
| Geometry.NearLineMonotone | src/App.tsx:1554-1581 | raising the threshold never loses a point |
| Geometry.ScanPolyline | src/App.tsx:1583-1604 | the loop returns true exactly when there are at least two points and some consecutive segment is near |
| Geometry.StrokeHit | src/App.tsx:1820-1826 | the pen and highlighter test: near the path by max(threshold, width/2) |
| Geometry.RectangleHit | src/App.tsx:1846-1867 | the rectangle test: inside the box, or in a band of half-width max(threshold, lineWidth/2) about one of its edges |
| Geometry.EllipseHit | src/App.tsx:1868-1888 | the ellipse test: inside, or between the ellipses grown and shrunk by max(threshold, lineWidth/2), with no inner edge once a shrunk radius reaches 0 |
| Geometry.HitTest | src/App.tsx:1811-1918 | `isPointInsideAnnotation`: the per-kind test; steps within radius + threshold of the centre; text and focus rectangles inside their box; spot blurs with a brush of 10 by default |
| Geometry.WellFormedMeasurable | src/App.tsx:1352-1356 | every committed ellipse has positive radii, so the ellipse test never divides by zero |
| Geometry.OnPolylineIsNear | src/App.tsx:1583-1604 | every point on every segment of a polyline is near it |
| Geometry.StrokeHitOnPolyline | src/App.tsx:1820-1826 | every point on a stroke's path hits the stroke, for any threshold >= 0 |
| Geometry.StrokeHitMonotone | src/App.tsx:1820-1835 | a larger threshold never loses a hit on a stroke or an arrow |
| Geometry.RectangleHitRegion | src/App.tsx:1846-1867 | a rectangle is hit exactly in its box grown by max(threshold, lineWidth/2) on every side |
| Geometry.StepHitRegion | src/App.tsx:1889-1892 | a step is hit exactly within distance radius + threshold of its centre |
| Geometry.EllipseCentreHits | src/App.tsx:1868-1872 | an ellipse's centre always hits it |
| Geometry.EllipseNormBound | src/App.tsx:1872 | inside an ellipse, each coordinate offset is within its radius |
| Geometry.EllipseHitWithinGrownBox | src/App.tsx:1868-1888 | nothing outside the ellipse's box grown by max(threshold, lineWidth/2) hits it |
| Geometry.TopmostHit | src/App.tsx:2450-2454 | the result, if any, is the last non-focus annotation that is hit; with none, no non-focus annotation is hit |
| Geometry.SelectToolClick | src/App.tsx:2444-2470 | nothing happens for a tool other than select; with it, the selection is the topmost hit non-focus annotation (TopmostHit) and the drag offset is the click minus the corner of its bounds; the selection is cleared exactly when nothing is hit |
| Render.Visible | src/App.tsx:2323-2340 | the first filter: never a focus rectangle; with focus rectangles present, only an annotation whose bounds lie inside one of them |
| Render.Step1 | src/App.tsx:2323-2340 | `annotationsToRenderStep1`: the visible annotations in list order |
| Render.PaintOrder | src/App.tsx:2343-2382 | the first pass (all but spot blurs) followed by the spot blurs |
| Render.PaintedIffVisible | src/App.tsx:2323-2340 | an annotation is painted exactly when it passes the first filter |
| Render.FocusRectsNeverPainted | src/App.tsx:2324 | focus rectangles are never painted |
| Render.PaintedInsideFocus | src/App.tsx:2327-2338 | with any focus rectangle present, every painted annotation has bounds lying inside some focus rectangle |
| Render.NoFocusPaintsAll | src/App.tsx:2339 | without focus rectangles every annotation passes the first filter |
| Render.SpotBlursLast | src/App.tsx:2342-2382 | the paint order is the non-blurs then the spot blurs, each in list order, and is a permutation of the filtered list |
| Render.Outlined | src/App.tsx:2386-2394 | with no selection, none; otherwise the first first-pass annotation with the selected id, and only when there is none the first spot blur with it; none when neither has it |
| Render.OutlinedIsPainted | src/App.tsx:2386-2394 | the outlined annotation is painted; with none, no painted annotation has the selected id |
| Render.SelectionOutline | src/App.tsx:2396-2411 | the outline is the outlined annotation's bounds grown by 3 on every side; there is none for text, for no selection, or without bounds |
| Render.TextNeverOutlined | src/App.tsx:2396 | a selected text annotation never gets an outline |
| Editor.Valid | src/App.tsx:157-206 | the invariant of the editor state: all annotations and history snapshots well formed, step counter at least 1, a gesture has a start point, editing has a selection |
| Editor.StartsGesture | src/App.tsx:579-648 | mouse-down starts a gesture for the pen, highlighter, blur, text, arrow, rectangle and ellipse tools, and not for the step tool |
| Editor.InitialValid | src/App.tsx:157-206 | the initial editor state satisfies the invariant |
| Editor.Started | src/App.tsx:579-641 | mouse-down creates a one-point pen, highlighter or spot-blur stroke, or a step numbered with the counter and with radius 0.8 × font size, and nothing for the other tools |
| Editor.AfterDown | src/App.tsx:564-642 | mouse-down keeps the invariant, records the start position, and starts a gesture exactly for the gesture tools |
| Editor.StepClick | src/App.tsx:623-641 | a step click appends exactly one step, numbered with the counter, and increments the counter by exactly one |
| Editor.Extend | src/App.tsx:682-714 | mouse-move appends the point to the last annotation only when it is a stroke of the current tool's kind; every other annotation is unchanged |
| Editor.AfterMove | src/App.tsx:670-714 | outside a gesture, mouse-move changes nothing; during one, it changes only the list |
| Editor.PenStrokeRecordsPath | src/App.tsx:580-692 | after a pen mouse-down and any moves, the new stroke holds the down point and then every move point, in order |
| Editor.MovesKeepsGesture | src/App.tsx:670-714 | a run of moves changes nothing but the annotation list |
| Editor.DragBox | src/App.tsx:1327-1330 | the dragged box runs from the smaller to the larger coordinate on each axis |
| Editor.Commit | src/App.tsx:1309-1433 | mouse-up commits exactly when the tool's threshold is met (arrow always; rectangle > 5; ellipse radii > 5; text > 30 × 20; focus > 10); the arrow spans the drag; the rectangle is the drag box; the text box is empty and offset by 5 |
| Editor.EllipseInscribed | src/App.tsx:1347-1368 | a committed ellipse is inscribed in the dragged box |
| Editor.DragBoxSymmetric | src/App.tsx:1327-1330 | the box does not depend on the direction of the drag |
| Editor.AfterUp | src/App.tsx:1295-1441 | outside a gesture mouse-up changes nothing; otherwise the gesture ends and the history, counter and tool are kept |
| Editor.DragCommits | src/App.tsx:1309-1433 | a shape drag adds exactly its commit, and adds nothing below the threshold |
| Editor.TextBoxStartsEditing | src/App.tsx:1379-1397 | committing a text box selects it and starts editing it |
| Editor.AfterClear | src/App.tsx:2713-2717 | clear pushes the list onto the history, empties the list and resets the step counter to 1 |
| Editor.AfterUndo | src/App.tsx:2706-2712 | undo with history restores the last snapshot and pops it; undo without history is a no-op |
| Editor.AfterNewCapture | src/App.tsx:259-261 | a new capture empties the list and the history and resets the step counter |
| Editor.UndosIgnoreCounter | src/App.tsx:2706-2712 | undo never touches the step counter |
| Editor.ClearsThenUndos | src/App.tsx:2706-2717 | n clears followed by n undos restore the list and the history, with the counter at 1 |
| Editor.UndoAfterClear | src/App.tsx:2706-2717 | undo right after clear restores the list and the history |
| Editor.UndosPop | src/App.tsx:2706-2712 | n undos pop n snapshots and restore the n-th from the top |
| Editor.ApplyEdit | src/App.tsx:2580-2606 | Backspace removes the last character (empty stays empty); typing appends the character |
| Editor.EditTexts | src/App.tsx:2577-2609 | only the text annotations with the edited id change, each by the edit |
| Editor.AfterKey | src/App.tsx:2566-2610 | outside text editing a key changes nothing; while editing, Backspace deletes the last character of the edited text (EditTexts with DeleteLast), a single-character key without Ctrl or Meta appends that character (EditTexts with Type), and any other key except Enter and Escape changes nothing; keys never touch the history, the counter or the gesture |
| Editor.EditTextsWellFormed | src/App.tsx:2577-2609 | editing text keeps every annotation well formed |
| Editor.EnterEndsEditing | src/App.tsx:2584-2601 | Enter and Escape end editing and clear the selection, keeping the list |
| Editor.TypeThenDelete | src/App.tsx:2577-2609 | typing a character and then deleting it gives back the list |
| Editor.TypeThenBackspace | src/App.tsx:2566-2610 | a typed character followed by Backspace gives back the state |
| Editor.Editor.constructor | src/App.tsx:157-206 | the editor starts with an empty list and history, counter 1, and the pen |
| Editor.Editor.Choose | src/App.tsx:2700-2705 | a toolbar choice changes only the options |
| Editor.Editor.MouseDown | src/App.tsx:564-642 | the new state is AfterDown at the mapped canvas point, and the invariant holds |
| Editor.Editor.MouseMove | src/App.tsx:670-714 | the new state is AfterMove at the mapped canvas point |
| Editor.Editor.MouseUp | src/App.tsx:1295-1441 | the new state is AfterUp at the mapped canvas point; mouse-leave is bound to the same handler |
| Editor.Editor.Undo | src/App.tsx:2706-2712 | the new state is AfterUndo |
| Editor.Editor.Clear | src/App.tsx:2713-2717 | the new state is AfterClear |
| Editor.Editor.NewCapture | src/App.tsx:252-262 | the new state is AfterNewCapture |
| Editor.Editor.KeyDown | src/App.tsx:2555-2612 | the new state is AfterKey |
| RadialMenu.DefaultToolsShape | src/components/RadialMenu.tsx:624-678 | the initial list has seven tools with distinct ids, and its one add button is last |
| RadialMenu.DefaultIdsDistinct | src/components/RadialMenu.tsx:624-678 | the initial tool ids are distinct |
| RadialMenu.DefaultAddButtonLast | src/components/RadialMenu.tsx:624-678 | the initial list's only add button is the last tool |
| RadialMenu.InsertBeforeAdd | src/components/RadialMenu.tsx:421-427 | the non-add items in order, then the new item, then the first add button if there was one |
| RadialMenu.WithNewItem | src/components/RadialMenu.tsx:399-427 | at or above capacity the list is unchanged; below it the item is inserted before the add button |
| RadialMenu.AddButtonsCount | src/components/RadialMenu.tsx:422 | the add buttons and the other items together make up the list |
| RadialMenu.NewItemKeepsAddLast | src/components/RadialMenu.tsx:399-427 | below capacity a new item grows the list by exactly one, never past capacity, and the add button stays last with the item just before it |
| RadialMenu.NewItemBeforeAdd | src/components/RadialMenu.tsx:422-426 | with one add button, the add buttons are unchanged after an insertion |
| RadialMenu.NewItemWithoutAdd | src/components/RadialMenu.tsx:425-427 | with no add button, the item is appended |
| RadialMenu.EmptySlot | src/components/RadialMenu.tsx:408-419 | an empty slot is an empty, removable, default-coloured placeholder |
| RadialMenu.ToolFor | src/components/RadialMenu.tsx:470-479 | an added application's hexagon carries its id, its icon or 📦, and its colour or default |
| RadialMenu.ReplaceId | src/components/RadialMenu.tsx:482-486 | replacing keeps the length; exactly the items with the target id become the new item |
| RadialMenu.Placed | src/components/RadialMenu.tsx:481-505 | a non-empty target replaces in place; otherwise the capacity check and add-button-last insertion apply |
| RadialMenu.ReplaceMissingTarget | src/components/RadialMenu.tsx:482-486 | a target that names no item leaves the list unchanged |
| RadialMenu.Removed | src/components/RadialMenu.tsx:451 | no survivor has the id, and every item with another id survives |
| RadialMenu.RemovedKeepsOrder | src/components/RadialMenu.tsx:451 | survivors keep their order; removing an absent id changes nothing |
| RadialMenu.NextColor | src/components/RadialMenu.tsx:603-605 | the successor of the colour's first occurrence, wrapping; a missing colour counts as default; an unknown colour goes to the first |
| RadialMenu.Cycled | src/components/RadialMenu.tsx:588-615 | disabled cycling changes nothing; otherwise only the tools with the id change, each to the next colour |
| RadialMenu.DefaultCycle | src/components/RadialMenu.tsx:593-605 | with the default preferences, clicks go default → blue → green → red → default |
| RadialMenu.IndexOfDistinct | src/components/RadialMenu.tsx:603 | in a cycle without repeats, `indexOf` finds each colour's own index |
| RadialMenu.NextOf | src/components/RadialMenu.tsx:603-605 | in a cycle without repeats, the colour after position j is the one at j+1, wrapping |
| RadialMenu.CycleWalks | src/components/RadialMenu.tsx:603-605 | k clicks from the first colour reach the k-th colour |
| RadialMenu.CycleReturns | src/components/RadialMenu.tsx:593-605 | as many clicks as there are colours bring a hexagon back to default |
| RadialMenu.RingSlotAt | src/components/RadialMenu.tsx:115-140 | ring r holds 6·r hexagons, numbered after those of the inner rings |
| RadialMenu.BeehiveShape | src/components/RadialMenu.tsx:64-142 | min(n, 36) slots, in distinct places, ring by ring, each within its ring's capacity (seven share ring 1 when n <= 7) |
| RadialMenu.BeehivePositions | src/components/RadialMenu.tsx:64-142 | the loop produces exactly the layout |
| RadialMenu.ClickOutcomeOf | src/components/RadialMenu.tsx:516-569 | "add-new" adds a slot exactly below capacity and is refused at capacity; otherwise "settings" opens the settings, a built-in tool with a mapped application launches that application, and any other id only hides the menu |
| RadialMenu.HubMenu.constructor | src/components/RadialMenu.tsx:624-678 | the menu starts with the default tools and settings |
| RadialMenu.HubMenu.CreateEmptySlot | src/components/RadialMenu.tsx:391-434 | the new list is WithNewItem of an empty slot |
| RadialMenu.HubMenu.SegmentClick | src/components/RadialMenu.tsx:516-577 | the outcome is ClickOutcomeOf; only an accepted add-new changes the list |
| RadialMenu.HubMenu.AddApplication | src/components/RadialMenu.tsx:462-513 | the new list is Placed of the application's hexagon |
| RadialMenu.HubMenu.RemoveTool | src/components/RadialMenu.tsx:437-459 | the new list is Removed, and the returned flag says whether `removeCustomApplication` is called (RemovesCustomApp of the old list) |
| RadialMenu.RemovesCustomApp | src/components/RadialMenu.tsx:440-446 | true exactly when the first tool with the id is external and its application is a custom one |
| RadialMenu.HubMenu.ColorCycle | src/components/RadialMenu.tsx:580-617 | the new list is Cycled |
| Applications.Lookup | src/services/applicationService.ts:205 | `map.get`: found exactly when some entry has the id, and what is found is such an entry |
| Applications.IndexOfId | src/services/applicationService.ts:198 | -1 exactly when no entry has the id; otherwise an index holding it |
| Applications.MapSet | src/services/applicationService.ts:198 | `map.set`: keeps ids distinct; an existing key keeps its place; a new key goes last |
| Applications.MapDelete | src/services/applicationService.ts:207 | `map.delete`: no entry has the id afterwards, and every other entry stays |
| Applications.MapSetLookup | src/services/applicationService.ts:198 | after a set the key maps to the new value, and every other key to what it did |
| Applications.UniqueLookup | src/services/applicationService.ts:205 | with distinct ids, a lookup finds the one entry holding the id |
| Applications.MapDeleteLookup | src/services/applicationService.ts:207 | after a delete the key is gone, every other key maps to what it did, and ids stay distinct |
| Applications.MapDeleteKeeps | src/services/applicationService.ts:207 | deleting one key leaves the lookup of every other key as it was |
| Applications.SubsequenceDistinct | src/services/applicationService.ts:207 | what remains after deletions keeps its ids distinct |
| Applications.Loaded | src/services/applicationService.ts:26-31 | loading the stored applications one `set` at a time gives a map with distinct ids |
| Applications.CustomId | src/services/applicationService.ts:189-191 | a custom id starts with "custom-" |
| Applications.CustomApp | src/services/applicationService.ts:192-196 | the stored record is the supplied data (name, path, arguments, working directory, icon, colour) with the new id and isCustom set |
| Applications.Merged | src/services/applicationService.ts:45-60 | the detected applications come first, in order, and every entry is detected or custom |
| Applications.MergedPaths | src/services/applicationService.ts:50-57 | every custom path is in the merged list, and distinct detected paths stay distinct |
| Applications.AppendNewPath | src/services/applicationService.ts:52-56 | appending an application only when its path is new keeps paths distinct |
| Applications.DashRuns | src/services/applicationService.ts:123 | `replace(/\s+/g, "-")`: no longer than the text, no white space left, only dashes added; text without white space is unchanged |
| Applications.DashRunsOfBlank | src/services/applicationService.ts:123 | a white-space run at the front becomes one dash |
| Applications.DashRunsJoin | src/services/applicationService.ts:123 | each maximal white-space run between two pieces of text becomes exactly one dash |
| Applications.Slug | src/services/applicationService.ts:123 | the id part: no white space and no upper-case letter; a name without white space gives its lower-cased form |
| Applications.SlugJoin | src/services/applicationService.ts:123 | the slug of two words separated by a white-space run is their slugs joined by one dash |
| Applications.SlugIdempotent | src/services/applicationService.ts:123 | slugging a slug changes nothing |
| Applications.DetectedId | src/services/applicationService.ts:117-133 | "system-" plus the slug for a bare command, otherwise "detected-" plus the slug |
| Applications.FirstMatch | src/services/applicationService.ts:294-510 | the index of the first rule that matches, or none when no rule from there on matches |
| Applications.ExtensionIcon | src/services/applicationService.ts:512-523 | .exe gives 💾, .app gives 📱, .bat or .cmd gives ⚡, and anything else gives 📦, tried in that order |
| Applications.IconFor | src/services/applicationService.ts:294-523 | the icon of the first matching rule over the lower-cased name, else the extension fallback |
| Applications.ShadowedMatch | src/services/applicationService.ts:294-510 | a name matching a shadowed rule matches the rule that shadows it |
| Applications.ShadowedNeverFirst | src/services/applicationService.ts:294-510 | a rule shadowed by an earlier one is never the first match |
| Applications.ShadowedBy | src/services/applicationService.ts:294-510 | a later rule each of whose keywords contains an earlier keyword is shadowed |
| Applications.CalculatorRuleUnreachable | src/services/applicationService.ts:456-460 | the 🧮 calculator rule never fires, because "calc" (📊) comes first |
| Applications.PhotoshopRuleUnreachable | src/services/applicationService.ts:369-370 | the photoshop rule never fires, because "photo" comes first |
| Applications.OneDriveRuleUnreachable | src/services/applicationService.ts:485-486 | the onedrive rule never fires, because "drive" comes first |
| Applications.GoogleGetsGlobe | src/services/applicationService.ts:299-300 | any name containing "google" gets 🌐 |
| Applications.ApplicationService.constructor | src/services/applicationService.ts:15-31 | the service starts with the stored applications loaded |
| Applications.ApplicationService.AddCustomApplication | src/services/applicationService.ts:186-202 | returns the record with a custom id, stores it with `set`, and looking it up finds it |
| Applications.ApplicationService.RemoveCustomApplication | src/services/applicationService.ts:204-212 | returns true and deletes exactly when the id is present and custom; otherwise the map is unchanged |
| Applications.ApplicationService.GetInstalledApplications | src/services/applicationService.ts:45-60 | the result is Merged(detected, custom) |
| SettingsModal.Processed | src/components/SettingsModal.tsx:49-62 | checkboxes give their flag; a parseable number field gives the integer; anything else keeps the text |
| SettingsModal.NumberFieldReadsNumeral | src/components/SettingsModal.tsx:53-56 | a number field holding an integer's numeral stores that integer |
| SettingsModal.ClearedNumberFieldIsEmptyText | src/components/SettingsModal.tsx:57-58 | a cleared number field stores "" |
| SettingsModal.Clamp | src/components/SettingsModal.tsx:81 | `Math.max(lo, Math.min(hi, n))`: within range, and n itself when n is in range |
| SettingsModal.BlurredQuality | src/components/SettingsModal.tsx:76-82 | blank or unparseable text falls back to the loaded quality or 90; otherwise the parsed value clamped into 1..100 (`Math.max(1, Math.min(100, n))`) |
| SettingsModal.TypedQualityInRange | src/components/SettingsModal.tsx:76-82 | every typed integer leaves the quality in 1..100 |
| SettingsModal.SavedValue | src/components/SettingsModal.tsx:97-100 | jpegQuality is always read, through `Number`; any other key is defined exactly when present locally |
| SettingsModal.ToNumber | src/components/SettingsModal.tsx:99 | `Number()` gives a number or NaN, and keeps a number |
| SettingsModal.Changes | src/components/SettingsModal.tsx:95-110 | exactly the loaded keys whose local value is defined and `!==` the loaded one, with the local values |
| SettingsModal.UneditedSavesNothing | src/components/SettingsModal.tsx:95-124 | saving unedited settings reports no change |
| SettingsModal.OneEditOneChange | src/components/SettingsModal.tsx:95-110 | one edit reports that key alone, or nothing if the value is unchanged |
| SettingsModal.Dialog.constructor | src/components/SettingsModal.tsx:31 | the local settings start as the loaded ones |
| SettingsModal.Dialog.InputChange | src/components/SettingsModal.tsx:43-69 | only the named key changes, to the processed value |
| SettingsModal.Dialog.JpegQualityBlur | src/components/SettingsModal.tsx:72-88 | only the jpegQuality field reacts, taking BlurredQuality |
| SettingsModal.Dialog.SaveClick | src/components/SettingsModal.tsx:90-126 | saves the changes when there are any, and otherwise only closes |
| HubSettingsPanel.Toggled | src/components/HubMenuSettings.tsx:38-49 | toggling flips the colour's membership and no other colour's; removal keeps the order; an absent colour is appended; other settings are copied |
| HubSettingsPanel.ToggleAbsentTwice | src/components/HubMenuSettings.tsx:39-41 | toggling an absent colour twice restores the settings |
| HubSettingsPanel.TogglePresentTwice | src/components/HubMenuSettings.tsx:39-41 | toggling a present colour twice removes every copy of it and appends one copy at the end |
| HubSettingsPanel.Applied | src/components/HubMenuSettings.tsx:51-61 | a slider change leaves the colours, the custom applications and drag-and-drop untouched |
| HubSettingsPanel.AppliedWritesOneKey | src/components/HubMenuSettings.tsx:55-58 | the written key takes the value, and every other key keeps its value |
| HubSettingsPanel.ApplyCurrentValue | src/components/HubMenuSettings.tsx:55-58 | writing a key's current value changes nothing |
| HubSettingsPanel.Reset | src/components/HubMenuSettings.tsx:12-24 | the defaults: preferred blue, green and red; 19 hexagons; 300 ms; opacity 0.8; within the slider ranges |
| HubSettingsPanel.AppliedKeepsRanges | src/components/HubMenuSettings.tsx:122-268 | a slider value the control offers keeps the settings within the slider ranges |
| AppDropZone.Stripped | src/components/AppDropZone.tsx:52 | the name minus one trailing extension, in any letter case, when it has one; otherwise unchanged |
| AppDropZone.StripAppended | src/components/AppDropZone.tsx:52 | appending an extension in any case and stripping gives the base back |
| AppDropZone.StripOnlyOnce | src/components/AppDropZone.tsx:52 | of two trailing extensions only the last is removed ("setup.exe.exe" becomes "setup.exe") |
| AppDropZone.FileName | src/components/AppDropZone.tsx:77 | the last path segment, or "Unknown App" when it is empty |
| AppDropZone.FileNameOfPath | src/components/AppDropZone.tsx:77 | the segment after the last separator is the file name |
| AppDropZone.DroppedApp | src/components/AppDropZone.tsx:50-57 | a dropped record is custom, with icon 📦 and the default colour |
| AppDropZone.FromFiles | src/components/AppDropZone.tsx:39-59 | an app exactly when the first file has a case-sensitive executable name, named with its extension stripped |
| AppDropZone.FirstEntryOf | src/components/AppDropZone.tsx:68-72 | an entry exactly when some line is neither blank nor a comment |
| AppDropZone.CommentsSkipped | src/components/AppDropZone.tsx:68-72 | comment lines before the first entry are skipped |
| AppDropZone.SplitAtNewline | src/components/AppDropZone.tsx:69 | two lines joined by a newline split into the two lines |
| AppDropZone.NoSeparator | src/components/AppDropZone.tsx:69 | a single line splits into itself |
| AppDropZone.FromUriList | src/components/AppDropZone.tsx:66-90 | no application unless the first entry starts with file://; then a decoding failure is an error, and otherwise the application has the decoded rest as its path and its last segment, with .exe/.app/.bat/.cmd/.lnk stripped, as its name |
| AppDropZone.FromPlainText | src/components/AppDropZone.tsx:94-111 | an app exactly when the text ends in .exe or .app, with the text as the path |
| AppDropZone.Reports | src/components/AppDropZone.tsx:59 | one report with the zone's target per application |
| AppDropZone.TaggedAppend | src/components/AppDropZone.tsx:50-111 | the reports of several branches all carry the zone's tags |
| AppDropZone.Combined | src/components/AppDropZone.tsx:37-114 | the files report, then the uri-list report, then the plain-text report unless decoding failed; at most three, each tagged with the zone's target |
| AppDropZone.Drop | src/components/AppDropZone.tsx:31-117 | a drop reports, in order, the files branch's application, the uri-list branch's, and the plain-text branch's unless the uri-list decoding failed; at most three, each custom with 📦, the default colour and the target |
| AppDropZone.ThreeReports | src/components/AppDropZone.tsx:37-111 | a drop carrying a file, a uri-list entry and a path reports three applications |
| AppDropZone.CombinedThree | src/components/AppDropZone.tsx:37-111 | when all three branches yield an application, all three are reported |
| AppDropZone.CapitalExtensionIgnored | src/components/AppDropZone.tsx:43-52 | a file whose extension has a capital letter ("SETUP.EXE") is refused by the case-sensitive test, though the case-insensitive strip would name it by its base |
| AppDropZone.CapitalNameNotExecutable | src/components/AppDropZone.tsx:43-47 | the executable test holds exactly when the last four characters are one of the extensions as written in lower case |
| AppDropZone.DecodeErrorEndsDrop | src/components/AppDropZone.tsx:76 | a URI decoding error drops the plain-text report |
| Capture.SelectionBounds | src/capture.tsx:29-36 | null unless both points exist; otherwise (min x, min y, \|dx\|, \|dy\|) |
| Capture.BoundsSymmetric | src/capture.tsx:29-36 | the rectangle does not depend on which corner came first |
| Capture.BoundsHoldCorners | src/capture.tsx:29-36 | both corners lie on the rectangle's edges |
| Capture.ReleaseResult | src/capture.tsx:56-62 | the rectangle exactly when it has positive width and height, otherwise a cancel |
| Capture.ClickCancels | src/capture.tsx:39-62 | a click without a drag cancels |
| Capture.DragSelects | src/capture.tsx:39-62 | a drag moving on both axes selects a rectangle |
| Capture.FlatDragCancels | src/capture.tsx:39-62 | a drag along one axis only cancels |
| Capture.SelectionWindow.constructor | src/capture.tsx:7-13 | no drag and no corners at first |
| Capture.SelectionWindow.MouseDown | src/capture.tsx:39-45 | a drag starts with both corners at the mouse position |
| Capture.SelectionWindow.MouseMove | src/capture.tsx:47-50 | during a drag the end corner follows the mouse; otherwise nothing changes |
| Capture.SelectionWindow.MouseUp | src/capture.tsx:52-63 | outside a drag nothing is sent; otherwise the drag ends and ReleaseResult is sent |
| Capture.SelectionWindow.KeyDown | src/capture.tsx:66-71 | Escape sends a cancel; other keys send nothing |
| Capture.Drag | src/capture.tsx:39-63 | a full press-move-release sends the release result of the two points, and a cancel when they coincide |
| WindowSelector.Shown | src/components/WindowSelector.tsx:120-123 | no problematic name is shown; every other source is shown, in order |
| WindowSelector.NothingHiddenWithoutProblems | src/components/WindowSelector.tsx:121-123 | a list with no problematic source is shown unchanged |
| WindowSelector.ViewOf | src/components/WindowSelector.tsx:132-136 | the message exactly when no source is left; otherwise the grid of the shown sources |
| WindowSelector.OnlyProblematicShowsMessage | src/components/WindowSelector.tsx:132-133 | a list made only of the overlay and the desktop shows the message |
| WindowSelector.Clicked | src/components/WindowSelector.tsx:19-24 | clicking grid item k reports the id of the k-th shown source, which is an offered source; nothing past the end of the grid |
| WindowSelector.ClickedIsKthOffered | src/components/WindowSelector.tsx:121-145 | the id reported for item k is that of the source with exactly k offered sources before it in the given list |

## Left out

- Canvas pixel work:
  - drawing the image and the annotations;
  - clip paths, the `blur(...)` filter and the blurred-image cache;
  - `applySpotBlur` and `applyFocusAreaBlur`;
  - the arrow-head trigonometry;
  - the preview redraws inside mouse-move.
  The model states only which annotations a redraw paints and in what order.
- The `measureText` branch of `getTextBounds` (a font-metrics call). Bounds, hit-testing, the focus filter and the selection outline all use the character-width estimate. The application passes a live context there, so for text the model gives the estimate's box, not the measured one.
- Platform and I/O:
  - capture, recording, clipboard, saving and the settings IPC;
  - `captureService.ts` and `manualSettingsStore.ts`;
  - launching, detecting and browsing applications, and `saveApplicationsToSettings`;
  - all preload scripts;
  - the calls that send a selection result, that save settings and that remove a custom application from the service (`removeCustomApplication` in `handleRemoveTool`), which become returned outcome values.
- Time and randomness: `Date.now()` and `Math.random()` become parameters (`stamp`, `now`, `suffix`). Ids are not assumed unique. All three reports of one drop share one stamp. The caret blink, debounce, throttling and the bee animation are left out.
- Floating-point layout: hexagon coordinates, the grid layout and the SVG cursors. Coordinates are exact reals, so rounding is not modelled.
- Editor.Extend: in-place `points.push` on the object shared with the list is modelled as replacing the last element of the list. Aliasing between the live list and history snapshots (one array can be pushed into after being snapshotted) is not modelled.
- Editor.Editor.MouseDown, Editor.Editor.MouseMove, Editor.Editor.MouseUp: require a canvas with positive on-screen size. The source divides by that size with no guard, and a zero size gives non-finite coordinates.
- The text-dragging, select-and-drag translation and scrolling handlers are left out; `handleSelectToolClick` is never bound to an event.
- React batching and stale closures:
  - each handler is modelled as one atomic state step;
  - the add button's action is built once when the menu mounts, so it always calls the first render's `handleSegmentClick`, whose `tools.length` is 0. Its own capacity check never fires for that button; only the slot creator's check on the latest list applies. The resulting list is the same, so `ClickOutcomeOf`'s `AtCapacity` stands for the slot creator's refusal;
  - the drop zone's callback does not list `targetSlotId` among its dependencies, which the model ignores.
- Geometry.TextBounds: the width estimate counts the characters of a line as Unicode scalar values, while `line.length` counts UTF-16 code units. A line holding an emoji or another character outside the Basic Multilingual Plane gets a narrower box in the model than in the source, and that box feeds hit-testing, the focus filter and the selection outline.
- Editor.AfterKey: a string is a sequence of Unicode scalar values here, while `event.key.length === 1` counts UTF-16 code units. A key outside the Basic Multilingual Plane (an emoji) is ignored by the source but typed by the model.
- Editor.ApplyEdit: `slice(0, -1)` removes one UTF-16 code unit, so Backspace after a character outside the Basic Multilingual Plane leaves half a surrogate pair in the source; the model removes the whole character.
- Strings.Lower: lower-cases ASCII A–Z only; other Unicode case mappings are not modelled.
- SettingsModal.ToNumber: `Number()` is modelled for integer numerals, blanks and non-numbers only. Forms such as ".5", "1e3", "0x10" or "Infinity" become NaN in the model.
- SettingsModal.Processed: `parseInt` returns a double, so a numeral above 2^53 loses precision and a very long one becomes Infinity; the model stores the exact integer. After the 1..100 clamp of the quality field this makes no difference.
- The menu's hub settings stay the defaults in RadialMenu.HubMenu.constructor, because the source never updates them. Like the source, the initial tool list is the default tools only; no external applications are loaded into it.
- The drag-over highlight (`isDragOver`) of the drop zone and the selected-window highlight are display state and are left out.
- Behaviour of the code that the model keeps, though a reader might expect otherwise:
  - the history is not capped;
  - only clear pushes a snapshot; drawing a shape or stroke does not;
  - undo right after clear does not restore the step counter;
  - strokes with fewer than two points are kept (drawing skips them);
  - the mouse-coordinate mapping has no zero-size guard;
  - select-mode hit-testing is never triggered by the mouse.
