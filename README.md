# Stream Visibility Tools, modelled in Dafny

Stream Visibility Tools is a Foundry VTT module for streaming a game. One user
is configured as the stream viewer (`targetUser`). That user's client:

- hides chosen parts of the interface;
- moves the camera on its own, framing the player characters when a combat
  ends and panning to the active token on every turn;
- closes journal and actor sheets after a dwell time;
- may show a status panel with one row per visible player character and one
  bar per configured attribute path.

This project models the module's core in Dafny and proves properties of that
model. Modules follow the source files:

- `Settings` — the defaults of the registered settings, `getTargetUser` and
  `isTargetViewer` (`scripts/settings.js`).
- `Camera` — the `canvasReady`, `createCombat`, `deleteCombat` and
  `updateCombat` handlers (`scripts/camera-control.js`). Host calls such as
  `canvas.animatePan` and `ui.combat.renderPopout` are values of a `Command`
  datatype that a handler returns.
- `TrackerApp` — the panel's `getData`, `refresh` and `setPosition`
  (`scripts/status-tracker/tracker-app.js`). The panel is a class whose
  fields are its rendered flag, its rows and its placement.
- `TrackerUi` — the panel lifecycle of `initializeStatusTracker`
  (`scripts/status-tracker/tracker-ui.js`). The closure variable `pcTracker`
  becomes a class field.
- `UiController` — the visibility pass `applyVisibilitySettings`
  (`scripts/ui-controller.js`). The page is a map from element to inline style.
- `AutoClose` — the dwell-time guard `handleAutoClose`
  (`scripts/auto-close.js`). Timers are discrete events.
- `StreamControls` — where the single-file build `scripts/stream-controls.js`
  (version 0.4.0) differs from the modules.

Supporting modules:

- `JsStrings` — JavaScript `split`, `join`, `trim` and the `.value` → `.max`
  rewrite.
- `JsValue` — actor data as a JavaScript value: truthiness, `v[key]`, the
  dotted path walk, and `flattenObject` with its round trip.
- `Canvas` — tokens and the player-character filter.
- `Wrappers` — `Option`.

The source files share some code. The single-file build's camera handlers,
`getTargetUser`, `getData` and `PCStatusTracker` stat derivation are the same
code as the modules' and are modelled once, with rows citing the modules'
copy. In `scripts/stream-controls.js` they are `canvasReady` at lines 299-315,
`createCombat` at 318-340, `deleteCombat` at 343-434, `updateCombat` at
437-483, `getData` at 535-593 and the visibility pass after its gate at 11-79.

Where the code and the documentation differ, the model follows the code:

- A leading space in an attribute path is trimmed for the value walk but not
  for the max walk. `"attributes.hp.value, attributes.ac.value"` therefore
  gets no max for its second path, and shows 100%.
- The four padding settings call `applyVisibilitySettings` when changed, as
  registered in `settings.js`. `tracker-ui.js` replaces those callbacks with
  `setPosition` on the rendered panel, and the model follows the replacement.
- The single-file `shouldShowTracker` reads `targetUser` without checking
  that it is registered. The modules check first.

## Model

| member | source | states |
|---|---|---|
| JsStrings.FirstIndex | scripts/status-tracker/tracker-app.js:50-51 | the index is the first occurrence of the separator in the string |
| JsStrings.Split | scripts/status-tracker/tracker-app.js:50-51 | `split` gives at least one part; no part holds the separator; joining the parts with it gives the string back |
| JsStrings.SplitJoin | scripts/status-tracker/tracker-app.js:59 | splitting a join of separator-free parts gives the parts back |
| JsStrings.JoinAppend | scripts/stream-controls.js:724 | joining one more part appends the separator and that part, which is how `flattenObject` extends a path |
| JsStrings.IsJsWhitespace | scripts/status-tracker/tracker-app.js:59 | the characters `trim` strips; none is a dot, a comma or a dash, the separators paths, settings and positions are split on |
| JsStrings.TrimStart | scripts/status-tracker/tracker-app.js:59 | the result is a suffix of the input; it starts with a non-whitespace character; everything dropped is whitespace |
| JsStrings.TrimEnd | scripts/status-tracker/tracker-app.js:59 | the result is a prefix of the input; it ends with a non-whitespace character; everything dropped is whitespace |
| JsStrings.Trim | scripts/status-tracker/tracker-app.js:59 | the result is no longer than the input, starts and ends with a non-whitespace character or is empty, and a string already starting and ending that way is unchanged |
| JsStrings.TrimDropsOnlyEdgeWhitespace | scripts/status-tracker/tracker-app.js:59 | the trimmed string is the slice of the input after its leading white space, and everything before and after that slice is white space |
| JsStrings.MaxPath | scripts/status-tracker/tracker-app.js:70 | a path ending in `.value` has that suffix replaced by `.max`; any other path is unchanged |
| JsValue.Lookup | scripts/status-tracker/tracker-app.js:66 | a property is missing iff no field has the key; a found value belongs to a field with that key |
| JsValue.LookupDistinct | scripts/stream-controls.js:722-724 | with distinct keys, looking up the key of field `i` gives the value of field `i` |
| JsValue.Get | scripts/status-tracker/tracker-app.js:66 | `obj[key]` on an object is its field or `undefined`; on values that are not objects, arrays or strings it is `undefined` |
| JsValue.Step | scripts/status-tracker/tracker-app.js:65-66 | one step of the loop is the walk of that one part: a falsy value is kept, otherwise its property is taken |
| JsValue.Truthy | scripts/status-tracker/tracker-app.js:65 | a value is falsy iff it is `undefined`, `null`, `false`, 0 or the empty string |
| JsValue.ParseIndex | scripts/status-tracker/tracker-app.js:66 | a key names an array index iff it is a non-empty run of decimal digits without a leading zero (other than "0" itself) |
| JsValue.Resolve | scripts/status-tracker/tracker-app.js:64-67 | the walk of no parts, or from a falsy value, ends where it starts; a one-part walk from a truthy value is one lookup |
| JsValue.ResolveAppend | scripts/status-tracker/tracker-app.js:64-67 | walking one more part takes one more step from where the shorter walk stopped |
| JsValue.ResolveStopsAtFalsy | scripts/status-tracker/tracker-app.js:65 | once the walk meets a falsy value, it ends on that value |
| JsValue.WalkPath | scripts/status-tracker/tracker-app.js:60-67 | the loop that reassigns `obj` and breaks on a falsy value ends on the value the path walk defines |
| JsValue.FlattenObject | scripts/stream-controls.js:720-732 | the recursive loop pushes exactly the records of the flattening, in `for ... in` order, after those already there |
| JsValue.NumericPaths | scripts/stream-controls.js:738 | the filter keeps exactly the records whose value is a number |
| JsValue.DottedPrefixJoin | scripts/stream-controls.js:724-727 | the prefix built while descending, followed by the key, is the dotted join of the keys |
| JsValue.FlattenFromResolves | scripts/stream-controls.js:721-732 | every record pushed while flattening a sub-object resolves, from the root, to its value |
| JsValue.FlattenFrom | scripts/stream-controls.js:721-732 | every record holds a leaf, never a plain object |
| JsValue.FlattenFromRecordsLeaf | scripts/stream-controls.js:722-730 | each non-object field from the `i`-th on is recorded under `prefix + key` |
| JsValue.Flatten | scripts/stream-controls.js:720-742 | every record holds a leaf; a value that is not an object gives no records; each non-object top-level field is recorded under its own key |
| JsValue.FlattenRoundTrip | scripts/stream-controls.js:720-742 | every path `inspectActor` lists, split on dots and walked by the path walk from the object, gives back the listed value, provided no key holds a dot |
| JsValue.FlattenPathEdges | scripts/stream-controls.js:724-727 | a record pushed under a prefix extends the prefix, and with edge-free keys the extension starts and ends with a non-whitespace character |
| JsValue.FlattenPathsEdgeFree | scripts/stream-controls.js:720-742 | with edge-free keys, every path listed is non-empty and starts and ends with a non-whitespace character |
| Settings.GetTargetUser | scripts/settings.js:197-207 | the registered setting's value, or "" when the setting is unregistered or the read throws |
| Settings.IsTargetViewer | scripts/settings.js:209-212 | true iff the setting is registered, non-empty and equal to the current user's id |
| Settings.EmptyTargetNeverViewer | scripts/settings.js:209-212 | an empty, unregistered or unreadable setting makes no one the viewer |
| Settings.DefaultOf | scripts/settings.js:7-192 | the registered defaults: the hide flags and both toggles are false, paddings 10, position "top-right" (one of the four corner choices), player offset 30, sidebar height 600, attributes "attributes.hp.value", colours "red,blue,green", zoom in 1.5, zoom-out floor 0.3, default zoom 1.0, dwell 5000, viewer "" |
| Settings.DefaultTargetIsNobody | scripts/settings.js:183-192 | with the default viewer setting no user is the viewer |
| Canvas.ActorData | scripts/status-tracker/tracker-app.js:60 | `actor.system`, or the legacy `actor.data.data` when the system data is falsy |
| Canvas.IsCharacter | scripts/camera-control.js:24 | a token counts as a character only when it has an actor |
| Canvas.Characters | scripts/camera-control.js:24 | keeps exactly the tokens whose actor is a character |
| Canvas.VisibleCharacters | scripts/status-tracker/tracker-app.js:23-25 | keeps exactly the visible tokens whose actor is a character |
| Canvas.VisibleCharactersAppend | scripts/camera-control.js:86-95 | the filter distributes over concatenation, so canvas order is kept |
| Canvas.FindToken | scripts/camera-control.js:179 | finds no token iff no token has the id; a found token has the id |
| Camera.MinOf | scripts/camera-control.js:98-103 | `Math.min` over the tokens: a lower bound of every element, attained by one |
| Camera.MaxOf | scripts/camera-control.js:98-103 | `Math.max` over the tokens: an upper bound of every element, attained by one |
| Camera.Bounds | scripts/camera-control.js:98-103 | the bounding box contains every token's rectangle |
| Camera.BoundsAttained | scripts/camera-control.js:98-103 | each edge of the bounding box is the edge of some token |
| Camera.Pad | scripts/camera-control.js:106-114 | padding by 10% on each side makes the box 1.2 times as wide and as high; the centre is kept and the box is contained |
| Camera.ZoomOutFloor | scripts/camera-control.js:133 | `maxZoomOut || 0.3`: the setting, or 0.3 when it is 0 |
| Camera.ZoomIn | scripts/camera-control.js:189 | `zoomInLevel || 1.5`: the setting, or 1.5 when it is 0 |
| Camera.FitsAtScale | scripts/camera-control.js:126-134 | the fit ratio along one axis exceeds a scale iff the padded extent at that scale is strictly inside 80% of the viewport |
| Camera.FrameBox | scripts/camera-control.js:117-144 | the shot is centred on the box, lasts 1000 ms, and never zooms out past the floor; it zooms in past the floor iff the padded box at the floor scale fits strictly inside 80% of the viewport both ways |
| Camera.BoundsPositive | scripts/camera-control.js:98-103 | tokens with positive size give a bounding box with positive size |
| Camera.FramingTarget | scripts/camera-control.js:98-144 | the end-of-combat shot is centred on the tokens' bounding box, lasts 1000 ms, and never zooms out past the floor; it zooms in past the floor iff the padded bounding box at the floor scale fits strictly inside 80% of the viewport both ways |
| Camera.FrameBoxFits | scripts/camera-control.js:126-134 | unless the floor clamps it, the scale fits the padded box inside 80% of the viewport and fills 80% in one direction |
| Camera.PaddedArithmetic | scripts/camera-control.js:106-134 | padding in place and measuring the padded box gives the shot defined on the unpadded box |
| Camera.FrameTokens | scripts/camera-control.js:98-144 | the framing code of the handler computes the end-of-combat shot |
| Camera.OnDeleteCombat | scripts/camera-control.js:58-149 | non-viewers get nothing; the viewer gets a popout close when one is open, then the framing pan when a visible character exists |
| Camera.EndOfCombatShot | scripts/camera-control.js:86-144 | at most one command; none iff there is no visible character; the command is a 1000 ms pan that never zooms out past the floor |
| Camera.EndOfCombatPansIffVisibleCharacters | scripts/camera-control.js:86-95 | the combat-end pan is issued iff some token is a visible character |
| Camera.MinOfPair | scripts/camera-control.js:98-103 | `Math.min` of two values is the smaller |
| Camera.MaxOfPair | scripts/camera-control.js:98-103 | `Math.max` of two values is the larger |
| Camera.BoundsOfPair | scripts/camera-control.js:98-103 | the bounding box of two tokens has the smaller left and top and the larger right and bottom edge |
| Camera.TwoTokenExample | scripts/camera-control.js:98-120 | two 10x10 tokens at (0,0) and (90,90): their bounding box padded is (-10,-10)-(110,110), and the end-of-combat shot over them is centred on (50,50) for any viewport and floor |
| Camera.TwoTokenBounds | scripts/camera-control.js:98-103 | those two tokens have the bounding box (0,0)-(100,100) |
| Camera.PadHundredSquare | scripts/camera-control.js:106-114 | the box (0,0)-(100,100) padded by 10% is (-10,-10)-(110,110) |
| Camera.ClampExample | scripts/camera-control.js:126-134 | a fit scale below the floor is raised to 0.3, whether the floor is set to 0.3 or left at 0 |
| Camera.OnCanvasReady | scripts/camera-control.js:14-30 | at most one pan; a pan iff the user is the viewer and no token is a character; it goes to the scene's initial position at `defaultZoom` or, when that is 0, the scene's scale |
| Camera.OnCreateCombat | scripts/camera-control.js:33-55 | the combat popout is opened iff the user is the viewer and the host can render it |
| Camera.OnUpdateCombat | scripts/camera-control.js:152-198 | a pan iff the turn or round changed, the user is the viewer, and the active combatant's token is found and visible; it targets the token's centre at the zoom-in level |
| TrackerApp.ColorAt | scripts/status-tracker/tracker-app.js:84 | the colour at the path's index, or "gray" when it is missing or empty |
| TrackerApp.MakeStat | scripts/status-tracker/tracker-app.js:79-87 | a stat iff the value is a number; the max is the max walk's number or the value; the percentage is value/max×100 when the max is a number (non-finite for 0) and 100 otherwise |
| TrackerApp.Somes | scripts/status-tracker/tracker-app.js:88 | the filter keeps exactly the present stats |
| TrackerApp.ValueParts | scripts/status-tracker/tracker-app.js:59 | at least one part, none holding a dot |
| TrackerApp.MaxParts | scripts/status-tracker/tracker-app.js:70-71 | at least one part, none holding a dot |
| TrackerApp.PartsRejoin | scripts/status-tracker/tracker-app.js:59-71 | the value walk's parts rejoin to the trimmed path; the max walk's parts rejoin to the untrimmed path with `.value` made `.max` |
| TrackerApp.FlattenValueWalkRoundTrip | scripts/status-tracker/tracker-app.js:58-67 | every path `inspectActor` lists, entered as an attribute path, is walked back to its listed value, provided no key holds a dot or starts or ends with white space |
| TrackerApp.StatFor | scripts/status-tracker/tracker-app.js:58-87 | a stat iff the value walk ends on a number; it carries that number and its index's colour, and the max walk's number when there is one |
| TrackerApp.Stats | scripts/status-tracker/tracker-app.js:58-88 | no more stats than paths; a stat is present iff some path at its index gives it |
| TrackerApp.SomesSnoc | scripts/status-tracker/tracker-app.js:88 | filtering one more candidate appends it when present |
| TrackerApp.StatOptions | scripts/status-tracker/tracker-app.js:58-87 | one candidate stat per attribute path, in path order |
| TrackerApp.RowFor | scripts/status-tracker/tracker-app.js:54-95 | the row keeps the token's id, name and image, and its stats are those of the token's actor data over the attribute paths and colours, no more than one per path |
| TrackerApp.Rows | scripts/status-tracker/tracker-app.js:21-101 | one row per visible character token, in canvas order; row `k` is the row of the `k`-th such token over the comma-split attribute and colour settings |
| TrackerApp.RowsOf | scripts/status-tracker/tracker-app.js:54-96 | one row per token |
| TrackerApp.RowsOfAt | scripts/status-tracker/tracker-app.js:54-96 | row `k` is built from token `k` |
| TrackerApp.RowsOfPrefix | scripts/status-tracker/tracker-app.js:54-96 | mapping one more token appends that token's row |
| TrackerApp.RowsAreVisibleCharacters | scripts/status-tracker/tracker-app.js:21-101 | the panel has exactly one row per visible character token, in canvas order, with its id, name, image and the stats of its actor over the comma-split settings |
| TrackerApp.ActorStats | scripts/status-tracker/tracker-app.js:58-88 | the loop over the attribute paths builds the actor's stats |
| TrackerApp.RowOf | scripts/status-tracker/tracker-app.js:54-95 | the row built for one token is that token's row |
| TrackerApp.GetData | scripts/status-tracker/tracker-app.js:21-101 | `getData` returns the panel's rows for the tokens and the two comma-separated settings |
| TrackerApp.DivSelf | scripts/status-tracker/tracker-app.js:83 | a non-zero value over itself is 100% |
| TrackerApp.SelfMaxWithoutValueSuffix | scripts/status-tracker/tracker-app.js:70-83 | a trimmed path not ending in `.value` is its own max: its bar is full, or not a number when the value is 0 |
| TrackerApp.StatsSnoc | scripts/status-tracker/tracker-app.js:58-88 | stats keep path order, and each takes the colour of its path's index |
| TrackerApp.CornerPosition | scripts/status-tracker/tracker-app.js:113-146 | the panel is `left` padding from the left edge or `right` padding from the right edge, and likewise for top and bottom |
| TrackerApp.CornerChoice | scripts/status-tracker/tracker-app.js:117-140 | for "vertical-horizontal", the left edge is used iff the horizontal word is "left" and the top edge iff the vertical word is "top" |
| TrackerApp.TopLeftCorner | scripts/status-tracker/tracker-app.js:117-140 | "top-left" places the panel at (left padding, top padding) |
| TrackerApp.TopRightCorner | scripts/status-tracker/tracker-app.js:117-140 | "top-right" places the panel's right edge `right` padding from the window's right and its top at the top padding |
| TrackerApp.BottomLeftCorner | scripts/status-tracker/tracker-app.js:117-140 | "bottom-left" places the panel at the left padding, with its bottom edge `bottom` padding from the window's bottom |
| TrackerApp.BottomRightCorner | scripts/status-tracker/tracker-app.js:117-140 | "bottom-right" places the panel `right` padding from the right and `bottom` padding from the bottom |
| TrackerApp.UndashedPositionGoesRight | scripts/status-tracker/tracker-app.js:117-134 | a position without a dash has no horizontal word, so the panel goes to the right edge |
| TrackerApp.StatusTracker.constructor | scripts/status-tracker/tracker-ui.js:27 | a new panel is not rendered and has no rows or placement |
| TrackerApp.StatusTracker.Render | scripts/status-tracker/tracker-app.js:21-101 | after rendering, the panel is rendered and shows the `getData` rows |
| TrackerApp.StatusTracker.Refresh | scripts/status-tracker/tracker-app.js:106-108 | refreshing renders again with the current rows |
| TrackerApp.StatusTracker.Close | scripts/status-tracker/tracker-ui.js:21 | closing leaves the panel not rendered and keeps its rows |
| TrackerApp.StatusTracker.SetPosition | scripts/status-tracker/tracker-app.js:113-146 | an unrendered panel is not moved; a rendered one is placed at the corner position |
| TrackerExamples.DottedParts | scripts/status-tracker/tracker-app.js:59 | a three-part dotted path of dot-free keys splits into those keys |
| TrackerExamples.MaxPathOfValuePath | scripts/status-tracker/tracker-app.js:70 | `a.b.value` becomes `a.b.max` |
| TrackerExamples.TrimmedPath | scripts/status-tracker/tracker-app.js:59 | a path without surrounding whitespace trims to itself |
| TrackerExamples.ValuePartsOfPath | scripts/status-tracker/tracker-app.js:59 | the value walk of `a.b.value` follows a, b, value |
| TrackerExamples.MaxPartsOfPath | scripts/status-tracker/tracker-app.js:70-71 | the max walk of `a.b.value` follows a, b, max |
| TrackerExamples.ValuePathSplits | scripts/status-tracker/tracker-app.js:59-71 | the value walk of `a.b.value` follows a, b, value and its max walk follows a, b, max |
| TrackerExamples.NestedResolves | scripts/status-tracker/tracker-app.js:64-76 | in `{a: {b: {value, max}}}` both walks reach their numbers |
| TrackerExamples.ValueMaxExample | scripts/status-tracker/tracker-app.js:58-88 | `a.b.value` over `{a: {b: {value: v, max: m}}}` gives value v, max m, and v/m×100 in the first colour |
| TrackerExamples.MakeStatOfNumbers | scripts/status-tracker/tracker-app.js:79-85 | two numbers with a non-zero max make the stat with their quotient as percentage |
| TrackerExamples.SpacedValueParts | scripts/status-tracker/tracker-app.js:59 | a leading space is trimmed off the value walk |
| TrackerExamples.TrimLeadingSpace | scripts/status-tracker/tracker-app.js:59 | trimming drops one leading space before a non-whitespace character |
| TrackerExamples.SpacedMaxParts | scripts/status-tracker/tracker-app.js:70-71 | the max walk keeps the leading space in its first part |
| TrackerExamples.SpacedKeyMisses | scripts/status-tracker/tracker-app.js:72-76 | a first part with a leading space finds no property |
| TrackerExamples.LeadingSpaceDefeatsMax | scripts/status-tracker/tracker-app.js:58-88 | a path written with a leading space gets its value but not its max: max = value, 100% |
| TrackerExamples.ZeroPartWayStopsWalk | scripts/status-tracker/tracker-app.js:64-88 | a walk stopped early on a 0 keeps that 0 as a number: value 0, max 0, a non-finite percentage |
| TrackerExamples.ZeroStopsWalk | scripts/status-tracker/tracker-app.js:64-67 | a walk through `{a: 0}` stops on the 0 after its first part |
| TrackerUi.ShouldShowTracker | scripts/status-tracker/tracker-ui.js:12-15 | shown iff the tracker is enabled and the user is the viewer |
| TrackerUi.DisabledNeverShows | scripts/status-tracker/tracker-ui.js:13 | a disabled tracker is never shown |
| TrackerUi.SetupBranch | scripts/status-tracker/tracker-ui.js:18-34 | hidden: close iff a rendered panel exists; shown: create when missing, render when unrendered, refresh when rendered |
| TrackerUi.SetupSettlesRendered | scripts/status-tracker/tracker-ui.js:18-34 | after setup, a panel exists and is rendered whenever it should show, and is not rendered when it should not |
| TrackerUi.TrackerController.constructor | scripts/status-tracker/tracker-ui.js:9 | no panel exists at first |
| TrackerUi.TrackerController.SetupTracker | scripts/status-tracker/tracker-ui.js:18-34 | takes the branch above; at most one panel is ever created and it is kept; a shown panel is rendered with the current rows; a hidden one is not rendered |
| TrackerUi.TrackerController.RefreshIfRendered | scripts/status-tracker/tracker-ui.js:38-48 | the update hooks, and the returned `refresh` handle (lines 78-82), refresh the panel iff it exists and is rendered, and otherwise leave it unchanged |
| TrackerUi.TrackerController.SetPositionIfRendered | scripts/status-tracker/tracker-ui.js:55-76 | the padding hooks and the resize listener place the panel iff it exists and is rendered, and otherwise leave it unchanged |
| UiController.RegionIndex | scripts/ui-controller.js:36-45 | every region is in the selector table |
| UiController.ListedAtIndex | scripts/ui-controller.js:36-45 | each region is listed once |
| UiController.WithDisplay | scripts/ui-controller.js:75 | `el.style.display = v` sets the display without `!important` and leaves the margin and height as they were |
| UiController.Restyled | scripts/ui-controller.js:47-101 | unrelated elements keep their style; nav elements get `display: none !important` iff the flag is set; each region root but the logo is hidden iff its flag is set; among region roots, only the player list's top margin and only the sidebar's important height are written; with the minimal sidebar a tab is shown (`display` "") iff it is chat or settings and hidden otherwise, and the chat controls and dice tray are hidden; without it those are untouched; margins and heights of tabs, chat controls and dice trays are never touched |
| UiController.Applied | scripts/ui-controller.js:31-101 | the pass adds no element, removes an element iff it is the logo with its flag set, and leaves unrelated elements untouched |
| UiController.RestyledIdempotent | scripts/ui-controller.js:48-101 | every write is an overwrite, so restyling twice equals restyling once |
| UiController.AppliedIdempotent | scripts/ui-controller.js:31-101 | plays the role of the 500 ms and 2000 ms re-runs: a second pass with the same settings changes nothing |
| UiController.AppliedElements | scripts/ui-controller.js:64-77 | the pass adds no element and removes only the logo, exactly when its flag is set |
| UiController.NavHiddenNeverRestored | scripts/ui-controller.js:48-61 | with the nav flag set, every nav element carries `display: none !important`; with it unset, nav elements are untouched, so a hidden nav bar stays hidden |
| UiController.RegionShownIffNotHidden | scripts/ui-controller.js:73-76 | each region other than the logo is hidden iff its flag is set |
| UiController.LogoRemovedNotHidden | scripts/ui-controller.js:68-72 | the logo is removed iff its flag is set, and otherwise left alone |
| UiController.MinimalSidebarOneWay | scripts/ui-controller.js:80-92 | the minimal sidebar shows a tab iff it is chat or settings, and hides the chat controls and the dice tray; when off, it touches nothing |
| UiController.OffsetsAlwaysSet | scripts/ui-controller.js:95-101 | the player list's top margin and the sidebar's important height are set on every pass |
| UiController.StagesCompose | scripts/ui-controller.js:47-101 | the nav, region, minimal-sidebar and offset stages, run in source order, give one pass |
| UiController.Document.constructor | scripts/ui-controller.js:31 | the document starts with the given styles |
| UiController.Document.ApplyVisibilitySettings | scripts/ui-controller.js:31-101 | only the viewer's document is changed, and it becomes the result of one pass |
| UiController.Document.ApplyPass | scripts/ui-controller.js:47-101 | the four stages together give the pass |
| UiController.Document.HideNav | scripts/ui-controller.js:48-61 | every nav element gets `display: none !important` when the flag is set; nothing else changes |
| UiController.Document.ApplyRegions | scripts/ui-controller.js:64-77 | each region root is shown or hidden by its flag, the logo removed by its flag, nothing else changes |
| UiController.Document.ApplyRegion | scripts/ui-controller.js:65-76 | one iteration of the region loop |
| UiController.Document.ApplyMinimalSidebar | scripts/ui-controller.js:80-92 | the tab, chat-control and dice-tray writes of the minimal sidebar |
| UiController.Document.ApplyOffsets | scripts/ui-controller.js:95-101 | the top margin and important height writes |
| AutoClose.Schedules | scripts/auto-close.js:13-33 | a close is scheduled iff a journal or actor sheet is rendered for the viewer with a positive dwell time |
| AutoClose.NonPositiveDwellNeverCloses | scripts/auto-close.js:20 | a zero or negative dwell time never schedules a close |
| AutoClose.Hooked | scripts/auto-close.js:31-33 | exactly the journal and actor sheets are hooked, no other application |
| AutoClose.AutoCloser.constructor | scripts/auto-close.js:11 | no windows, timers or closes |
| AutoClose.AutoCloser.OnRender | scripts/auto-close.js:32-33 | a render marks the window rendered and adds its timer when a close is scheduled |
| AutoClose.AutoCloser.HandleAutoClose | scripts/auto-close.js:13-29 | a timer is added iff the user is the viewer and the dwell time is positive |
| AutoClose.AutoCloser.UserClose | scripts/auto-close.js:24 | a window closed by hand is no longer rendered, and its timer stays pending |
| AutoClose.AutoCloser.Fire | scripts/auto-close.js:22-27 | a firing timer is removed; it closes its window iff that window is still rendered |
| StreamControls.InlineGate | scripts/stream-controls.js:6-9 | the inline gate throws iff the read throws, and goes on iff the user is the viewer |
| StreamControls.InlineGateAgrees | scripts/stream-controls.js:765-769 | the inline gate agrees with `isTargetViewer` whenever it does not throw |
| StreamControls.LegacyShouldShowTracker | scripts/stream-controls.js:643-648 | skipped while disabled; throws iff enabled and the setting is not readable; shown iff enabled and the user is the viewer |
| StreamControls.LegacyShouldShowAgrees | scripts/stream-controls.js:643-648 | agrees with the modules' `shouldShowTracker` except where it throws |
| StreamControls.LegacySetupTracker | scripts/stream-controls.js:651-667 | a throwing gate leaves the panel as it was; otherwise it is the modules' `setupTracker` |
| StreamControls.LegacyApplyVisibilitySettings | scripts/stream-controls.js:5-79 | the document becomes one pass iff the inline gate goes on, and is unchanged otherwise |
| StreamControls.LegacyOnRender | scripts/stream-controls.js:765-788 | a timer is added iff the sheet is hooked, the inline gate goes on, and the dwell time is positive |
| StreamControls.LegacyCornerPosition | scripts/stream-controls.js:605-633 | the panel is 10 from the left edge or its right edge 10 from the window's, and likewise for top and bottom |
| StreamControls.LegacyCornerIsUniformPadding | scripts/stream-controls.js:605-633 | the fixed padding of 10 is the modules' corner arithmetic with all four paddings 10 |
| StreamControls.DefaultPaddingsMatchLegacy | scripts/settings.js:119-157 | every padding setting defaults to 10, so with the defaults both builds place the panel in the same spot |

## Left out

- Hook and listener registration (`Hooks.on`, `window.addEventListener`) and `scripts/module.js` are left out because they are host wiring. Each hook is a method called by whoever fires the event.
- The delays before the camera's pans and the popout (`setTimeout` of 100, 300 and 500 ms) are left out because the model has no time. The 500 ms and 2000 ms re-runs of the visibility pass also have no time; `UiController.AppliedIdempotent` says what they add.
- The visibility pass is also re-run 100 ms after sidebar renders, settings renders, setting updates and the first `canvasReady`. The single-file build polls every 100 ms until `targetUser` is registered. None of this is modelled, because it is timing; each run is one call of the pass.
- The 200 ms delay before the logo is removed is dropped: the model removes the logo within the pass.
- Elements are the abstract `Element` values, not parsed CSS selectors. A selector that matches several elements (`#navigation`, `nav#navigation`, `.navigation`, the dice tray classes) is one `forEach` over all of them.
- The DOM and jQuery are left out. This covers `this.element.css`, `offsetWidth` and `offsetHeight`, which are passed in as numbers.
- `scripts/range-picker.js` and `scripts/setting-helpers.js` are not part of this model, because they are settings UI.
- `findNumericProps` and all console logging are not modelled: they only log.
- IEEE floating point is modelled by `real`. A percentage over a zero max is `NonFinite`, not Infinity or NaN.
- Camera.FramingTarget: requires tokens of positive size and a positive viewport, because the source's division by a zero extent gives Infinity, which `real` cannot hold. The `deleteCombat` handler and its shot ask this only of the visible character tokens, the ones that are framed.
- The `||` fallbacks on `zoomInLevel`, `maxZoomOut` and `defaultZoom` apply on 0 only. The settings are numbers, so NaN, the other falsy value, is not modelled.
- JsValue.Get: prototype properties (`toString`, `constructor` and the like) are undefined in the model. A string's `length` and indices count Unicode scalar values, not UTF-16 code units, so for a string holding characters outside the Basic Multilingual Plane they differ from JavaScript: `"😀".length` is 2 in JavaScript and 1 in the model, and index `"1"` gives a lone surrogate in JavaScript and `undefined` in the model.
- JsValue.Flatten: an actor `system` that is a string or an array at the top level gives no records in the model, while `for ... in` would list its indices. The actor data is an object in every host version.
- The `for ... in` order of an object is its field order. Integer-like keys in ascending order are not modelled.
- The `actor.data.data` fallback, for hosts without `actor.system`, is an extra actor field read when `system` is falsy. Canvas.ActorData: when `system` is falsy and `actor.data` is missing, JavaScript throws a TypeError, while the model returns the legacy field; no host version has that combination.
- TrackerApp.StatusTracker.Render: does not call `setPosition`, because the host's `Application.render` does that internally.
- The try/catch around `ui.combat.renderPopout`, `canvas.animatePan` and the popout close is not modelled: a host call is a command value and cannot fail.
- Settings.GetTargetUser: a `game.settings.get` that throws is the `ReadThrows` input. The model assumes, for the single-file gates, that an unregistered setting throws, which is the host's behaviour.
- The single-file build's padding hooks for the panel do not exist, so only its resize listener is covered, by `TrackerUi.TrackerController.SetPositionIfRendered`.
- `registerSettings` registration side effects and the setting names and hints are left out. Only defaults and choices are modelled.
- The global functions `window.setupTracker`, `window.applyVisibilitySettings` and `window.inspectActor` are not modelled; they are the module's handlers reached from the console.
- Macro creation in the single-file build is not modelled, because it is a host call.
