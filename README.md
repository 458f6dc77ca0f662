# PDF score annotator: overlay, viewer and guard logic

This project models, in Dafny, the parts of a browser application for
annotating PDF sheet music that make decisions and change state:

- the text and eraser tools of the drawing overlay (colour normalisation,
  hexadecimal colour parsing, outline width, new text objects, restyling of
  the selected text, "erase the topmost hit", and the pointer-gesture state
  that tells a tap from a drag);
- the overlay component (canvas flags and pointer-event layering per tool,
  and the in-place rescale of every object and of the canvas on zoom);
- the viewer (tool toggling, bounded page navigation that clears the tool,
  single/two-up layout and the pages it draws, text-property defaulting and
  merging);
- the user-administration table (admin counting, the last-admin rule, row
  buttons, the confirmation dialog);
- the score metadata form (loading defaults, ordered length checks, trimmed
  payload with blanks as null);
- the two route guards.

Modules: `JsValues` (JavaScript `null`, `Math.abs`, `length` and the String
builtins used: `trim`, `toLowerCase`, `replace`, `split`, `substr`,
`parseInt`, `parseFloat`), `Scene` (the records the overlay works on),
`TextTools`, `FabricOverlay`, `PdfAnnotator`, `UserManagement`, `ScoreEdit`
and `Routes` (both guards).

The canvas scene is a `seq` of object records in drawing order (last is
topmost); an object is identified by its position. The canvas library's hit
test ("does this object contain the point") is a function parameter about
which nothing is assumed. Coordinates and scales are exact `real` numbers, so
in the model a rescale is exactly invertible (see "Left out"). Absent JavaScript values are `Option` where the code uses
`??` or tests for `null`, and are folded into `""` or `0` where it uses `||`.

Two behaviours of the code are easy to misread, and the model follows the code:

- `applyTextPropsToActive` calls `ensureVisibleStroke` last. Without a
  background colour that call replaces the shadow with the outline shadow. So
  "the shadow is set exactly when requested" holds only for text with a
  background. `TextTools.ApplyTextProps` states both cases.
- The rgba check in `normalizeColorOrFallback` removes only the first
  `"rgba("` and the first `")"`, splits at commas and needs exactly four parts.
  `TextTools.IsRgbaWithZeroAlpha` models exactly that.

## Model

| member | source | states |
|---|---|---|
| TextTools.NormalizeColorOrFallback | src/components/fabric/TextTools.js:3-12 | The result is the input or `#8B4513`. It is the input exactly when the input is visible: not empty, not "transparent" in any case or padding, and not a four-part rgba colour with zero alpha. The result is never invisible. |
| TextTools.NormalizeIdempotent | src/components/fabric/TextTools.js:3-12 | Normalising twice gives the same colour as normalising once. |
| TextTools.FallbackColorIsVisible | src/components/fabric/TextTools.js:1-12 | The fallback colour is itself not invisible, so it is never replaced. |
| TextTools.HexToRgb | src/components/fabric/TextTools.js:14-28 | The result is null exactly for empty input. |
| TextTools.HexShortFormDoublesDigits | src/components/fabric/TextTools.js:16-23 | "#abc" gives the same triple as "#aabbcc". |
| TextTools.LeadingHashStripped | src/components/fabric/TextTools.js:16 | One leading "#" is removed and the rest is kept. |
| TextTools.HexPairAt | src/components/fabric/TextTools.js:25-27 | `parseInt(s.substr(k, 2), 16)` of two hex digits is `16*hi + lo`, a value in 0..255. |
| TextTools.HexSixDigits | src/components/fabric/TextTools.js:14-28 | "#" followed by six hex digits gives red, green and blue from the digit pairs at 0, 2 and 4, each in 0..255. |
| TextTools.HexPairValue | src/components/fabric/TextTools.js:19-27 | Two hex digits parse to `16*hi + lo`, a value in 0..255. |
| TextTools.StrokeWidthFor | src/components/fabric/TextTools.js:47 | The outline width is at least 1. It is 1 exactly when `fontSize*0.08 < 1.5`, and otherwise the integer nearest to `fontSize*0.08`. |
| TextTools.EffectiveFontSize | src/components/fabric/TextTools.js:42 | A missing font size reads as 18. A present one is kept. |
| TextTools.EnsureVisibleStroke | src/components/fabric/TextTools.js:41-61 | With a background: no stroke, width 0, shadow untouched. Without one: stroke `#111111`, width from the font size (at least 1), uniform, round join, stroke painted first, outline shadow. Nothing else changes. |
| TextTools.NewTextFontSize | src/components/fabric/TextTools.js:136 | A new text's size is `max(14, size or 18)`, so always at least 14. |
| TextTools.CreateTextObjectAt | src/components/fabric/TextTools.js:135-153 | Editable text "Text" at the pointer. The size is `max(14, size or 18)`. The fill is the normalised requested fill, so never invisible. Weight is bold iff requested and style italic iff requested. The family is the requested one, or Arial when none is given. The background is the requested one. Selectable and opaque, with no shadow and the canvas library's default outline: no stroke, width 1, non-uniform, mitre join, fill painted first. |
| TextTools.NewTextAtPointer | src/components/fabric/TextTools.js:155-169 | The added object is "Text" at the pointer, unscaled, selectable and opaque. Its size, fill, weight, style, family and background are as for `createTextObjectAt`. Without a background it has the `#111111` outline of width `StrokeWidthFor(size)`, uniform, with a round join, painted before the fill, and the outline shadow. With one it has no stroke, width 0, the default non-uniform, mitre-joined, fill-first outline settings, and the requested shadow exactly when a shadow is requested. |
| TextTools.TextPropsOf | src/components/fabric/TextTools.js:80-89 | The reported size is the object's size, or 18 when it has none. The family is the object's, or Arial when empty. The fill is the object's, or `#8B4513` when empty. The background is the object's. Bold, italic and shadow hold iff the object is bold, italic and shadowed. |
| TextTools.Restyled | src/components/fabric/TextTools.js:293-310 | Before the outline rule: kind, text and geometry are kept and opacity is 1. The fill is the one it is given. The size is the requested one, else the object's own, else 18. The family is the requested one, else the object's. Weight and style follow bold and italic. The background is the requested one. The shadow is the requested text shadow exactly when a shadow is requested. The stroke and all outline settings are kept. |
| TextTools.ApplyTextProps | src/components/fabric/TextTools.js:284-311 | Geometry, text and kind are kept and opacity becomes 1. The fill is the normalised requested fill, or the normalised old fill when none is requested, so never invisible: an invisible requested fill gives `#8B4513`. Size is the requested size, else the old size, else 18. The family is the requested one, else the old one. With a background: no stroke, width 0, the shadow as requested, and the object's own uniform, join and paint-order settings. Without one: the `#111111` outline of width `StrokeWidthFor(size)`, uniform, with a round join, painted before the fill, and the outline shadow. |
| TextTools.ReportedPropsReapplyUnchanged | src/components/fabric/TextTools.js:284-299 | Re-applying the style that the selection reports leaves the font, colour and background unchanged. |
| TextTools.TopmostHit | src/components/fabric/TextTools.js:113-125 | The index found contains the point and no later object does. When nothing is found, no object contains the point. |
| TextTools.SingleHitIsTopmost | src/components/fabric/TextTools.js:113-125 | A point inside exactly one object selects that object. |
| TextTools.TextToolHandler.constructor | src/components/fabric/TextTools.js:130-133 | The gesture starts idle: not down, no position, not moved, no target. |
| TextTools.TextToolHandler.SelectionReport | src/components/fabric/TextTools.js:69-94 | A report exists exactly when the active object is a text object, and it is then that object's style as `TextPropsOf` reads it. |
| TextTools.TextToolHandler.NotifySelection | src/components/fabric/TextTools.js:69-94 | Exactly one report (or null) is appended to the callback's calls. |
| TextTools.TextToolHandler.SelectionCleared | src/components/fabric/TextTools.js:282 | Clearing the selection reports null. |
| TextTools.TextToolHandler.EraseAtEvent | src/components/fabric/TextTools.js:96-128 | It removes the given target, or else the topmost object containing the point. At most one object goes and the rest keep their order. A miss returns false and changes nothing. |
| TextTools.TextToolHandler.OnMouseDown | src/components/fabric/TextTools.js:190-207 | `moved` is cleared and the position and target are recorded. In eraser mode the given target, or else the topmost object containing the point, is removed, the selection is cleared and the press ends. A miss changes no object and keeps the selection. |
| TextTools.TextToolHandler.OnMouseMove | src/components/fabric/TextTools.js:209-220 | `moved` becomes true only while the button is down and abs(dx) > 4 or abs(dy) > 4. With the button up nothing changes. |
| TextTools.TextToolHandler.OnMouseUp | src/components/fabric/TextTools.js:222-274 | Every path ends idle. In text mode a drag adds nothing. A tap on text selects it and reports it. Any other tap appends exactly one new text object and selects it. |
| TextTools.TextToolHandler.CreateTextAtPointer | src/components/fabric/TextTools.js:155-188 | It appends the new text object, makes it active and reports its style. |
| TextTools.TextToolHandler.ApplyTextPropsToActive | src/components/fabric/TextTools.js:284-314 | Only an active text object is restyled; otherwise the scene is unchanged. |
| FabricOverlay.EffectiveScale | src/components/FabricOverlay.jsx:142-143 | A missing or zero scale counts as 1; any other scale is used as it is. The result is never 0. |
| FabricOverlay.BrushWidthFrom | src/components/FabricOverlay.jsx:131 | The brush width is the parsed width when that is a non-zero number, and 4 when it parses to 0 or not at all. It is never 0. |
| FabricOverlay.Overlay.SetBrush | src/components/FabricOverlay.jsx:129-131 | The brush takes the colour and the width `BrushWidthFrom` gives. |
| FabricOverlay.BrushWidthOfNumber | src/components/FabricOverlay.jsx:131 | A numeric width n (below 10^21 in magnitude, which `String` writes in full) gives width n, except 0, which gives 4. |
| FabricOverlay.ScaleObject | src/components/FabricOverlay.jsx:146-152 | Scaling changes only left, top, scaleX and scaleY. |
| FabricOverlay.RescaleAll | src/components/FabricOverlay.jsx:146-152 | Object count and order are kept and only the geometry changes. |
| FabricOverlay.RescaleComposes | src/components/FabricOverlay.jsx:144-151 | Two rescales equal one rescale by the product of the ratios. |
| FabricOverlay.RescaleRoundTrip | src/components/FabricOverlay.jsx:145-151 | Zooming from s1 to s2 and back restores every object, in exact real arithmetic. |
| FabricOverlay.RescaleKeepsProportions | src/components/FabricOverlay.jsx:147-156 | An object's left/width and top/height proportions are invariant under a rescale. |
| FabricOverlay.LayeringFor | src/components/FabricOverlay.jsx:113-123 | With a tool the overlay takes pointer events at z-index 5000, with the text cursor for the text tool and the crosshair otherwise; without one it lets events through at z-index 1000 with the default cursor. |
| FabricOverlay.Overlay.constructor | src/components/FabricOverlay.jsx:67-71 | The new canvas has rubber-band selection iff the tool at creation is select and drawing mode iff it is pencil. Hit testing is on, and the brush and layering are not yet set. |
| FabricOverlay.Overlay.ApplyTool | src/components/FabricOverlay.jsx:109-138 | Drawing mode holds iff pencil, selection iff select, skip-target-find iff pencil. A tool gives auto/5000 with a text or crosshair cursor; no tool gives none/1000/default. The pencil brush gets the colour and parsed width. |
| FabricOverlay.Overlay.ScaleObjects | src/components/FabricOverlay.jsx:146-152 | Every object is multiplied in place by the ratio. |
| FabricOverlay.Overlay.Rescale | src/components/FabricOverlay.jsx:140-160 | When the scale changes by more than 1e-6 and a canvas exists, objects and canvas size are multiplied by next/prev. Otherwise they are unchanged. The remembered scale always becomes the new one. |
| PdfAnnotator.Toggled | src/components/PdfAnnotator.jsx:141-143 | Pressing the active tool gives no tool. Pressing any other tool makes it the only active one. |
| PdfAnnotator.ToggleTwice | src/components/PdfAnnotator.jsx:142 | Pressing a tool twice returns to the previous state when that state was that tool or none. |
| PdfAnnotator.PrevPage | src/components/PdfAnnotator.jsx:201 | The page goes back one only when above 1. |
| PdfAnnotator.NextPage | src/components/PdfAnnotator.jsx:202 | The page goes forward one only when below the page count. |
| PdfAnnotator.NavigationStaysInRange | src/components/PdfAnnotator.jsx:201-202 | A page in [1, numPages] stays there. Navigation stays put exactly at the first or last page. |
| PdfAnnotator.PrevThenNext | src/components/PdfAnnotator.jsx:201-202 | From page p with 1 < p ≤ numPages, previous then next returns to p. |
| PdfAnnotator.NextThenPrev | src/components/PdfAnnotator.jsx:201-202 | From page p with 1 ≤ p < numPages, next then previous returns to p. |
| PdfAnnotator.ToggledMode | src/components/PdfAnnotator.jsx:172 | The layout toggle always changes the mode. |
| PdfAnnotator.ToggleModeTwice | src/components/PdfAnnotator.jsx:172 | Toggling the layout twice is the identity. |
| PdfAnnotator.RenderedPages | src/components/PdfAnnotator.jsx:118-128 | The drawn pages are the current page and, iff two-up and not on the last page, its successor. They never go beyond numPages. |
| PdfAnnotator.LayoutRoundTrip | src/components/PdfAnnotator.jsx:118-128 | Single mode draws one page. Toggling to two-up draws the pair when there is a next page. Toggling back draws the same pages as before. |
| PdfAnnotator.WithDefaultFill | src/components/PdfAnnotator.jsx:191-194 | A missing or "transparent" fill becomes `#00AA00`. Every other field is stored unchanged. |
| PdfAnnotator.WithDefaultFillIdempotent | src/components/PdfAnnotator.jsx:192 | Defaulting the fill twice is defaulting it once. |
| PdfAnnotator.Merge | src/components/PdfAnnotator.jsx:187 | Each key of the update wins and every other key keeps its previous value. |
| PdfAnnotator.MergeFullReplaces | src/components/PdfAnnotator.jsx:182-189 | A report that carries every key replaces the properties outright. |
| PdfAnnotator.MergeIdempotent | src/components/PdfAnnotator.jsx:187 | Merging the same update twice is merging it once. |
| PdfAnnotator.Viewer.constructor | src/components/PdfAnnotator.jsx:24-36 | The viewer starts on the initial page with no tool, single mode and the default text properties. |
| PdfAnnotator.Viewer.DocumentLoaded | src/components/PdfAnnotator.jsx:55 | The page count becomes the document's. |
| PdfAnnotator.Viewer.ToggleTool | src/components/PdfAnnotator.jsx:141-147 | The tool becomes the toggle result, so at most one tool is active. |
| PdfAnnotator.Viewer.OnPrev | src/components/PdfAnnotator.jsx:201 | The tool is cleared even on page 1. The page moves back as PrevPage says and stays in range. |
| PdfAnnotator.Viewer.OnNext | src/components/PdfAnnotator.jsx:202 | The tool is cleared even on the last page. The page moves forward as NextPage says and stays in range. |
| PdfAnnotator.Viewer.OnToggleViewMode | src/components/PdfAnnotator.jsx:172 | Single and two-up are swapped. |
| PdfAnnotator.Viewer.Rendered | src/components/PdfAnnotator.jsx:118-120 | With the page in range, every drawn page is in range. |
| PdfAnnotator.Viewer.HandleTextPropsChange | src/components/PdfAnnotator.jsx:191-194 | The stored properties are the given ones with the fill defaulted. The stored fill is never empty or "transparent". |
| PdfAnnotator.Viewer.HandleSelectionChange | src/components/PdfAnnotator.jsx:182-189 | Null clears the text-selection flag and keeps the properties. A report is merged over them and sets the flag. |
| UserManagement.CountRole | src/components/UserManagement.jsx:245 | The count is at most the number of users. It is zero exactly when nobody has the role. |
| UserManagement.AdminCount | src/components/UserManagement.jsx:144-146 | The number of `ROLE_ADMIN` users: at most the total, and zero iff there is no admin. |
| UserManagement.DistinctRolesBounded | src/components/UserManagement.jsx:245 | Counts of two different roles add up to at most the number of users. |
| UserManagement.StatisticsBounded | src/components/UserManagement.jsx:245 | Admin count plus user count is at most the total. |
| UserManagement.TwoAdminsCount | src/components/UserManagement.jsx:144-146 | Two admins at different positions make the admin count at least 2. |
| UserManagement.SoleAdminCount | src/components/UserManagement.jsx:144-146 | When exactly one listed user is an admin, the count is 1. |
| UserManagement.CanModifyAdmin | src/components/UserManagement.jsx:148-153 | False iff the user is an admin and there is at most one admin. Non-admins are always modifiable. |
| UserManagement.OnlyTheLastAdminIsProtected | src/components/UserManagement.jsx:148-153 | A listed admin is protected iff no other listed user is an admin. |
| UserManagement.RowButtons | src/components/UserManagement.jsx:201-232 | Promote is offered iff `ROLE_USER` and Demote iff `ROLE_ADMIN`. Delete is always last. Demote and Delete are enabled iff the user is modifiable; Promote is always enabled. |
| UserManagement.RequestFor | src/components/UserManagement.jsx:96-112 | Promote sets `ROLE_ADMIN`, demote sets `ROLE_USER` and delete deletes, each for the dialog's user. An unknown type sends nothing. |
| UserManagement.DisplayName | src/components/UserManagement.jsx:124 | The user's name, or their email when the name is empty. |
| UserManagement.ModalConfigFor | src/components/UserManagement.jsx:116-142 | The title is empty iff there is no user or the type is unknown; then the message is empty too and there is no button. Otherwise the message names the user. |
| UserManagement.UserTable.constructor | src/components/UserManagement.jsx:7-13 | The table starts with no users and the dialog closed. |
| UserManagement.UserTable.UsersLoaded | src/components/UserManagement.jsx:25 | The fetched list replaces the users. |
| UserManagement.UserTable.OpenActionModal | src/components/UserManagement.jsx:39-41 | The dialog opens with the given type and user. |
| UserManagement.UserTable.CloseActionModal | src/components/UserManagement.jsx:43-45 | The dialog becomes `{isOpen:false, type:'', user:null}`. |
| UserManagement.UserTable.ConfirmAction | src/components/UserManagement.jsx:96-114 | With no user nothing changes. Otherwise exactly the matching request is sent (none for an unknown type) and the dialog closes. |
| ScoreEdit.OrEmpty | src/components/ScoreEdit.jsx:28-29 | An absent title or author becomes "". |
| ScoreEdit.StyleOf | src/components/ScoreEdit.jsx:30 | The style is `musicStyle`, else `musicalStyle`, else "". An empty `musicStyle` still wins. |
| ScoreEdit.Loaded | src/components/ScoreEdit.jsx:21-39 | A stale request, settling after unmount or after the score id changed, changes nothing. Otherwise a response sets the three fields (an empty body gives three empty fields) and keeps the form's error, and a failure keeps the form's fields and sets the load error. |
| ScoreEdit.FirstLoadError | src/components/ScoreEdit.jsx:14-39 | On first mount the form shows an error iff the request failed, and a failed load leaves every field empty. |
| ScoreEdit.ResponseOverwritesFields | src/components/ScoreEdit.jsx:25-31 | After a response the fields depend only on the response, not on what the form showed before. |
| ScoreEdit.Validate | src/components/ScoreEdit.jsx:41-46 | No error iff title ≤ 200, author ≤ 200 and style ≤ 100 code units, untrimmed. Errors come in the order title, author, style. |
| ScoreEdit.TitleLimitInclusive | src/components/ScoreEdit.jsx:42 | Exactly 200 units pass and one more fails. |
| ScoreEdit.TitleReportedFirst | src/components/ScoreEdit.jsx:42-44 | An over-long title is reported whatever the other fields are. |
| ScoreEdit.TrimToNull | src/components/ScoreEdit.jsx:61-63 | The field is null iff the text is all whitespace. Otherwise it is the trimmed text, which is non-empty and not padded. |
| ScoreEdit.TrimToNullIdempotent | src/components/ScoreEdit.jsx:61 | A sent field, sent again, is unchanged. |
| ScoreEdit.HandleSubmit | src/components/ScoreEdit.jsx:48-64 | A validation error is reported and no update is sent. Otherwise one update carries the three trimmed-or-null fields. |
| ScoreEdit.SentPayloadIsClean | src/components/ScoreEdit.jsx:60-64 | No sent field is whitespace-only or padded. Each of title, author and style is null exactly when its text trims to empty. |
| Routes.RequiredList | src/components/ProtectedRoute.jsx:13-14 | A missing or empty role requires nothing. A single role is a one-element list. |
| Routes.Protected | src/components/ProtectedRoute.jsx:5-21 | An unauthenticated caller goes to /login whatever the role. Access is granted iff authenticated and either nothing is required or the role is present and listed. Otherwise the caller goes to /my-scores. |
| Routes.OneRoleIsOneElementList | src/components/ProtectedRoute.jsx:14 | A single role string behaves exactly like a one-element list. |
| Routes.NoRoleAdmitsAll | src/components/ProtectedRoute.jsx:13-21 | With no required role, every authenticated caller is admitted. |
| Routes.Private | src/components/PrivateRoute.jsx:6-20 | No token sends the caller to /login. The page renders iff there is a token and either no role is required or it equals userRole. A differing role sends to /unauthorized. |
| Routes.TokenBeforeRole | src/components/PrivateRoute.jsx:10-17 | The token check takes precedence over the role check. |

## Left out

- PDF rasterisation: opening the document, page rendering, canvas creation and device-pixel sizing are calls into the PDF library and the DOM. Only the page count and the choice of pages are modelled.
- The canvas library itself: loading it, constructing and disposing the canvas, `setCoords`, rendering. The scene is a sequence of records and hit testing is a parameter.
- The timers that focus the hidden text area after a tap, and entering edit mode; full-screen handling.
- `isLightColor`: it is floating-point luminance and nothing calls it.
- Network and storage: the requests `ConfirmAction` and `HandleSubmit` issue are recorded as values; their responses, alerts, the user-list refresh and navigation after saving are not modelled.
- `createTextObjectAt` returns null when the canvas library has no text class. The library is not modelled, so the model always creates the object.
- The `try`/`catch` blocks that swallow exceptions from canvas calls: the modelled canvas calls do not fail.
- Object identity: an object is its position in the scene sequence, so aliasing between the active object and a removed object is not captured. Erasing clears the active object, as the code's `discardActiveObject` does.
- TextTools.NormalizeColorOrFallback: `toLowerCase` is modelled for ASCII letters only. No other letter lowers to a character of "transparent" or "rgba", and the alpha is read from digits, so the decisions agree.
- TextTools.HexToRgb: the string is indexed by code point, not by UTF-16 unit. The two differ only for characters outside the Basic Multilingual Plane.
- Floating point: coordinates, sizes and scales are exact reals, and the rounding of IEEE doubles is not modelled. Numbers are written by `String` in full only below 10^21; JsValues.Numeral covers only those.
- FabricOverlay.RescaleRoundTrip: holds exactly only over the reals; in the program a zoom out and back in can leave objects off by rounding error. The same goes for FabricOverlay.RescaleComposes.
- Selection events raised by the canvas library are not modelled. `setActiveObject` (TextTools.js:170, 243) fires `selection:created`/`selection:updated`, which the handler answers with `notifySelection` (TextTools.js:280-281). `discardActiveObject` (TextTools.js:109, 120) fires `selection:cleared`, answered with a null report (TextTools.js:282). The overlay also registers listeners of its own (FabricOverlay.jsx:75-86) that pass the library's raw selection, or an empty list, to the same callback, and one for finished pencil paths (FabricOverlay.jsx:74). The model reports only where the text handler's own code calls the callback.
- TextTools.TextToolHandler.OnMouseUp: states exactly one report for a tap, while the program may also report through the `selection:created`/`selection:updated` event that `setActiveObject` raises.
- TextTools.TextToolHandler.CreateTextAtPointer: states exactly one report, while `setActiveObject` may raise a further one through the selection events.
- TextTools.TextToolHandler.EraseAtEvent: states that no report is made, while `discardActiveObject` may raise `selection:cleared` and so a null report.
- React's deferred state updates are modelled as immediate assignments in every state-changing method of PdfAnnotator.Viewer (OnPrev, OnNext, ToggleTool, OnToggleViewMode, DocumentLoaded, HandleTextPropsChange, HandleSelectionChange) and of UserManagement.UserTable (UsersLoaded, OpenActionModal, CloseActionModal, ConfirmAction). Updates queued in one event are not interleaved with a render.
- TextTools.NormalizeColorOrFallback: an rgba alpha that is not zero as written but underflows to 0 as a double ("1e-400", or a very long "0.000…01") is kept by the model, while `parseFloat` reads it as 0 and the program returns the fallback colour. JsValues.ParseFloatIsZero decides on the written digits only.
- JsValues.ParseFloatIsZero: floating-point underflow is not modelled, for the reason above.
- FabricOverlay.Overlay.constructor: the brush starts as an empty colour and width 1, placeholders for the canvas library's own defaults, which are not modelled.
- Zoom clamping, double-click timing, deletion of empty new text, debounced per-page saving and two-page stepping are not in the code, so they are not modelled.
