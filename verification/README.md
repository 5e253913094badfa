# Resume advisor: a Dafny model of its core

Resume advisor renders a markdown resume as a page. Reviewers draw annotations
on that page (pen, line, circle, text, eraser, highlight), save the
annotations to a Convex table keyed by resume id, and share a link that
reopens the same page with the same annotations. Web pages shown in an iframe
get a height that can be measured, typed in, or stepped up and down.

This project models the logic behind that, one Dafny module per source file:

| module | file | form |
|---|---|---|
| `AnnotationTypes` | `annotation_types.dfy` | the tool, point and shape records |
| `CanvasOverlay` | `canvas_overlay.dfy` | the tool style table; the pointer handlers as pure transitions and as the `CaptureMachine` class whose fields they update |
| `CanvasRender` | `canvas_render.dfy` | `renderCanvas` as a list of draw commands, built by loops in `RenderCanvas` and specified by `Render` |
| `AnnotationStore` | `annotation_store.dfy` | the `annotations` table as the `AnnotationTable` class, with `Save` (insert or patch) and `Load` |
| `QueryParams` | `query_params.dfy` | the ordered query list of a URL with `get`, `set` and `delete` as URLSearchParams defines them (section 6.2 of the WHATWG URL Standard) |
| `PageToolbar` | `page_toolbar.dfy` | `handleSave` and the `savedLink` state as the `Toolbar` class |
| `WebPageViewer` | `web_page_viewer.dfy` | the height and sync-status state as the `Viewer` class, one method per handler |
| `JsText` | `js_text.dfy` | the JavaScript string operations the parser uses: `trim`, `startsWith`, `includes`, `split`, `join`, `toUpperCase` |
| `ResumeMarkup` | `resume_markup.dfy` | `cleanText` and its two global lazy regular-expression rewrites |
| `ResumeSections` | `resume_sections.dfy` | `parseExperience`, `parseEducation`, `parseSkills` (loops) and `parseListSection` |
| `ResumeParser` | `resume_parser.dfy` | `parseResume`: header, contact, section split and dispatch |
| `Wrappers` | `wrappers.dfy` | `Option` |

Each method that updates state is proved against a pure function of the old
state (`State() == HeightUpdated(old(State()), access)`). Properties the
source promises are proved about those functions, and each loop is proved
equal to a fold over its input. The parser's lemmas fix the items it builds on
lines of the documented shapes (`Company | Role | Period`, `Degree |
Institution | Period`, bullets); "## Left out" names what is not stated.

## Model

| member | source | states |
|---|---|---|
| `CanvasOverlay.GetToolStyle` | src/components/CanvasOverlay.tsx:21-41 | highlight is width 20, translucent yellow, `multiply`; eraser is width 20, opaque black, `destination-out`; every other tool is width 2, `#ef4444`, `source-over` (both directions) |
| `CanvasOverlay.NewShape` | src/components/CanvasOverlay.tsx:138-146 | pen and highlight start with `points = [pos]` and no `start`/`end`; other tools have `start = end = pos` and no points; colour and width come from the tool style |
| `CanvasOverlay.EraserShape` | src/components/CanvasOverlay.tsx:154-163 | an eraser stroke has kind eraser, width 20, `points = [pos]` and nothing else |
| `CanvasOverlay.OnMouseDown` | src/components/CanvasOverlay.tsx:134-168 | the text tool appends exactly one text shape at `pos` when the input is non-empty and keeps the list otherwise; drawing is on exactly when the tool is not text; eraser and other tools set the current shape |
| `CanvasOverlay.OnMouseMove` | src/components/CanvasOverlay.tsx:170-191 | does nothing unless drawing; pen, eraser and highlight append exactly the new point and keep the earlier ones; other tools replace only `end`, so `start` stays fixed; a shape without points is kept |
| `CanvasOverlay.OnMouseUp` | src/components/CanvasOverlay.tsx:193-201 | while drawing with a current shape, reports `shapes + [current]`, clears the current shape and stops drawing; when not drawing, changes nothing |
| `CanvasOverlay.Handle` | src/components/CanvasOverlay.tsx:203-220 | with the cursor tool no event changes anything; a reported list always extends the committed one; otherwise the list is kept |
| `CanvasOverlay.RunAppendsCommits` | src/components/CanvasOverlay.tsx:193-201 | after any event sequence the list is the old list followed by the committed shapes, so commits only append |
| `CanvasOverlay.CursorIsInert` | src/components/CanvasOverlay.tsx:217-220 | no event sequence under the cursor tool changes the state or commits a shape |
| `CanvasOverlay.RunSnoc` | src/components/CanvasOverlay.tsx:134-201 | running one more event is handling it in the state reached so far |
| `CanvasOverlay.PenScenario` | src/components/CanvasOverlay.tsx:134-201 | down, two moves and up with the pen commit one shape with the three points in order |
| `CanvasOverlay.CircleScenario` | src/components/CanvasOverlay.tsx:134-201 | down, moves and up with the circle tool commit one circle whose `start` is the press point and whose `end` is the last point |
| `CanvasOverlay.TextScenario` | src/components/CanvasOverlay.tsx:148-153 | a text press with input appends one text shape; empty or cancelled input keeps the list |
| `CanvasOverlay.CaptureMachine.constructor` | src/components/CanvasOverlay.tsx:14-18 | starts not drawing, with no current shape and the given shapes |
| `CanvasOverlay.CaptureMachine.HandleMouseDown` | src/components/CanvasOverlay.tsx:134-168 | the new fields and the reported list are those of `OnMouseDown` |
| `CanvasOverlay.CaptureMachine.HandleMouseMove` | src/components/CanvasOverlay.tsx:170-191 | the new fields are those of `OnMouseMove` |
| `CanvasOverlay.CaptureMachine.HandleMouseUp` | src/components/CanvasOverlay.tsx:193-201 | the new fields and the reported list are those of `OnMouseUp` |
| `CanvasOverlay.CaptureMachine.Dispatch` | src/components/CanvasOverlay.tsx:203-220 | the new fields and the reported list are those of `Handle` |
| `CanvasRender.RadiusSquared` | src/components/CanvasOverlay.tsx:97-104 | the squared radius is non-negative and zero exactly when the pointer did not move |
| `CanvasRender.LineTosAt` | src/components/CanvasOverlay.tsx:85-91 | one `lineTo` per point, in order |
| `CanvasRender.PolylineShape` | src/components/CanvasOverlay.tsx:85-91 | a polyline of n points is `beginPath`, one `moveTo(points[0])`, n-1 `lineTo`s in order, then `stroke`; it holds exactly one `moveTo` |
| `CanvasRender.Geometry` | src/components/CanvasOverlay.tsx:85-112 | a shape paints something exactly when its payload is present; geometry never changes the style; a pen, eraser or highlight stroke with points is the polyline through them; a text note is save, font, shadow, `fillText` at its position, restore; a line is `moveTo(start)`, `lineTo(end)`, stroke; a circle is one arc centred on `start` whose squared radius is the squared distance to `end` |
| `CanvasRender.DrawShapeStart` | src/components/CanvasOverlay.tsx:70-77 | every shape first sets its line width and its tool's composite mode |
| `CanvasRender.UndrawableShapePaintsNothing` | src/components/CanvasOverlay.tsx:85-112 | a shape with missing points, ends or text paints nothing |
| `CanvasRender.EraserSetsNoColour` | src/components/CanvasOverlay.tsx:78-83 | the eraser never sets the stroke or fill colour |
| `CanvasRender.DrawAllAppend` | src/components/CanvasOverlay.tsx:115 | drawing `a + b` draws `a`, then `b`: paint order is list order |
| `CanvasRender.DrawAllSplit` | src/components/CanvasOverlay.tsx:115 | the commands of a list are those of any prefix followed by those of the rest |
| `CanvasRender.DrawAllAt` | src/components/CanvasOverlay.tsx:115 | shape i is drawn after shapes 0..i-1 and before the rest, so a shape with nothing to paint does not stop later ones |
| `CanvasRender.DrawAllSnoc` | src/components/CanvasOverlay.tsx:115 | the commands up to shape i are those of the shapes before it, then its own |
| `CanvasRender.CircleScenarioDraws` | src/components/CanvasOverlay.tsx:97-104 | the circle pressed at (0, 0) and released at (3, 4) is drawn as the arc around (0, 0) with squared radius 25 |
| `CanvasRender.CommitKeepsPicture` | src/components/CanvasOverlay.tsx:115-118 | committing the current shape leaves the command list unchanged |
| `CanvasRender.ExecAppend` | src/components/CanvasOverlay.tsx:59-122 | running two command lists is running the first, then the second |
| `CanvasRender.ExecNoStyle` | src/components/CanvasOverlay.tsx:85-112 | commands that set no style leave the context as it was |
| `CanvasRender.ExecSnoc` | src/components/CanvasOverlay.tsx:59-122 | one more command updates the context reached so far |
| `CanvasRender.ExecStyle` | src/components/CanvasOverlay.tsx:70-83 | after a shape's style commands the context has its composite and width, and (except for the eraser) its colour as stroke and fill |
| `CanvasRender.ExecInk` | src/components/CanvasOverlay.tsx:70-83 | width, composite, stroke and fill calls leave exactly those four values in the context |
| `CanvasRender.DrawShapeContext` | src/components/CanvasOverlay.tsx:69-113 | after drawing a shape the context has its tool's composite mode and width; the eraser keeps the old colours |
| `CanvasRender.RenderResetsComposite` | src/components/CanvasOverlay.tsx:121 | after a render the composite mode is `source-over`, whatever was drawn |
| `CanvasRender.StyleInto` | src/components/CanvasOverlay.tsx:70-83 | the emitted style commands are `StyleCommands` |
| `CanvasRender.PolylineInto` | src/components/CanvasOverlay.tsx:85-91 | the loop over the points emits `Polyline` |
| `CanvasRender.DrawShapeInto` | src/components/CanvasOverlay.tsx:69-113 | the emitted commands are `DrawShape` |
| `CanvasRender.RenderCanvas` | src/components/CanvasOverlay.tsx:59-122 | the loop over the shapes emits `Render`: the shapes in order, the current shape last, then the composite reset |
| `AnnotationStore.FirstMatch` | convex/annotations.ts:7-10 | the index of the first row with the resume id, or none when no row has it |
| `AnnotationStore.Patch` | convex/annotations.ts:12-13 | the row with the document id gets the new shapes and timestamp; every other row is unchanged |
| `AnnotationStore.Upsert` | convex/annotations.ts:4-22 | with no row for the id, appends exactly one row with the shapes and timestamp `now`; otherwise keeps the row count and changes only the first matching row's shapes and timestamp |
| `AnnotationStore.UpsertKeepsIdsFresh` | convex/annotations.ts:14-19 | the document id counter stays above every row's id |
| `AnnotationStore.Lookup` | convex/annotations.ts:24-32 | returns a row exactly when one has the resume id, and then the first row with that id: no earlier row has it |
| `AnnotationStore.LoadAfterSave` | convex/annotations.test.ts:107-115 | loading after saving returns a row with the saved shapes and timestamp |
| `AnnotationStore.CountZero` | convex/annotations.ts:7-10 | a table with no row for the id counts zero of them |
| `AnnotationStore.CountSameIds` | convex/annotations.ts:12-13 | tables whose rows have the same resume ids count the same |
| `AnnotationStore.CountSnoc` | convex/annotations.ts:14-19 | inserting a row adds one to its id's count only |
| `AnnotationStore.CountAtLeastOne` | convex/annotations.ts:7-10 | a table holding a row with the id counts at least one |
| `AnnotationStore.UpsertCounts` | convex/annotations.ts:7-19 | after saving, exactly one row has the id, and every other id has as many rows as before |
| `AnnotationStore.SaveTwice` | convex/annotations.test.ts:87-105 | two saves for one id leave one row holding the second shapes and timestamp, and the second save adds no row |
| `AnnotationStore.AnnotationTable.constructor` | convex/annotations.test.ts:11-68 | the table starts empty |
| `AnnotationStore.AnnotationTable.Save` | convex/annotations.ts:4-22 | the rows become `Upsert` of the old rows; the table invariant is kept |
| `AnnotationStore.AnnotationTable.Load` | convex/annotations.ts:24-32 | the first row with the resume id (no earlier row has it), or none when no row has it |
| `QueryParams.Or` | src/components/PageToolbar.tsx:42-45 | JavaScript `\|\|` on `string \| null`: the first operand unless it is null or empty |
| `QueryParams.Get` | src/components/PageToolbar.tsx:42-45 | none exactly when no pair has the name; otherwise the value of the first pair with that name |
| `QueryParams.HasAt` | src/components/PageToolbar.tsx:42-54 | a name is present exactly when some pair has it |
| `QueryParams.Delete` | src/components/PageToolbar.tsx:49-50 | no pair has the name afterwards, and the list does not grow |
| `QueryParams.DeleteKeeps` | src/components/PageToolbar.tsx:49-50 | a pair survives exactly when it was there under another name |
| `QueryParams.DeleteAbsent` | src/components/PageToolbar.tsx:49-50 | deleting an absent name changes nothing |
| `QueryParams.DeleteAppend` | src/components/PageToolbar.tsx:49-50 | deleting distributes over concatenation |
| `QueryParams.DeleteCommutes` | src/components/PageToolbar.tsx:49-50 | deleting `target` and then `url` is the same as the other order |
| `QueryParams.GetAfterDelete` | src/components/PageToolbar.tsx:49-50 | deleting a name leaves the value of every other name |
| `QueryParams.ReplaceFirstDelete` | src/components/PageToolbar.tsx:48 | rewriting the first pair changes only pairs with that name |
| `QueryParams.ReplaceFirstGet` | src/components/PageToolbar.tsx:48 | after rewriting, the name's value is the new one |
| `QueryParams.ReplaceFirstSingle` | src/components/PageToolbar.tsx:48 | after rewriting, exactly one pair has the name |
| `QueryParams.SingleCons` | src/components/PageToolbar.tsx:48 | a pair under another name in front keeps exactly one pair with the name |
| `QueryParams.SingleAppend` | src/components/PageToolbar.tsx:53 | appending under an absent name leaves exactly one pair with it |
| `QueryParams.SetProperties` | src/components/PageToolbar.tsx:48-53 | after `set`, `get` returns the new value, exactly one pair has the name, and the pairs with other names are those of before, in order |
| `QueryParams.SetLength` | src/components/PageToolbar.tsx:48-53 | `set` of an absent name appends one pair; of a present one it never grows the list |
| `QueryParams.GetPrefixAbsent` | src/components/PageToolbar.tsx:42-45 | a prefix without the name does not change its value |
| `QueryParams.GetAfterSet` | src/components/PageToolbar.tsx:48-53 | `set` leaves the value of every other name |
| `QueryParams.GetAfterReplaceFirst` | src/components/PageToolbar.tsx:48 | rewriting one name leaves the value of every other name |
| `QueryParams.GetAppendOther` | src/components/PageToolbar.tsx:53 | appending a pair leaves the value of every other name |
| `PageToolbar.ExternalPage` | src/components/PageToolbar.tsx:42-45 | `page` if non-empty, else `target` if non-empty, else `url`; non-empty exactly when one of the three is |
| `PageToolbar.ShareQueryProperties` | src/components/PageToolbar.tsx:47-54 | the link has exactly one `id`, the fresh one; with an external page it has `page` set to it and no `target` or `url`; without one only `id` is set |
| `PageToolbar.HasAfterSet` | src/components/PageToolbar.tsx:48-53 | `set` of one name does not change the presence of another |
| `PageToolbar.Save` | src/components/PageToolbar.tsx:26-60 | an empty list sends nothing; otherwise the request carries the fresh id and the whole serialised list; the link is set exactly when the list is non-empty and the save succeeded, and is otherwise kept, with an error notice |
| `PageToolbar.Toolbar.constructor` | src/components/PageToolbar.tsx:14 | no saved link at first |
| `PageToolbar.Toolbar.HandleSave` | src/components/PageToolbar.tsx:26-60 | request, notice and new link are those of `Save`; a successful save upserts the table and advances its id counter only on an insert; an empty list or a failing save leaves the table unchanged |
| `PageToolbar.Toolbar.Close` | src/components/PageToolbar.tsx:94 | the saved link is cleared |
| `WebPageViewer.Round` | src/components/WebPageViewer.tsx:22 | `Math.round`: the integer within one half below and strictly less than one half above |
| `WebPageViewer.MaxReal` | src/components/WebPageViewer.tsx:32 | the larger of the two |
| `WebPageViewer.NatToString` | src/components/WebPageViewer.tsx:45 | a natural number is written as digits without a leading zero |
| `WebPageViewer.IntToString` | src/components/WebPageViewer.tsx:45 | a negative number is `-` followed by digits |
| `WebPageViewer.DigitsRoundTrip` | src/components/WebPageViewer.tsx:45 | the digits read back as the number written |
| `WebPageViewer.InitialManualHeight` | src/components/WebPageViewer.tsx:16-23 | present exactly when `height` (or else `h`) is non-empty and parses to a finite positive number; then it is that number rounded |
| `WebPageViewer.AppliedHeight` | src/components/WebPageViewer.tsx:52-53 | the measured height if any, else the manual one, else `max(innerHeight, 1600)` |
| `WebPageViewer.HeightInputValue` | src/components/WebPageViewer.tsx:54 | the manual height, or else the applied height rounded |
| `WebPageViewer.FrameStyleHeight` | src/components/WebPageViewer.tsx:109 | `max(applied, 400)`: never below either, and equal to one of them |
| `WebPageViewer.Taller` | src/components/WebPageViewer.tsx:133 | the input value plus 600 |
| `WebPageViewer.Shorter` | src/components/WebPageViewer.tsx:138 | the input value minus 600, never below 400 |
| `WebPageViewer.HeightUpdated` | src/components/WebPageViewer.tsx:25-39 | a readable body records the maximum of the two scroll heights when it is positive and keeps the old height otherwise; no document changes nothing; an exception or a missing body sets the status to blocked |
| `WebPageViewer.Loaded` | src/components/WebPageViewer.tsx:68-95 | a readable document records the positive maximum scroll height as `updateHeight` does and sets the status to ok; an exception or missing body sets it to blocked; no document changes nothing |
| `WebPageViewer.UrlReset` | src/components/WebPageViewer.tsx:56-59 | the status becomes unknown and the measured height is cleared |
| `WebPageViewer.ManualHeightApplied` | src/components/WebPageViewer.tsx:41-50 | the manual height becomes `next`; `height` is set to `round(next)` when `next` is present and non-zero, deleted otherwise; other parameters are unchanged |
| `WebPageViewer.HeightTyped` | src/components/WebPageViewer.tsx:124-131 | a finite positive number is applied; anything else clears the manual height |
| `WebPageViewer.InputValueNonNegative` | src/components/WebPageViewer.tsx:54 | the input value is never negative |
| `WebPageViewer.TransitionsKeepSane` | src/components/WebPageViewer.tsx:25-138 | every handler keeps the measured height positive and the manual height non-negative; Taller gives at least 600 and Shorter at least 400 |
| `WebPageViewer.InitialSane` | src/components/WebPageViewer.tsx:14-23 | the initial state has no measured height and a non-negative manual height |
| `WebPageViewer.ManualHeightSurvivesReload` | src/components/WebPageViewer.tsx:16-23 | a page reloaded after applying a height reads back that height, rounded |
| `WebPageViewer.Viewer.constructor` | src/components/WebPageViewer.tsx:14-23 | the fields are the initial state |
| `WebPageViewer.Viewer.UpdateHeight` | src/components/WebPageViewer.tsx:25-39 | the new fields are those of `HeightUpdated` |
| `WebPageViewer.Viewer.HandleLoad` | src/components/WebPageViewer.tsx:68-95 | the new fields are those of `Loaded` |
| `WebPageViewer.Viewer.UrlChanged` | src/components/WebPageViewer.tsx:56-59 | the new fields are those of `UrlReset` |
| `WebPageViewer.Viewer.ApplyManualHeight` | src/components/WebPageViewer.tsx:41-50 | the new fields are those of `ManualHeightApplied` |
| `WebPageViewer.Viewer.OnHeightInput` | src/components/WebPageViewer.tsx:124-131 | the new fields are those of `HeightTyped` |
| `WebPageViewer.Viewer.Taller` | src/components/WebPageViewer.tsx:133 | the manual height becomes the input value plus 600 |
| `WebPageViewer.Viewer.Shorter` | src/components/WebPageViewer.tsx:138 | the manual height becomes the input value minus 600, at least 400 |
| `JsText.TrimStart` | src/utils/resumeParser.ts:8 | the result does not start with white space |
| `JsText.TrimStartSuffix` | src/utils/resumeParser.ts:8 | the result is a suffix, and only white space was removed |
| `JsText.TrimEnd` | src/utils/resumeParser.ts:8 | the result does not end with white space |
| `JsText.TrimEndPrefix` | src/utils/resumeParser.ts:8 | the result is a prefix, and only white space was removed |
| `JsText.Trim` | src/utils/resumeParser.ts:8 | the result neither starts nor ends with white space |
| `JsText.TrimStartOfTrimmed` | src/utils/resumeParser.ts:8 | text not starting with white space is kept |
| `JsText.TrimEndOfTrimmed` | src/utils/resumeParser.ts:8 | text not ending with white space is kept |
| `JsText.TrimOfTrimmed` | src/utils/resumeParser.ts:8 | trimmed text is kept |
| `JsText.TrimIdempotent` | src/utils/resumeParser.ts:12 | trimming twice is trimming once |
| `JsText.TrimChars` | src/utils/resumeParser.ts:8 | trimming adds no character |
| `JsText.TrimKeeps` | src/utils/resumeParser.ts:8 | a character other than white space is kept exactly when present |
| `JsText.Split` | src/utils/resumeParser.ts:12 | at least one piece, and no piece holds the separator |
| `JsText.JoinSplit` | src/utils/resumeParser.ts:12 | joining the pieces with the separator gives back the text |
| `JsText.SplitWithoutSeparator` | src/utils/resumeParser.ts:22 | text without the separator is one piece |
| `JsText.SplitAtFirst` | src/utils/resumeParser.ts:22 | the first piece ends at the first separator |
| `JsText.SplitHasSeparator` | src/utils/resumeParser.ts:22 | a separator gives at least two pieces |
| `JsText.SplitPieces` | src/utils/resumeParser.ts:22 | more than one piece exactly when the separator occurs |
| `ResumeMarkup.FindClose` | src/utils/resumeParser.ts:6-7 | the lazy group ends at the first closing delimiter, provided no line terminator comes first |
| `ResumeMarkup.Replace` | src/utils/resumeParser.ts:6-7 | the rewrite adds no characters but those of the tags |
| `ResumeMarkup.CleanText` | src/utils/resumeParser.ts:4-9 | the result has no leading or trailing white space |
| `ResumeMarkup.CleanTextCharacters` | src/utils/resumeParser.ts:4-9 | cleaning adds no characters but those of `<strong>`, `</strong>`, `<em>`, `</em>` |
| `ResumeMarkup.ReplaceWithoutDelimiter` | src/utils/resumeParser.ts:6-7 | text in which the delimiter never occurs is unchanged |
| `ResumeMarkup.NoStarNoDelimiter` | src/utils/resumeParser.ts:6-7 | text without `*` holds neither delimiter |
| `ResumeMarkup.CleanTextWithoutStars` | src/utils/resumeParser.ts:4-9 | text without `*` is only trimmed |
| `ResumeMarkup.ReplaceEnclosed` | src/utils/resumeParser.ts:6-7 | a delimited run of star-free text on one line becomes open tag, text, close tag |
| `ResumeMarkup.TaggedIsFinal` | src/utils/resumeParser.ts:7-8 | star-free tagged text is left alone by the italic rewrite and by trimming |
| `ResumeMarkup.CleanTextStrong` | src/utils/resumeParser.ts:4-9 | `**x**` becomes `<strong>x</strong>` for star-free single-line x |
| `ResumeMarkup.CleanTextEm` | src/utils/resumeParser.ts:4-9 | `*x*` becomes `<em>x</em>` for star-free single-line x, the empty one included |
| `ResumeMarkup.CleanTextEmptyEm` | src/utils/resumeParser.ts:4-9 | `**` is no bold run (that needs four stars) and becomes `<em></em>` |
| `ResumeMarkup.LoneBoldDelimiter` | src/utils/resumeParser.ts:6 | a lone `**` without a closing `**` is kept by the bold rewrite |
| `ResumeMarkup.NoBoldInItalic` | src/utils/resumeParser.ts:6 | `*x*` with star-free non-empty x holds no `**` |
| `ResumeMarkup.NoStarInTagged` | src/utils/resumeParser.ts:6-7 | star-free parts concatenate to star-free text |
| `ResumeMarkup.FindCloseAfterPlain` | src/utils/resumeParser.ts:6-7 | after star-free single-line text the closing delimiter is found right at its end |
| `ResumeSections.TrimAll` | src/utils/resumeParser.ts:12 | each line trimmed, count and order kept |
| `ResumeSections.CleanAll` | src/utils/resumeParser.ts:166 | each part cleaned, count and order kept |
| `ResumeSections.HeaderItem` | src/utils/resumeParser.ts:91-105 | a `## ` line gives an item with no highlights, no page break and trimmed company, role and period |
| `ResumeSections.HeaderItemParts` | src/utils/resumeParser.ts:91-103 | `## c \| r \| p` gives company, role and period as the cleaned trimmed parts, `''` for a blank role or period |
| `ResumeSections.HeaderItemCompanyOnly` | src/utils/resumeParser.ts:97-103 | `## c` without `\|` gives the cleaned company and `''` role and period |
| `ResumeSections.StripMarkers` | src/utils/resumeParser.ts:122 | removes a leading run of `*`, `-` and white space: the result is a suffix that does not start with one of them |
| `ResumeSections.ExperienceStep` | src/utils/resumeParser.ts:86-130 | a blank line changes nothing; a line that is not a `## ` line changes nothing before the first item |
| `ResumeSections.BulletStep` | src/utils/resumeParser.ts:107-128 | a `BREAK` bullet only sets the page break; any other top-level bullet appends its cleaned text; a nested one appends `  - ` and its cleaned text when the item has a highlight, and changes nothing otherwise |
| `ResumeSections.ParseExperience` | src/utils/resumeParser.ts:82-134 | the loop's items are `Experience` of the lines |
| `ResumeSections.StepItems` | src/utils/resumeParser.ts:91-128 | a `## ` line starts a new item after those so far; any other line keeps the earlier items and the heading of the last |
| `ResumeSections.ExperienceFollowsHeaders` | src/utils/resumeParser.ts:91-132 | one item per `## ` line, in order, with company, role and period from that line |
| `ResumeSections.CleanedBullet` | src/utils/resumeParser.ts:114-126 | a cleaned bullet does not start with a space |
| `ResumeSections.BulletWellFormed` | src/utils/resumeParser.ts:107-128 | a bullet never adds `BREAK` as a highlight and never makes the first highlight nested |
| `ResumeSections.StepWellFormed` | src/utils/resumeParser.ts:86-130 | every line keeps the items well formed |
| `ResumeSections.ExperienceWellFormed` | src/utils/resumeParser.ts:82-134 | no item has a `BREAK` highlight or a nested first highlight |
| `ResumeSections.ExperienceFoldAppend` | src/utils/resumeParser.ts:86-130 | parsing `a + b` continues from the state after `a` |
| `ResumeSections.NoHeadersNoItems` | src/utils/resumeParser.ts:96-98 | lines without a `## ` line yield no item |
| `ResumeSections.LinesBeforeFirstHeaderDropped` | src/utils/resumeParser.ts:107-128 | lines before the first `## ` line are dropped |
| `ResumeSections.StepKeepsItem` | src/utils/resumeParser.ts:86-128 | a line without `## ` keeps the open item's heading and sets its page break exactly when it is a `BREAK` bullet |
| `ResumeSections.BreakSnoc` | src/utils/resumeParser.ts:109 | a `BREAK` bullet is among `front + [raw]` exactly when it is among `front` or is `raw` |
| `ResumeSections.AnyBreakAt` | src/utils/resumeParser.ts:109 | the recursive test for a `BREAK` bullet holds exactly when some line is one |
| `ResumeSections.BodyKeepsItem` | src/utils/resumeParser.ts:86-128 | lines without `## ` keep the open item open with its heading; its page break is set exactly when one of them is a `BREAK` bullet |
| `ResumeSections.ExperiencePageBreak` | src/utils/resumeParser.ts:82-132 | the item a `## ` line opens has that line's heading and has a page break exactly when a `BREAK` bullet follows it before the next `## ` line |
| `ResumeSections.EducationLine` | src/utils/resumeParser.ts:139-149 | an item exactly when the line holds `\|`; degree and institution are trimmed |
| `ResumeSections.EducationLineTrimmed` | src/utils/resumeParser.ts:139 | a line is read trimmed: surrounding blanks change nothing |
| `ResumeSections.EducationTwoParts` | src/utils/resumeParser.ts:141-147 | `d \| i` gives the cleaned trimmed degree and institution and no period |
| `ResumeSections.EducationThreeParts` | src/utils/resumeParser.ts:141-147 | `d \| i \| p` gives the cleaned trimmed degree, institution and period |
| `ResumeSections.Education` | src/utils/resumeParser.ts:136-152 | never more items than lines |
| `ResumeSections.EducationCount` | src/utils/resumeParser.ts:136-152 | one item per line holding `\|` |
| `ResumeSections.EducationAppend` | src/utils/resumeParser.ts:136-152 | the items of `a + b` are those of `a`, then those of `b`, in order |
| `ResumeSections.ParseEducation` | src/utils/resumeParser.ts:136-152 | the loop's items are `Education` of the lines |
| `ResumeSections.SkillOf` | src/utils/resumeParser.ts:160-168 | a category exactly when the text holds `:`; its name is trimmed and it has at least one item |
| `ResumeSections.SkillIgnoresSecondColon` | src/utils/resumeParser.ts:163-167 | the category is the cleaned text before the first `:`, the items the cleaned `,`-parts up to the second `:`, and anything after it is dropped |
| `ResumeSections.SkillOfParts` | src/utils/resumeParser.ts:162-166 | with no `:` in the category, the items come from the piece after the first `:` |
| `ResumeSections.Skills` | src/utils/resumeParser.ts:154-172 | never more categories than lines |
| `ResumeSections.SkillsLine` | src/utils/resumeParser.ts:159-168 | one line gives the category of the text after `* ` when it is a `* ` bullet holding `:`, and nothing otherwise |
| `ResumeSections.SkillsAppend` | src/utils/resumeParser.ts:154-172 | the categories of `a + b` are those of `a`, then those of `b`, so with `SkillsLine` the list is one category per such line, in order |
| `ResumeSections.SkillsFromColonBullets` | src/utils/resumeParser.ts:154-172 | every category is trimmed and non-empty; lines without `* ` or without `:` yield none |
| `ResumeSections.ParseSkills` | src/utils/resumeParser.ts:154-172 | the loop's categories are `Skills` of the lines |
| `ResumeSections.ListSection` | src/utils/resumeParser.ts:174-179 | never longer than the input, and every item is trimmed |
| `ResumeSections.ListSectionProperties` | src/utils/resumeParser.ts:174-179 | one item per `* ` or `- ` line, in order: the items of `a + b` are those of `a`, then those of `b` |
| `ResumeSections.ListSectionLine` | src/utils/resumeParser.ts:174-179 | one line gives its cleaned text after the two-character marker when it is a `* ` or `- ` bullet, and nothing otherwise |
| `ResumeParser.FirstLine` | src/utils/resumeParser.ts:19-29 | the first line starting with the prefix, or none when no line does |
| `ResumeParser.HeaderNameTitle` | src/utils/resumeParser.ts:19-25 | `# name\|title` with trimmed parts gives back that name and title |
| `ResumeParser.Field` | src/utils/resumeParser.ts:36-40 | a part with the prefix sets the field; any other part leaves it |
| `ResumeParser.FieldValue` | src/utils/resumeParser.ts:36-40 | a part made of the prefix and a value sets the field to the value, trimmed |
| `ResumeParser.LastValue` | src/utils/resumeParser.ts:35-41 | none exactly when no part has the prefix |
| `ResumeParser.LastValueIsLast` | src/utils/resumeParser.ts:35-41 | the value is that of the part with the prefix after which no part has it |
| `ResumeParser.ContactLastWins` | src/utils/resumeParser.ts:35-41 | each contact field holds the value of the last part with its prefix, or stays absent |
| `ResumeParser.Pieces` | src/utils/resumeParser.ts:46 | the split always yields at least one piece |
| `ResumeParser.NoCutCons` | src/utils/resumeParser.ts:46 | a character in front of a piece without a line-start `# ` adds none, unless the text then starts with a `# ` at line start |
| `ResumeParser.PiecesCut` | src/utils/resumeParser.ts:46 | the first piece begins the text; no piece holds a `# ` at the start of a line; every piece but the last is followed by a `# ` at the start of a line |
| `ResumeParser.JoinConsFirst` | src/utils/resumeParser.ts:46 | a character in front of the first piece is in front of the joined text |
| `ResumeParser.PiecesJoin` | src/utils/resumeParser.ts:46 | splitting at line-start `# ` and joining with `# ` gives back the file; with `PiecesCut` this fixes where the cuts are |
| `ResumeParser.SkipTitle` | src/utils/resumeParser.ts:54 | the text looked for to skip the name section is never empty |
| `ResumeParser.ApplySection` | src/utils/resumeParser.ts:48-77 | a section never changes name, title or contact; a title containing the name, or an unknown title, changes nothing |
| `ResumeParser.ApplySectionDispatch` | src/utils/resumeParser.ts:54-77 | a section not skipped for the name sets exactly its title's field from that field's parser: each exact title first, then a title containing `EXPERTISE` sets the expertises, and only otherwise one containing `INDUSTRY` sets the industries |
| `ResumeParser.ApplySections` | src/utils/resumeParser.ts:48-77 | sections never change name, title or contact |
| `ResumeParser.HeaderAndContact` | src/utils/resumeParser.ts:19-42 | name and title come from the first `# ` line, contact from the first `> ` line, and each stays absent without its line |
| `ResumeParser.ApplySectionsSnoc` | src/utils/resumeParser.ts:48 | one more section is applied to the resume reached so far |
| `ResumeParser.ApplySectionsAppend` | src/utils/resumeParser.ts:48 | applying the sections of `a + b` is applying those of `a`, then those of `b` |
| `ResumeParser.IgnoredSectionsChangeNothing` | src/utils/resumeParser.ts:56-77 | a section with an unknown title, wherever it comes, leaves the result unchanged |
| `ResumeParser.ReadContact` | src/utils/resumeParser.ts:35-41 | the loop over the contact parts yields `ContactFold` of them |
| `ResumeParser.ReadPreamble` | src/utils/resumeParser.ts:19-42 | the header and contact steps yield `Preamble` of the lines |
| `ResumeParser.ReadSections` | src/utils/resumeParser.ts:48-77 | the loop over the sections yields `ApplySections` of them |
| `ResumeParser.ParseResume` | src/utils/resumeParser.ts:11-80 | the whole parse yields `ParsedResume` of the file |

## Left out

- Pixels and DOM geometry: the canvas context is modelled as a list of draw commands, so `clearRect`, shadows and fonts as pixels, pointer positions (taken as given integers) and canvas resizing are not modelled.
- Floating point: canvas coordinates are integers, and a circle is stated by its squared radius rather than `Math.sqrt`/`Math.pow`. Viewer heights are exact reals, so the rounding of binary floats is not modelled.
- `prompt()`, `Date.now()` and `Math.random()` are parameters (the text input, the timestamp and the fresh id); nothing is claimed about id uniqueness.
- `JSON.stringify` is the opaque `serialize` parameter. `JSON.parse` and the app keeping its previous shapes when parsing fails (src/App.tsx:35-41) are not part of this model.
- Convex `mutation`/`query` wrappers, indexes and the schema; the test mock is the `AnnotationTable` class. The row `_id` is a counter.
- React hooks, batching and stale closures: each event is a sequential transition that sees the previous one's result. `currentShapeRef` duplicates `currentShape` and is not modelled separately.
- Toasts, the clipboard and `window.print` are not modelled; a toast appears only as the `Notice` result of a save.
- `history.replaceState` is the `query` field of the viewer; the rest of the URL and its serialisation are one opaque `base` string.
- `ResizeObserver`, window resize and iframe load listeners are not modelled; their handlers are the `UpdateHeight` and `HandleLoad` methods.
- `Number(...)` is the `toNumber` parameter. Scroll heights are integers, so the finiteness guard of `updateHeight` always passes.
- `IntToString` writes integers only, as `Math.round` produces them; exponent notation for huge numbers is not modelled.
- `toUpperCase` maps ASCII letters only.
- `ResumeRender.tsx` and `Toolbar.tsx` are layout; they only read the parser's `'  - '` marker and are not part of this model.
- `highlightBlendMode` is passed to the overlay but never read there, so highlight is always `multiply`.
- There is no undo history in the code: the app holds one shape list and Reset sets it to empty.
- `src/__tests__/App.test.tsx` expects a landing page the app does not render and is not modelled.
- `hasPageBreak` is false rather than undefined until a `BREAK` bullet sets it.
- Whitespace and line terminators follow the ECMAScript sets, restricted to the characters listed in `JsText`.
- ResumeSections.HeaderItemParts and ResumeSections.EducationThreeParts: state the items for parts without a further `|`; a fourth part is dropped by `HeaderItem` and `EducationLine` themselves but no lemma states it.
- ResumeParser.HeaderNameTitle: states the header split for a single `|` with no spaces around it; longer headers are covered by `Header` itself and `HeaderAndContact`.
- WebPageViewer.ManualHeightSurvivesReload: assumes `toNumber` reads a digit string as its value, which `Number(...)` does.
- WebPageViewer.Viewer.Taller and WebPageViewer.Viewer.Shorter take `innerHeight` as a parameter, because the window size is outside the model.
