# Style-transfer window: event-loop model

This project models the control logic of the "Art generation" window, a
PySimpleGUI front end to a neural style-transfer network, in Dafny. The user
picks a content image and a style image, or picks a style from a paged strip of
bundled templates. The user can then combine the two, save the result, or turn
on the camera and optionally filter every frame through the network.

Pixels, widgets and the network are abstracted away. The state keeps:

- the content image, style image and result, each as an optional token. The
  token records only where the picture came from (`App.Picture`).
- the `recording` and `filtering` flags.
- the template browser: the current page, the two arrow buttons and the eight
  template buttons (`Paging.Pager`).
- the enabled state of Combine, Save and Apply Filter.

One call of `window.read(timeout=10)` and the handling that follows it is one
`App.Step`. `App.Run` folds `Step` over a sequence of ticks.

Modules:

- `Pages` (pages.dfy): the page/button to catalog-index arithmetic, the rule
  deciding which template buttons are enabled, the page count as the program
  computes it (`MaxPage`) and the page count it evidently intends (`PageCount`).
- `Paging` (paging.dfy): the catalog (template count and page count), the
  browser's initial state and the left/right moves.
- `App` (app.dfy): state, events, one function per handler, the end-of-tick
  step, `Step`, `Run`, and the invariant `Inv`.
- `Properties` (properties.dfy): lemmas relating several ticks, and the
  template-reachability finding.

Decisions taken where the program leaves room:

- A click on a disabled button produces no event, so the read times out.
  `App.Delivered` turns such a click into `Timeout`. Every `Step` is defined,
  and a disabled button never runs its handler.
- `continue` (DoAn_UI.py:253, 257, 308) is `App.Handled.Skip`. It ends the
  tick before the Save refresh and the camera read.
- The Save flag is set from the result before the camera read (line 338 before
  line 341). On the tick the camera is switched on, the result is therefore a
  frame while Save is still disabled. The invariant only ties Save to the
  result while not recording. While recording, a result is always present.
- If `video.read()` returns no frame, `cv2.resize` receives `None` and
  raises. No handler covers that code, so the program ends
  (`Crashed(CameraReadFailed)`). A design that survives a failed read would
  need a handler there; this model follows the code as it stands.
- A filtered frame needs a style for the network call. The model treats a
  filtering tick without a style as ending the program
  (`Crashed(FilterWithoutStyle)`). `Step` proves this never happens from a
  state satisfying `Inv`.
- The page count follows the code: `len(templates_list) // 10 + 1` (line 112).
  With 17 templates this gives 2 pages, not the 3 that 8 buttons per page
  need. See "## Findings".
- The window machine is parametric in `Paging.Catalog(count, maxPage)`, so it
  runs with the page count as written (`Paging.AsWritten`) and with the
  corrected one (`Paging.Corrected`). Every invariant holds for both.

## Model

| member | source | states |
|---|---|---|
| Pages.TemplateIndex | DoAn_UI.py:80-81 | button `slot` < 8 on page ≥ 1 maps into that page's block of 8 indices, from `(page-1)*8` up to but excluding `page*8` |
| Pages.Locate | DoAn_UI.py:80-81 | every index k ≥ 0 is the template index of some (page ≥ 1, button < 8) pair, the inverse of `get_template_index`; whether that page exists depends on the page count |
| Pages.LocateInvertsTemplateIndex | DoAn_UI.py:80-81 | for page ≥ 1 and button < 8, the index `(page-1)*8 + button` is non-negative and locates back to exactly that page and button |
| Pages.DistinctSlotsShowDistinctTemplates | DoAn_UI.py:80-81 | two different (page, button) pairs never show the same template, so pages cover disjoint index ranges |
| Pages.FillTemplate | DoAn_UI.py:84-94 | a page has 8 buttons; a button is enabled iff its template index is below the template count, so an enabled button on a page ≥ 1 indexes an existing template; enabled buttons form a prefix of the page |
| Pages.MaxPage | DoAn_UI.py:112 | the page count is at least 1 for every template count, and it is one more than the number of whole tens in the count |
| Pages.PageCount | DoAn_UI.py:112 | the corrected page count is at least 1, holds every template at 8 per page, and has no empty last page |
| Pages.ShownTemplatesBelowPageBound | DoAn_UI.py:80-81 | for any page bound M, no button on a page 1..M shows an index at or beyond 8 × M; with M = `max_page` (line 112) this is why high indices stay hidden; `App.OnSelectTemplate` uses it |
| Pages.PageCountCoversCatalog | DoAn_UI.py:84-94 | with the corrected page count, every existing template lies on a page in range and its button is enabled there |
| Paging.AsWritten | DoAn_UI.py:109-112 | the catalog as loaded has at least one page, counted in tens |
| Paging.Corrected | DoAn_UI.py:112 | the corrected catalog has at least one page and room for every template |
| Paging.InitPager | DoAn_UI.py:209-215 | the window opens on page 1 with left disabled, right disabled iff there is a single page, and the buttons filled for page 1; the page invariant holds |
| Paging.MoveRight | DoAn_UI.py:320-326 | the page grows by exactly 1 and left is enabled; from an enabled right arrow, right becomes disabled iff the last page is reached and the page invariant is preserved |
| Paging.MoveLeft | DoAn_UI.py:329-335 | the page shrinks by exactly 1 and right is enabled; from an enabled left arrow, left becomes disabled iff page 1 is reached and the page invariant is preserved |
| Paging.LeftUndoesRight | DoAn_UI.py:320-335 | an enabled right move followed by a left move restores page, arrows and buttons |
| Paging.RightUndoesLeft | DoAn_UI.py:320-335 | an enabled left move followed by a right move restores page, arrows and buttons |
| App.Init | DoAn_UI.py:209-215 | the opening state has no pictures, the camera off, Save and Apply Filter disabled, Combine enabled, page 1, and satisfies the loop invariant |
| App.Delivered | DoAn_UI.py:219 | the read returns the click iff its button is enabled and otherwise times out; window close and timeouts pass through |
| App.OnChooseImage | DoAn_UI.py:224-233 | a decoded file becomes the content image; a cancelled dialog or an unreadable file leaves the state unchanged; nothing else changes |
| App.OnChooseStyle | DoAn_UI.py:236-245 | a decoded file becomes the style; a cancelled dialog or an unreadable file leaves the state unchanged; a present style stays present |
| App.OnCombine | DoAn_UI.py:248-264 | the tick ends early iff the content image or the style is absent, and then nothing changes; otherwise only the result changes, to the network's output |
| App.OnOpenCamera | DoAn_UI.py:284-300 | recording flips, filtering is forced off, the result is cleared, Combine is disabled iff now recording, Apply Filter is disabled iff now not recording, and nothing else changes |
| App.OnApplyFilter | DoAn_UI.py:302-310 | the tick ends early, unchanged, iff the filter is being switched on with no style; otherwise exactly `filtering` flips; filtering is never left on without a style |
| App.OnSelectTemplate | DoAn_UI.py:314-317 | the style becomes the template at `(page-1)*8 + button`; for an enabled button on a valid page that template exists and is on a displayable page; nothing else changes |
| App.Handle | DoAn_UI.py:224-335 | only Combine and Apply Filter end a tick early, and then nothing changes; every enabled event preserves the flag consistency (page range, arrow and button flags, Combine/Apply Filter versus recording, filtering ⇒ recording, filtering ⇒ style, selected template in range) |
| App.EndOfTick | DoAn_UI.py:338-349 | Save is disabled iff there was no result before the camera read; a tick without recording keeps the result; a recording tick ends with a frame (styled iff filtering) or fails iff the camera gives no frame; the loop invariant is re-established |
| App.Step | DoAn_UI.py:218-349 | the loop stops iff the window is closed; from a state satisfying the invariant the next state satisfies it, and the only abnormal end is a failed camera read |
| App.Run | DoAn_UI.py:218-349 | the invariant holds after any sequence of ticks from a state satisfying it, and the only abnormal end is a failed camera read |
| Properties.ReachableStatesKeepInvariant | DoAn_UI.py:209-349 | every reachable state satisfies the invariant; in particular filtering implies recording and a present style |
| Properties.SaveNeedsResult | DoAn_UI.py:338 | whenever Save can be clicked, a result exists |
| Properties.CombineWithoutInputsIsNoOp | DoAn_UI.py:248-257 | Combine with a missing picture leaves the whole state unchanged, including the Save flag |
| Properties.CombineWithInputsProducesResult | DoAn_UI.py:248-261 | Combine with both pictures present gives the network's result and enables Save, nothing else changes |
| Properties.FilterWithoutStyleIsNoOp | DoAn_UI.py:302-308 | switching the filter on without a style leaves the whole state unchanged and skips the camera read |
| Properties.OpenCameraTwice | DoAn_UI.py:284-300 | two Open Camera ticks restore recording, leave filtering off and change nothing but the result and the Save flag |
| Properties.RightOnLastPageIsIdle | DoAn_UI.py:320-326 | on the last page a right click is an idle tick, and the right arrow stays disabled |
| Properties.LeftOnFirstPageIsIdle | DoAn_UI.py:329-335 | on page 1 a left click is an idle tick, and the left arrow stays disabled |
| Properties.SelectLiveTemplate | DoAn_UI.py:314-317 | clicking an enabled template button reads an existing template and makes it the style |
| Properties.RunAppend | DoAn_UI.py:218-221 | running two tick sequences in turn is running their concatenation |
| Properties.RightClicksAdvance | DoAn_UI.py:320-326 | k right clicks that stay within the page range advance the page by exactly k |
| Properties.CorrectedPagesReachEveryTemplate | DoAn_UI.py:112 | with 8 templates per page in the page count, every template can be made the style from the opening state |
| Properties.AsWrittenHidesTemplates | DoAn_UI.py:112 | with the page count as written, no click sequence makes a template at or beyond 8 × the page count the style |
| Properties.AsWrittenSeventeenTemplates | DoAn_UI.py:112 | with 17 templates the count gives 2 pages and template 16 is never selectable; with 9 templates, template 8 is never selectable |

## Left out

- Image decoding, resizing, colour conversion and PNG encoding (DoAn_UI.py:30-45, 58-77). These are library calls on float and byte buffers. Pictures are tokens.
- The template directory listing (DoAn_UI.py:48-55). It is filesystem I/O; only the number of loaded templates enters the model.
- The network and its loading (DoAn_UI.py:104-107). `model.predict` is assumed to return a picture every time. Combine's exception branch (DoAn_UI.py:262-264) therefore never runs in the model.
- The Save handler's dialog and file write (DoAn_UI.py:267-281). They change nothing the loop keeps, so Save is an event that leaves the state unchanged.
- The camera handle (DoAn_UI.py:114, 290, 296). Opening and releasing the device are not modelled; only whether a read returns a frame is. The handle opened at line 114 is replaced at line 296 without a release.
- Button colours, the page label text and popups and `print(e)` logging (DoAn_UI.py:232-233, 244-245, 252, 256, 263-264, 280-281, 288, 294, 298, 304, 307, 309, 323, 332). They are display only.
- Widget layout and constants of size and colour (DoAn_UI.py:11-27, 116-206). They are declarative.
- Process exit after `break` or an uncaught exception is the terminal outcome `Closed` or `Crashed`; nothing after it is modelled.

## Findings

| source | as written | input that shows it | evidently intended | confidence | as-written member | corrected member |
|---|---|---|---|---|---|---|
| DoAn_UI.py:112 | `max_page = len(templates_list) // 10 + 1`, with pages of `MAX_TEMPLATES_IN_PAGE = 8` buttons | 17 templates: 2 pages show indices 0-15, so template 16 can never be chosen (9 templates likewise hide template 8) | one page per 8 templates, at least one page | high; not executed | Properties.AsWrittenSeventeenTemplates | Properties.CorrectedPagesReachEveryTemplate |

The corrected page count is `Pages.PageCount`, used by `Paging.Corrected`.
The window machine and all its invariants are stated for any catalog with at
least one page, so they hold for the corrected page count as well.
