/** The window's event loop as a pure state machine: one `Step` per call of
    `window.read(timeout=10)`. Pixel buffers are replaced by tokens that only
    record where a picture came from. */
module App {
  import opened Pages
  import opened Paging

  datatype Option<T> = None | Some(value: T)

  /** Where a picture shown in one of the three panels came from. */
  datatype Picture =
    | FromFile                  // decoded from a file the user picked
    | FromTemplate(index: int)  // copied from the template catalog
    | Combined                  // the network's output for (style, image)
    | Frame                     // a camera frame shown as captured
    | StyledFrame               // a camera frame passed through the network

  /** The program's globals plus the enabled state of the buttons whose state
      changes while the window is open. */
  datatype State = State(
    image: Option<Picture>,
    style: Option<Picture>,
    result: Option<Picture>,
    recording: bool,
    filtering: bool,
    pager: Pager,
    combineDisabled: bool,
    saveDisabled: bool,
    filterDisabled: bool)

  /** What a file dialog followed by decoding produced. */
  datatype Pick = Cancelled | Unreadable | Decoded

  datatype Button =
    | ChooseImage(pick: Pick)
    | ChooseStyle(pick: Pick)
    | Combine
    | Save
    | OpenCamera
    | ApplyFilter
    | Template(slot: nat)
    | Left
    | Right

  /** What the user did during one read of the window. */
  datatype Input = Timeout | CloseWindow | Press(button: Button)

  /** Whether the camera handed over a frame when the tick read it. */
  datatype FrameRead = Grabbed | NoFrame

  datatype Tick = Tick(input: Input, camera: FrameRead)

  /** Exceptions that escape the loop and end the program. */
  datatype Failure = CameraReadFailed | FilterWithoutStyle

  datatype Outcome = Running(state: State) | Closed | Crashed(failure: Failure)

  /** A handler either falls through to the end of the tick or leaves the tick
      early with `continue`. */
  datatype Handled = Proceed(state: State) | Skip(state: State)

  /** A template shown as style was read from an existing catalog entry that
      some page displays. */
  predicate StyleInCatalog(cat: Catalog, style: Option<Picture>)
  {
    style.Some? && style.value.FromTemplate? ==>
      0 <= style.value.index < cat.count && style.value.index < SlotsPerPage * cat.maxPage
  }

  /** What holds between the event handler and the end of the tick. */
  predicate Consistent(cat: Catalog, s: State)
  {
    && ValidCatalog(cat)
    && PagerInv(cat, s.pager)
    && s.combineDisabled == s.recording
    && s.filterDisabled == !s.recording
    && (s.filtering ==> s.recording)
    && (s.filtering ==> s.style.Some?)
    && StyleInCatalog(cat, s.style)
  }

  /** What holds whenever the loop is about to read the window. */
  predicate Inv(cat: Catalog, s: State)
  {
    && Consistent(cat, s)
    && (s.recording ==> s.result.Some?)
    && (!s.recording ==> (s.saveDisabled <==> s.result.None?))
  }

  /** The state when the loop starts: no pictures, camera off, Save and Apply
      Filter disabled, the browser on page 1. */
  function Init(cat: Catalog): (s: State)
    requires ValidCatalog(cat)
    ensures Inv(cat, s)
    ensures s.image.None? && s.style.None? && s.result.None?
    ensures !s.recording && !s.filtering && s.pager.page == 1
    ensures !s.combineDisabled && s.saveDisabled && s.filterDisabled
  {
    State(None, None, None, false, false, InitPager(cat), false, true, true)
  }

  /** Whether the button can be clicked: the template buttons that exist are
      slots 0 to 7. */
  predicate Enabled(s: State, b: Button)
  {
    match b
    case ChooseImage(_) => true
    case ChooseStyle(_) => true
    case OpenCamera => true
    case Combine => !s.combineDisabled
    case Save => !s.saveDisabled
    case ApplyFilter => !s.filterDisabled
    case Template(i) => i < SlotsPerPage && i < |s.pager.slots| && s.pager.slots[i]
    case Left => !s.pager.leftDisabled
    case Right => !s.pager.rightDisabled
  }

  /** The event the read returns: a click on a disabled button produces none,
      so the read times out. */
  function Delivered(s: State, input: Input): (e: Input)
    ensures e == input || e == Timeout
    ensures e.Press? ==> Enabled(s, e.button)
    ensures input.Press? && Enabled(s, input.button) ==> e == input
    ensures !input.Press? ==> e == input
  {
    if input.Press? && !Enabled(s, input.button) then Timeout else input
  }

  /** Choose Image: a decoded file replaces the content image; a cancelled
      dialog or a decoding error keeps the previous one. */
  function OnChooseImage(s: State, pick: Pick): (r: State)
    ensures pick == Decoded ==> r.image == Some(FromFile)
    ensures pick != Decoded ==> r == s
    ensures r.(image := s.image) == s
  {
    if pick == Decoded then s.(image := Some(FromFile)) else s
  }

  /** Choose Style: as Choose Image, for the style slot. */
  function OnChooseStyle(s: State, pick: Pick): (r: State)
    ensures pick == Decoded ==> r.style == Some(FromFile)
    ensures pick != Decoded ==> r == s
    ensures r.(style := s.style) == s
    ensures s.style.Some? ==> r.style.Some?
  {
    if pick == Decoded then s.(style := Some(FromFile)) else s
  }

  /** Combine: without a content image or without a style the tick ends with
      nothing changed; otherwise the network's output becomes the result. */
  function OnCombine(s: State): (r: Handled)
    ensures r.Skip? <==> (s.image.None? || s.style.None?)
    ensures r.Skip? ==> r.state == s
    ensures r.Proceed? ==> r.state == s.(result := Some(Combined))
  {
    if s.image.None? then Skip(s)
    else if s.style.None? then Skip(s)
    else Proceed(s.(result := Some(Combined)))
  }

  /** Open Camera: toggles recording, switches filtering off, clears the result
      and sets Combine and Apply Filter to the opposite of each other. */
  function OnOpenCamera(s: State): (r: State)
    ensures r.recording == !s.recording
    ensures !r.filtering && r.result.None?
    ensures r.combineDisabled == r.recording && r.filterDisabled == !r.recording
    ensures r.(recording := s.recording, filtering := s.filtering, result := s.result,
               combineDisabled := s.combineDisabled, filterDisabled := s.filterDisabled) == s
  {
    var s1 :=
      if s.recording then s.(combineDisabled := false, filterDisabled := true)
      else s.(combineDisabled := true, filterDisabled := false);
    s1.(filtering := false, result := None, recording := !s.recording)
  }

  /** Apply Filter: switching off always succeeds; switching on needs a style,
      and without one the tick ends with nothing changed. */
  function OnApplyFilter(s: State): (r: Handled)
    ensures r.Skip? <==> (!s.filtering && s.style.None?)
    ensures r.Skip? ==> r.state == s
    ensures r.Proceed? ==> r.state == s.(filtering := !s.filtering)
    ensures r.state.filtering ==> r.state.style.Some?
  {
    if s.filtering then Proceed(s.(filtering := false))
    else if s.style.None? then Skip(s)
    else Proceed(s.(filtering := true))
  }

  /** A template button: the catalog entry it shows becomes the style. */
  function OnSelectTemplate(cat: Catalog, s: State, slot: nat): (r: State)
    ensures r.style.Some? && r.style.value.FromTemplate?
    ensures r.style.value.index == TemplateIndex(s.pager.page, slot)
    ensures PagerInv(cat, s.pager) && slot < SlotsPerPage && s.pager.slots[slot] ==>
      StyleInCatalog(cat, r.style)
    ensures r.(style := s.style) == s
  {
    var r := s.(style := Some(FromTemplate(TemplateIndex(s.pager.page, slot))));
    // On a page in range the chosen entry lies below 8 * maxPage.
    if PagerInv(cat, s.pager) && slot < SlotsPerPage then
      ShownTemplatesBelowPageBound(cat.maxPage, s.pager.page, slot); r
    else r
  }

  /** Dispatch of one delivered button event to its handler. Saving writes a
      file and changes nothing the loop keeps. */
  function Handle(cat: Catalog, s: State, b: Button): (r: Handled)
    ensures r.Skip? ==> r.state == s
    ensures r.Skip? ==> b == Combine || b == ApplyFilter
    ensures Consistent(cat, s) && Enabled(s, b) ==> Consistent(cat, r.state)
  {
    match b
    case ChooseImage(pick) => Proceed(OnChooseImage(s, pick))
    case ChooseStyle(pick) => Proceed(OnChooseStyle(s, pick))
    case Combine => OnCombine(s)
    case Save => Proceed(s)
    case OpenCamera => Proceed(OnOpenCamera(s))
    case ApplyFilter => OnApplyFilter(s)
    case Template(i) => Proceed(OnSelectTemplate(cat, s, i))
    case Left => Proceed(s.(pager := MoveLeft(cat, s.pager)))
    case Right => Proceed(s.(pager := MoveRight(cat, s.pager)))
  }

  /** End of a tick that did not `continue`: Save is enabled from the result as
      it stands before the camera is read; then, while recording, a frame is
      read (and styled when filtering) and becomes the result. A missing frame
      ends the program: the resize that follows the read has no handler. */
  function EndOfTick(cat: Catalog, s: State, camera: FrameRead): (r: Outcome)
    ensures !r.Closed?
    ensures r.Running? ==> r.state.saveDisabled == s.result.None?
    ensures r.Running? ==> r.state.(saveDisabled := s.saveDisabled, result := s.result) == s
    ensures !s.recording ==> r.Running? && r.state.result == s.result
    ensures s.recording && r.Running? ==> r.state.result == Some(if s.filtering then StyledFrame else Frame)
    ensures Consistent(cat, s) ==> (r.Crashed? <==> s.recording && camera == NoFrame)
    ensures Consistent(cat, s) && r.Running? ==> Inv(cat, r.state)
  {
    var s1 := s.(saveDisabled := s.result.None?);
    if !s1.recording then Running(s1)
    else if camera == NoFrame then Crashed(CameraReadFailed)
    else if s1.filtering && s1.style.None? then Crashed(FilterWithoutStyle)
    else Running(s1.(result := Some(if s1.filtering then StyledFrame else Frame)))
  }

  /** One pass of the `while True` loop. */
  function Step(cat: Catalog, s: State, t: Tick): (r: Outcome)
    ensures r.Closed? <==> t.input == CloseWindow
    ensures Inv(cat, s) && r.Running? ==> Inv(cat, r.state)
    ensures Inv(cat, s) && r.Crashed? ==> t.camera == NoFrame && r.failure == CameraReadFailed
  {
    match Delivered(s, t.input)
    case CloseWindow => Closed
    case Timeout => EndOfTick(cat, s, t.camera)
    case Press(b) =>
      match Handle(cat, s, b)
      case Skip(s1) => Running(s1)
      case Proceed(s1) => EndOfTick(cat, s1, t.camera)
  }

  /** The loop run over a sequence of ticks, stopping when the window closes
      or the program fails. */
  function Run(cat: Catalog, s: State, ticks: seq<Tick>): (r: Outcome)
    ensures Inv(cat, s) && r.Running? ==> Inv(cat, r.state)
    ensures Inv(cat, s) && r.Crashed? ==> r.failure == CameraReadFailed
    decreases |ticks|
  {
    if |ticks| == 0 then Running(s)
    else
      match Step(cat, s, ticks[0])
      case Running(s1) => Run(cat, s1, ticks[1..])
      case Closed => Closed
      case Crashed(f) => Crashed(f)
  }
}
