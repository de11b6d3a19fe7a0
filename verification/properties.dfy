/** Properties of the event loop that relate several ticks, or one tick to the
    handlers it runs. */
module Properties {
  import opened Pages
  import opened Paging
  import opened App

  /** Every state the loop reaches from the opening state satisfies the
      invariant, so in particular filtering implies recording and a style. */
  lemma ReachableStatesKeepInvariant(cat: Catalog, ticks: seq<Tick>)
    requires ValidCatalog(cat)
    ensures var r := Run(cat, Init(cat), ticks);
      r.Running? ==> Inv(cat, r.state) && (r.state.filtering ==> r.state.recording && r.state.style.Some?)
  {
  }

  /** Save can only be clicked when there is a result to write. */
  lemma SaveNeedsResult(cat: Catalog, s: State)
    requires Inv(cat, s) && Enabled(s, Save)
    ensures s.result.Some?
  {
  }

  /** Combine with a picture missing leaves the whole state as it was, the Save
      refresh included. */
  lemma CombineWithoutInputsIsNoOp(cat: Catalog, s: State, camera: FrameRead)
    requires Inv(cat, s) && Enabled(s, Combine)
    requires s.image.None? || s.style.None?
    ensures Step(cat, s, Tick(Press(Combine), camera)) == Running(s)
  {
  }

  /** Combine with both pictures present produces a result and enables Save. */
  lemma CombineWithInputsProducesResult(cat: Catalog, s: State, camera: FrameRead)
    requires Inv(cat, s) && Enabled(s, Combine)
    requires s.image.Some? && s.style.Some?
    ensures Step(cat, s, Tick(Press(Combine), camera))
         == Running(s.(result := Some(Combined), saveDisabled := false))
  {
  }

  /** Switching the filter on without a style leaves the whole state as it was
      and skips the camera read. */
  lemma FilterWithoutStyleIsNoOp(cat: Catalog, s: State, camera: FrameRead)
    requires Inv(cat, s) && Enabled(s, ApplyFilter)
    requires !s.filtering && s.style.None?
    ensures Step(cat, s, Tick(Press(ApplyFilter), camera)) == Running(s)
  {
  }

  /** Two Open Camera ticks in a row restore recording, leave filtering off and
      change nothing but the result and the Save flag. */
  lemma OpenCameraTwice(cat: Catalog, s: State)
    requires Inv(cat, s)
    ensures var r1 := Step(cat, s, Tick(Press(OpenCamera), Grabbed));
      && r1.Running? && r1.state.recording == !s.recording && !r1.state.filtering
      && var r2 := Step(cat, r1.state, Tick(Press(OpenCamera), Grabbed));
      && r2.Running? && r2.state.recording == s.recording && !r2.state.filtering
      && r2.state.(result := s.result, saveDisabled := s.saveDisabled, filtering := s.filtering) == s
  {
  }

  /** A click on the right arrow on the last page does nothing beyond an idle
      tick, and the arrow stays disabled. */
  lemma RightOnLastPageIsIdle(cat: Catalog, s: State, camera: FrameRead)
    requires Inv(cat, s) && s.pager.page == cat.maxPage
    ensures Step(cat, s, Tick(Press(Right), camera)) == Step(cat, s, Tick(Timeout, camera))
    ensures var r := Step(cat, s, Tick(Press(Right), camera));
      r.Running? ==> r.state.pager == s.pager && r.state.pager.rightDisabled
  {
  }

  /** A click on the left arrow on page 1 does nothing beyond an idle tick. */
  lemma LeftOnFirstPageIsIdle(cat: Catalog, s: State, camera: FrameRead)
    requires Inv(cat, s) && s.pager.page == 1
    ensures Step(cat, s, Tick(Press(Left), camera)) == Step(cat, s, Tick(Timeout, camera))
    ensures var r := Step(cat, s, Tick(Press(Left), camera));
      r.Running? ==> r.state.pager == s.pager && r.state.pager.leftDisabled
  {
  }

  /** Clicking a live template button makes the entry it shows the style, and
      that entry exists. */
  lemma SelectLiveTemplate(cat: Catalog, s: State, slot: nat)
    requires Inv(cat, s) && slot < SlotsPerPage && s.pager.slots[slot]
    ensures var r := Step(cat, s, Tick(Press(Template(slot)), Grabbed));
      && r.Running?
      && r.state.style == Some(FromTemplate(TemplateIndex(s.pager.page, slot)))
      && 0 <= TemplateIndex(s.pager.page, slot) < cat.count
  {
  }

  /** Running two tick sequences one after the other is running their
      concatenation. */
  lemma {:induction false} RunAppend(cat: Catalog, s: State, a: seq<Tick>, b: seq<Tick>)
    ensures Run(cat, s, a + b) ==
      match Run(cat, s, a)
      case Running(s1) => Run(cat, s1, b)
      case other => other
    decreases |a|
  {
    if |a| == 0 {
      assert a + b == b;
    } else {
      assert (a + b)[0] == a[0];
      assert (a + b)[1..] == a[1..] + b;
      match Step(cat, s, a[0])
      case Running(s1) => RunAppend(cat, s1, a[1..], b);
      case Closed =>
      case Crashed(_) =>
    }
  }

  /** `k` clicks on the right arrow, with the camera delivering frames. */
  function RightClicks(k: nat): (ticks: seq<Tick>)
    ensures |ticks| == k
    ensures forall i :: 0 <= i < k ==> ticks[i] == Tick(Press(Right), Grabbed)
  {
    seq(k, _ => Tick(Press(Right), Grabbed))
  }

  /** From any reachable state, `k` right clicks that stay within the page
      range each advance the page by one. */
  lemma {:induction false} RightClicksAdvance(cat: Catalog, s: State, k: nat)
    requires Inv(cat, s) && s.pager.page + k <= cat.maxPage
    ensures var r := Run(cat, s, RightClicks(k));
      r.Running? && r.state.pager.page == s.pager.page + k
    decreases k
  {
    if k > 0 {
      var ticks := RightClicks(k);
      assert ticks[0] == Tick(Press(Right), Grabbed);
      assert ticks[1..] == RightClicks(k - 1);
      var r1 := Step(cat, s, ticks[0]);
      assert r1.Running? && r1.state.pager.page == s.pager.page + 1;
      RightClicksAdvance(cat, r1.state, k - 1);
    }
  }

  /** The clicks that make catalog entry `k` the style: right arrow to its
      page, then its button. */
  function ReachTemplate(k: nat): (ticks: seq<Tick>)
    ensures |ticks| == Locate(k).0
    ensures ticks[|ticks| - 1] == Tick(Press(Template(Locate(k).1)), Grabbed)
  {
    RightClicks(Locate(k).0 - 1) + [Tick(Press(Template(Locate(k).1)), Grabbed)]
  }

  /** With one page per eight templates, every template can be made the style
      from the opening state. */
  lemma CorrectedPagesReachEveryTemplate(count: nat, k: nat)
    requires k < count
    ensures var cat := Corrected(count);
      var r := Run(cat, Init(cat), ReachTemplate(k));
      r.Running? && r.state.style == Some(FromTemplate(k))
  {
    var cat := Corrected(count);
    var s0 := Init(cat);
    var loc := Locate(k);
    PageCountCoversCatalog(count, k);
    RightClicksAdvance(cat, s0, loc.0 - 1);
    var r1 := Run(cat, s0, RightClicks(loc.0 - 1));
    var last := Tick(Press(Template(loc.1)), Grabbed);
    RunAppend(cat, s0, RightClicks(loc.0 - 1), [last]);
    SelectLiveTemplate(cat, r1.state, loc.1);
    assert [last][1..] == [];
  }

  /** With the page count as written, entries at or beyond eight times the
      page count are never made the style, whatever the user clicks. */
  lemma AsWrittenHidesTemplates(count: nat, k: int, ticks: seq<Tick>)
    requires SlotsPerPage * MaxPage(count) <= k
    ensures var cat := AsWritten(count);
      var r := Run(cat, Init(cat), ticks);
      r.Running? ==> r.state.style != Some(FromTemplate(k))
  {
  }

  /** Seventeen templates give two pages of eight, so the seventeenth
      (index 16) exists but no sequence of clicks selects it; nine templates
      likewise hide index 8. */
  lemma AsWrittenSeventeenTemplates(ticks: seq<Tick>)
    ensures MaxPage(17) == 2 && MaxPage(9) == 1
    ensures var cat := AsWritten(17);
      var r := Run(cat, Init(cat), ticks);
      r.Running? ==> r.state.style != Some(FromTemplate(16))
    ensures var cat := AsWritten(9);
      var r := Run(cat, Init(cat), ticks);
      r.Running? ==> r.state.style != Some(FromTemplate(8))
  {
    AsWrittenHidesTemplates(17, 16, ticks);
    AsWrittenHidesTemplates(9, 8, ticks);
  }
}
