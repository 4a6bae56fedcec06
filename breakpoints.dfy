// Responsive breakpoints derived from the window width
// (frontend/src/hooks/useWindowSize.ts). The resize listener and its 150 ms
// debounce are not modelled: the model starts from the width that was last
// stored.
module Breakpoints {
  import opened Common

  datatype Breakpoints = Breakpoints(
    isMobile: bool,
    isTabletPortrait: bool,
    isTabletLandscape: bool,
    isDesktop: bool,
    isLargeDesktop: bool)

  datatype WindowSize = WindowSize(width: int, height: int)

  /** Width and height before the first resize: the window's, or 1200 x 800
    * when rendering without a window. */
  function InitialSize(window: Option<WindowSize>): (r: WindowSize)
    ensures window.Some? ==> r == window.value
    ensures window.None? ==> r.width == 1200 && r.height == 800
  {
    match window
    case Some(w) => w
    case None => WindowSize(1200, 800)
  }

  function BreakpointsOf(width: int): (b: Breakpoints)
    ensures FlagCount(b) == 1
  {
    Breakpoints(
      width < 641,
      641 <= width < 769,
      769 <= width < 1025,
      1025 <= width < 1537,
      width >= 1537)
  }

  function Bit(b: bool): nat {
    if b then 1 else 0
  }

  /** How many of the five flags are set. */
  function FlagCount(b: Breakpoints): nat {
    Bit(b.isMobile) + Bit(b.isTabletPortrait) + Bit(b.isTabletLandscape)
      + Bit(b.isDesktop) + Bit(b.isLargeDesktop)
  }

  /** The position of the set flag, from 0 (mobile) to 4 (large desktop). */
  function Band(b: Breakpoints): nat {
    if b.isMobile then 0
    else if b.isTabletPortrait then 1
    else if b.isTabletLandscape then 2
    else if b.isDesktop then 3
    else 4
  }

  /** A wider window never lands in a narrower band. */
  lemma BandMonotone(w1: int, w2: int)
    requires w1 <= w2
    ensures Band(BreakpointsOf(w1)) <= Band(BreakpointsOf(w2))
  {
  }

  /** The band boundaries: each band starts where the previous one ends. */
  lemma BandBoundaries()
    ensures BreakpointsOf(640).isMobile && BreakpointsOf(641).isTabletPortrait
    ensures BreakpointsOf(768).isTabletPortrait && BreakpointsOf(769).isTabletLandscape
    ensures BreakpointsOf(1024).isTabletLandscape && BreakpointsOf(1025).isDesktop
    ensures BreakpointsOf(1536).isDesktop && BreakpointsOf(1537).isLargeDesktop
  {
  }

  /** The narrowest band is exactly below 641 pixels and the widest exactly
    * from 1537 pixels on. */
  lemma MobileAndLargeIff(width: int)
    ensures BreakpointsOf(width).isMobile <==> width < 641
    ensures BreakpointsOf(width).isLargeDesktop <==> width >= 1537
    ensures Band(BreakpointsOf(width)) == 0 <==> width < 641
    ensures Band(BreakpointsOf(width)) == 4 <==> width >= 1537
  {
  }

  /** Rendering without a window lays the page out as a desktop. */
  lemma ServerRenderIsDesktop()
    ensures BreakpointsOf(InitialSize(None).width).isDesktop
  {
  }
}
