/**
 * The main screen's responsive layout: a width picks at most one of the
 * three breakpoint classes bp-tiny, bp-compact and bp-narrow.
 */
module MainScreen {
  import opened Wrappers

  const TinyWidth := 45
  const CompactWidth := 60
  const NarrowWidth := 80

  datatype Breakpoint = Tiny | Compact | Narrow

  /** The class a width calls for: None for an unknown width or one wider than `NarrowWidth`. */
  function BreakpointOf(width: Option<int>): Option<Breakpoint> {
    if width.None? then None
    else if width.value <= TinyWidth then Some(Tiny)
    else if width.value <= CompactWidth then Some(Compact)
    else if width.value <= NarrowWidth then Some(Narrow)
    else None
  }

  /** How much a layout is squeezed: the wider the screen, the lower. */
  function Squeeze(b: Option<Breakpoint>): nat {
    match b
    case None => 0
    case Some(Narrow) => 1
    case Some(Compact) => 2
    case Some(Tiny) => 3
  }

  /** The four width ranges, each with its class. */
  lemma BreakpointRanges(w: int)
    ensures BreakpointOf(Some(w)) == Some(Tiny) <==> w <= 45
    ensures BreakpointOf(Some(w)) == Some(Compact) <==> 45 < w <= 60
    ensures BreakpointOf(Some(w)) == Some(Narrow) <==> 60 < w <= 80
    ensures BreakpointOf(Some(w)) == None <==> w > 80
  {
  }

  /** A narrower screen never gets a roomier layout. */
  lemma NarrowerSqueezesMore(w1: int, w2: int)
    requires w1 <= w2
    ensures Squeeze(BreakpointOf(Some(w1))) >= Squeeze(BreakpointOf(Some(w2)))
  {
  }

  /** The screen, reduced to the three breakpoint classes it may carry. */
  class Screen {
    var tiny: bool
    var compact: bool
    var narrow: bool

    /** The breakpoint classes currently set. */
    function Classes(): set<Breakpoint>
      reads this
    {
      (if tiny then {Tiny} else {}) + (if compact then {Compact} else {}) + (if narrow then {Narrow} else {})
    }

    constructor ()
      ensures Classes() == {}
    {
      tiny, compact, narrow := false, false, false;
    }

    /** `set_class(add, name)`: adds or removes one class and leaves the others. */
    method SetClass(add: bool, b: Breakpoint)
      modifies this
      ensures Classes() == if add then old(Classes()) + {b} else old(Classes()) - {b}
    {
      match b {
        case Tiny =>
          tiny := add;
        case Compact =>
          compact := add;
        case Narrow =>
          narrow := add;
      }
    }

    /** `_update_breakpoints`: clears all three classes, then sets the one the width calls for, if any. */
    method UpdateBreakpoints(width: Option<int>)
      modifies this
      ensures Classes() == if BreakpointOf(width).Some? then {BreakpointOf(width).value} else {}
      ensures |Classes()| <= 1 && (width.None? ==> Classes() == {})
    {
      SetClass(false, Tiny);
      SetClass(false, Narrow);
      SetClass(false, Compact);
      assert Classes() == {};
      if width.None? {
        return;
      }
      if width.value <= TinyWidth {
        SetClass(true, Tiny);
        assert Classes() == {Tiny};
      } else if width.value <= CompactWidth {
        SetClass(true, Compact);
        assert Classes() == {Compact};
      } else if width.value <= NarrowWidth {
        SetClass(true, Narrow);
        assert Classes() == {Narrow};
      }
    }
  }

  /** The widths the layout is tuned for: 30, 40 and 45 are tiny, 50 and 60 compact, 70 and 80 narrow, 120 roomy. */
  lemma ThresholdWidths()
    ensures BreakpointOf(Some(30)) == BreakpointOf(Some(40)) == BreakpointOf(Some(45)) == Some(Tiny)
    ensures BreakpointOf(Some(50)) == BreakpointOf(Some(60)) == Some(Compact)
    ensures BreakpointOf(Some(70)) == BreakpointOf(Some(80)) == Some(Narrow)
    ensures BreakpointOf(Some(120)) == None
  {
  }
}
