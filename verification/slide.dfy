/**
  The slide animator: `slideUp`, `slideDown` and `slideToggle` drive an
  element's height through edits of its inline style, made in three phases:
  synchronously at the call, in a timer due after 1 ms, and in a timer due
  after `duration` ms.

  The inline style is a map from CSS properties to the text written to them.
  The properties the animator writes are named one by one; every other
  property is `Other` with its name. What the browser measures
  (`offsetHeight`, the computed `display`) is passed in. The two timers are
  the methods named after what their callbacks do; an `Animation` value holds
  what those callbacks captured.
 */
module Slide {

  /**
    A CSS property: one of the ten the animator writes (`display`, `height`,
    `overflow`, `box-sizing`, `padding-top`, `padding-bottom`, `margin-top`,
    `margin-bottom`, `transition-property`, `transition-duration`), or any
    other property, by its name.
   */
  datatype Property =
    | Display | Height | Overflow | BoxSizing
    | PaddingTop | PaddingBottom | MarginTop | MarginBottom
    | TransitionProperty | TransitionDuration
    | Other(name: string)

  /** An element's inline style declarations: property to value text. */
  type Style = map<Property, string>

  const DisplayNone := "none"
  const Block := "block"
  const Hidden := "hidden"
  const BorderBox := "border-box"
  const Zero := "0"
  const Transitioned := "height, margin, padding"

  /** The `duration` the three functions use when the caller gives none. */
  const DefaultDuration: nat := 500

  /** The padding and margin overrides both animations zero. */
  const Spacing: set<Property> := {PaddingTop, PaddingBottom, MarginTop, MarginBottom}

  /** The overrides slideUp's last phase removes. */
  const SlideUpCleared: set<Property> := {Height, Overflow, TransitionDuration, TransitionProperty} + Spacing

  /** The overrides slideDown's last phase removes. */
  const SlideDownCleared: set<Property> := {Height, Overflow, TransitionDuration, TransitionProperty}

  function Digit(d: nat): char
    requires d < 10
  {
    "0123456789"[d]
  }

  /** The digit character of `d` stands for `d`. */
  lemma DigitValue(d: nat)
    requires d < 10
    ensures Digit(d) as int - '0' as int == d
  {
  }

  /** The decimal text of `n`, as a template literal writes a whole number. */
  function Decimal(n: nat): (s: string)
    ensures |s| >= 1
    ensures forall i :: 0 <= i < |s| ==> '0' <= s[i] <= '9'
    ensures s[0] == '0' <==> n == 0
    decreases n
  {
    if n < 10 then [Digit(n)] else Decimal(n / 10) + [Digit(n % 10)]
  }

  /** The number a string of decimal digits denotes. */
  function DecimalValue(s: string): nat
    requires forall i :: 0 <= i < |s| ==> '0' <= s[i] <= '9'
    decreases |s|
  {
    if s == [] then 0 else DecimalValue(s[..|s| - 1]) * 10 + (s[|s| - 1] as int - '0' as int)
  }

  /** The text written for a length or a time reads back as the same number. */
  lemma {:induction false} DecimalRoundTrip(n: nat)
    ensures DecimalValue(Decimal(n)) == n
    decreases n
  {
    var s := Decimal(n);
    DigitValue(n % 10);
    if n >= 10 {
      var p := Decimal(n / 10);
      assert s == p + [Digit(n % 10)];
      assert s[..|s| - 1] == p;
      DecimalRoundTrip(n / 10);
    }
  }

  /** `${duration}ms` */
  function Ms(duration: nat): string
  {
    Decimal(duration) + "ms"
  }

  /** `${height}px` */
  function Px(height: nat): string
  {
    Decimal(height) + "px"
  }

  /**
    The display slideDown writes: the element's computed display once its
    inline display is gone, except that 'none' becomes 'block'.
   */
  function ShownDisplay(computed: string): (d: string)
    ensures d != DisplayNone
    ensures computed != DisplayNone ==> d == computed
    ensures computed == DisplayNone ==> d == Block
  {
    if computed == DisplayNone then Block else computed
  }

  /**
    Assigning `value` to a style property: the declaration is set, except
    that assigning the empty string removes it.
   */
  function SetProperty(s: Style, name: Property, value: string): Style
  {
    if value == "" then s - {name} else s[name := value]
  }

  /** An assignment sets or removes its own declaration and keeps every other. */
  lemma SetPropertyEdits(s: Style, name: Property, value: string)
    ensures var r := SetProperty(s, name, value);
            && (value != "" ==> r.Keys == s.Keys + {name} && r[name] == value)
            && (value == "" ==> r.Keys == s.Keys - {name})
            && AgreeOutside(s, r, {name})
  {
  }

  /** The display declarations left by assigning `display`: none for the empty string. */
  function DisplayKeys(display: string): set<Property>
  {
    if display == "" then {} else {Display}
  }

  /** `s` and `r` hold the same declarations outside `changed`. */
  ghost predicate AgreeOutside(s: Style, r: Style, changed: set<Property>)
  {
    forall k :: k !in changed ==> (k in s <==> k in r) && (k in s ==> s[k] == r[k])
  }

  /** Agreement outside a set of changes composes over two edits. */
  lemma AgreeChain(s: Style, m: Style, r: Style, first: set<Property>, second: set<Property>, both: set<Property>)
    requires AgreeOutside(s, m, first) && AgreeOutside(m, r, second)
    requires first + second <= both
    ensures AgreeOutside(s, r, both)
  {
  }

  /** slideUp's synchronous phase: fix the current height and prepare the transition. */
  function SlideUpStart(s: Style, duration: nat, offsetHeight: nat): Style
  {
    s[TransitionProperty := Transitioned][TransitionDuration := Ms(duration)][BoxSizing := BorderBox]
     [Height := Px(offsetHeight)][Overflow := Hidden]
  }

  /** What slideUp's synchronous phase writes, and that it changes nothing else. */
  lemma SlideUpStartEdits(s: Style, duration: nat, offsetHeight: nat)
    ensures var r := SlideUpStart(s, duration, offsetHeight);
            && AgreeOutside(s, r, {TransitionProperty, TransitionDuration, BoxSizing, Height, Overflow})
            && r.Keys == s.Keys + {TransitionProperty, TransitionDuration, BoxSizing, Height, Overflow}
            && r[Height] == Px(offsetHeight) && r[Overflow] == Hidden && r[BoxSizing] == BorderBox
            && r[TransitionProperty] == Transitioned && r[TransitionDuration] == Ms(duration)
  {
  }

  /** slideUp's 1 ms timer: height, paddings and margins go to zero. */
  function SlideUpCollapse(s: Style): Style
  {
    s[Height := Zero][PaddingTop := Zero][PaddingBottom := Zero][MarginTop := Zero][MarginBottom := Zero]
  }

  /** What slideUp's 1 ms phase writes, and that it changes nothing else. */
  lemma SlideUpCollapseEdits(s: Style)
    ensures var r := SlideUpCollapse(s);
            && AgreeOutside(s, r, {Height} + Spacing)
            && r.Keys == s.Keys + {Height} + Spacing
            && forall k :: k in {Height} + Spacing ==> r[k] == Zero
  {
  }

  /** slideUp's `duration` timer: hide the element and drop the animation's overrides. */
  function SlideUpFinish(s: Style): Style
  {
    s[Display := DisplayNone] - {Height} - {PaddingTop} - {PaddingBottom} - {MarginTop} - {MarginBottom}
      - {Overflow} - {TransitionDuration} - {TransitionProperty}
  }

  /** What slideUp's last phase writes and removes, and that it changes nothing else. */
  lemma SlideUpFinishEdits(s: Style)
    ensures var r := SlideUpFinish(s);
            && AgreeOutside(s, r, {Display} + SlideUpCleared)
            && r.Keys == s.Keys - SlideUpCleared + {Display}
            && r[Display] == DisplayNone
  {
  }

  /**
    slideDown's synchronous phase: show the element in its own display mode,
    then clamp it to zero height with no padding or margin. A computed
    display that is the empty string leaves no inline display at all.
   */
  function SlideDownStart(s: Style, computedDisplay: string): Style
  {
    SetProperty(s - {Display}, Display, ShownDisplay(computedDisplay))[Overflow := Hidden][Height := Zero]
      [PaddingTop := Zero][PaddingBottom := Zero][MarginTop := Zero][MarginBottom := Zero]
  }

  /** What slideDown's synchronous phase writes, and that it changes nothing else. */
  lemma SlideDownStartEdits(s: Style, computedDisplay: string)
    ensures var r := SlideDownStart(s, computedDisplay);
            && AgreeOutside(s, r, {Display, Overflow, Height} + Spacing)
            && r.Keys == s.Keys - {Display} + DisplayKeys(ShownDisplay(computedDisplay)) + {Overflow, Height} + Spacing
            && (Display in r ==> r[Display] == ShownDisplay(computedDisplay))
            && r[Overflow] == Hidden
            && forall k :: k in {Height} + Spacing ==> r[k] == Zero
  {
  }

  /**
    slideDown's 1 ms timer: start the transition towards the measured height
    and release the padding and margin overrides.
   */
  function SlideDownExpand(s: Style, duration: nat, height: nat): Style
  {
    s[BoxSizing := BorderBox][TransitionProperty := Transitioned][TransitionDuration := Ms(duration)]
     [Height := Px(height)] - {PaddingTop} - {PaddingBottom} - {MarginTop} - {MarginBottom}
  }

  /** What slideDown's 1 ms phase writes and removes, and that it changes nothing else. */
  lemma SlideDownExpandEdits(s: Style, duration: nat, height: nat)
    ensures var r := SlideDownExpand(s, duration, height);
            && AgreeOutside(s, r, {BoxSizing, TransitionProperty, TransitionDuration, Height} + Spacing)
            && r.Keys == s.Keys - Spacing + {BoxSizing, TransitionProperty, TransitionDuration, Height}
            && r[Height] == Px(height) && r[BoxSizing] == BorderBox
            && r[TransitionProperty] == Transitioned && r[TransitionDuration] == Ms(duration)
  {
  }

  /** slideDown's `duration` timer: drop the height, overflow and transition overrides. */
  function SlideDownFinish(s: Style): Style
  {
    s - {Height} - {Overflow} - {TransitionDuration} - {TransitionProperty}
  }

  /** What slideDown's last phase removes, and that it changes nothing else. */
  lemma SlideDownFinishEdits(s: Style)
    ensures var r := SlideDownFinish(s);
            && AgreeOutside(s, r, SlideDownCleared)
            && r.Keys == s.Keys - SlideDownCleared
  {
  }

  /** What the two timer callbacks of one animation captured. */
  datatype Animation = SlidingUp(duration: nat) | SlidingDown(duration: nat, height: nat)

  /** The style once the animation's 1 ms timer has run. */
  function FirstTimer(s: Style, a: Animation): Style
  {
    match a
    case SlidingUp(_) => SlideUpCollapse(s)
    case SlidingDown(duration, height) => SlideDownExpand(s, duration, height)
  }

  /** The style once the animation's `duration` timer has run. */
  function SecondTimer(s: Style, a: Animation): Style
  {
    match a
    case SlidingUp(_) => SlideUpFinish(s)
    case SlidingDown(_, _) => SlideDownFinish(s)
  }

  /**
    The timeout the HTML standard's timer initialisation steps give a
    `duration` timer, which waits at least that long: the timeout is
    converted to a WebIDL `long` (taken modulo 2^32 and read as a signed
    32-bit number), and a negative timeout becomes 0.
   */
  function TimerDelay(duration: nat): nat
  {
    var wrapped := duration % 0x1_0000_0000;
    if wrapped >= 0x8000_0000 then 0 else wrapped
  }

  /**
    The delay is a non-negative 32-bit number, equals the duration below
    2^31, and is 0 exactly when the duration wraps to 0 or to a negative
    number.
   */
  lemma TimerDelayRange(duration: nat)
    ensures TimerDelay(duration) < 0x8000_0000
    ensures duration < 0x8000_0000 ==> TimerDelay(duration) == duration
    ensures TimerDelay(duration) == 0 <==> duration % 0x1_0000_0000 == 0 || duration % 0x1_0000_0000 >= 0x8000_0000
  {
  }

  /**
    The style once both timers of an animation have run. A timer waits for
    every earlier timer whose delay is no longer than its own, so with a
    delay of 1 or more the 1 ms timer runs first. With a delay of 0 the
    order is the engine's: `zeroDelayFirst` says whether it runs the
    `duration` timer first.
   */
  function TimersRun(s: Style, a: Animation, zeroDelayFirst: bool): Style
  {
    if TimerDelay(a.duration) == 0 && zeroDelayFirst then FirstTimer(SecondTimer(s, a), a)
    else SecondTimer(FirstTimer(s, a), a)
  }

  /** The animation slideToggle starts: slideDown exactly when the element is not displayed. */
  function ToggleChoice(computedDisplay: string, duration: nat, offsetHeight: nat): (a: Animation)
    ensures a.SlidingDown? <==> computedDisplay == DisplayNone
    ensures a.duration == duration
    ensures a.SlidingDown? ==> a.height == offsetHeight
  {
    if computedDisplay == DisplayNone then SlidingDown(duration, offsetHeight) else SlidingUp(duration)
  }

  /** slideUp's three phases in scheduling order. */
  lemma SlideUpInOrder(s: Style, duration: nat, offsetHeight: nat)
    ensures var r := SlideUpFinish(SlideUpCollapse(SlideUpStart(s, duration, offsetHeight)));
            && Display in r && r[Display] == DisplayNone
            && r.Keys !! SlideUpCleared
            && BoxSizing in r && r[BoxSizing] == BorderBox
            && r.Keys == s.Keys - SlideUpCleared + {Display, BoxSizing}
            && AgreeOutside(s, r, {Display, BoxSizing} + SlideUpCleared)
  {
    var start := SlideUpStart(s, duration, offsetHeight);
    var collapsed := SlideUpCollapse(start);
    SlideUpStartEdits(s, duration, offsetHeight);
    SlideUpCollapseEdits(start);
    SlideUpFinishEdits(collapsed);
    AgreeChain(s, start, collapsed, {TransitionProperty, TransitionDuration, BoxSizing, Height, Overflow},
               {Height} + Spacing, {BoxSizing} + SlideUpCleared);
    AgreeChain(s, collapsed, SlideUpFinish(collapsed), {BoxSizing} + SlideUpCleared,
               {Display} + SlideUpCleared, {Display, BoxSizing} + SlideUpCleared);
  }

  /**
    A completed slideUp: the element is hidden, no height, spacing, overflow
    or transition override is left, box-sizing stays 'border-box', and every
    other declaration is as before the call.
   */
  lemma SlideUpOutcome(s: Style, duration: nat, offsetHeight: nat, zeroDelayFirst: bool)
    requires TimerDelay(duration) >= 1 || !zeroDelayFirst
    ensures var r := TimersRun(SlideUpStart(s, duration, offsetHeight), SlidingUp(duration), zeroDelayFirst);
            && Display in r && r[Display] == DisplayNone
            && r.Keys !! SlideUpCleared
            && BoxSizing in r && r[BoxSizing] == BorderBox
            && r.Keys == s.Keys - SlideUpCleared + {Display, BoxSizing}
            && AgreeOutside(s, r, {Display, BoxSizing} + SlideUpCleared)
  {
    SlideUpInOrder(s, duration, offsetHeight);
  }

  /**
    A slideDown between its timers has already given the padding and margin
    back to the stylesheet, and transitions the height to the measured one.
   */
  lemma SlideDownMidway(s: Style, computedDisplay: string, duration: nat, height: nat)
    ensures var r := SlideDownExpand(SlideDownStart(s, computedDisplay), duration, height);
            && r.Keys !! Spacing
            && (Display in r <==> ShownDisplay(computedDisplay) != "")
            && (Display in r ==> r[Display] == ShownDisplay(computedDisplay))
            && Height in r && r[Height] == Px(height)
            && Overflow in r && r[Overflow] == Hidden
  {
    SlideDownStartEdits(s, computedDisplay);
    SlideDownExpandEdits(SlideDownStart(s, computedDisplay), duration, height);
  }

  /** slideDown's three phases in scheduling order: what they leave of what they wrote. */
  lemma SlideDownInOrder(s: Style, computedDisplay: string, duration: nat, height: nat)
    ensures var r := SlideDownFinish(SlideDownExpand(SlideDownStart(s, computedDisplay), duration, height));
            && (Display in r <==> ShownDisplay(computedDisplay) != "")
            && (Display in r ==> r[Display] == ShownDisplay(computedDisplay) && r[Display] != DisplayNone)
            && r.Keys !! (SlideDownCleared + Spacing)
            && BoxSizing in r && r[BoxSizing] == BorderBox
  {
    var start := SlideDownStart(s, computedDisplay);
    var expanded := SlideDownExpand(start, duration, height);
    SlideDownStartEdits(s, computedDisplay);
    SlideDownExpandEdits(start, duration, height);
    SlideDownFinishEdits(expanded);
  }

  /**
    A completed slideDown: the element shows in its resolved display mode,
    which is never 'none' (or has no inline display when that mode is the
    empty string); the height, overflow, transition, padding and margin
    overrides are gone, and box-sizing is 'border-box'.
   */
  lemma SlideDownOutcome(s: Style, computedDisplay: string, duration: nat, height: nat, zeroDelayFirst: bool)
    requires TimerDelay(duration) >= 1 || !zeroDelayFirst
    ensures var r := TimersRun(SlideDownStart(s, computedDisplay), SlidingDown(duration, height), zeroDelayFirst);
            && (Display in r <==> ShownDisplay(computedDisplay) != "")
            && (Display in r ==> r[Display] == ShownDisplay(computedDisplay) && r[Display] != DisplayNone)
            && r.Keys !! (SlideDownCleared + Spacing)
            && BoxSizing in r && r[BoxSizing] == BorderBox
  {
    SlideDownInOrder(s, computedDisplay, duration, height);
  }

  /** The key sets of slideDown's three phases, composed. */
  lemma SlideDownKeySets(before: set<Property>, start: set<Property>, expanded: set<Property>,
                         after: set<Property>, display: set<Property>)
    requires display <= {Display}
    requires start == before - {Display} + display + {Overflow, Height} + Spacing
    requires expanded == start - Spacing + {BoxSizing, TransitionProperty, TransitionDuration, Height}
    requires after == expanded - SlideDownCleared
    ensures after == before - SlideDownCleared - Spacing - {Display} + display + {BoxSizing}
  {
  }

  /** slideDown's three phases in scheduling order: the declarations they keep. */
  lemma SlideDownFrameInOrder(s: Style, computedDisplay: string, duration: nat, height: nat)
    ensures var r := SlideDownFinish(SlideDownExpand(SlideDownStart(s, computedDisplay), duration, height));
            && r.Keys == s.Keys - SlideDownCleared - Spacing - {Display}
                         + DisplayKeys(ShownDisplay(computedDisplay)) + {BoxSizing}
            && AgreeOutside(s, r, {Display, BoxSizing} + SlideDownCleared + Spacing)
  {
    var start := SlideDownStart(s, computedDisplay);
    var expanded := SlideDownExpand(start, duration, height);
    SlideDownStartEdits(s, computedDisplay);
    SlideDownExpandEdits(start, duration, height);
    SlideDownFinishEdits(expanded);
    SlideDownKeySets(s.Keys, start.Keys, expanded.Keys, SlideDownFinish(expanded).Keys,
                     DisplayKeys(ShownDisplay(computedDisplay)));
    AgreeChain(s, start, expanded, {Display, Overflow, Height} + Spacing,
               {BoxSizing, TransitionProperty, TransitionDuration, Height} + Spacing,
               {Display, BoxSizing} + SlideDownCleared + Spacing);
    AgreeChain(s, expanded, SlideDownFinish(expanded), {Display, BoxSizing} + SlideDownCleared + Spacing,
               SlideDownCleared, {Display, BoxSizing} + SlideDownCleared + Spacing);
  }

  /**
    A completed slideDown keeps, of what it wrote, only the resolved display
    and box-sizing; every declaration it does not name is as before the call.
   */
  lemma SlideDownKeeps(s: Style, computedDisplay: string, duration: nat, height: nat, zeroDelayFirst: bool)
    requires TimerDelay(duration) >= 1 || !zeroDelayFirst
    ensures var r := TimersRun(SlideDownStart(s, computedDisplay), SlidingDown(duration, height), zeroDelayFirst);
            && r.Keys == s.Keys - SlideDownCleared - Spacing - {Display}
                         + DisplayKeys(ShownDisplay(computedDisplay)) + {BoxSizing}
            && AgreeOutside(s, r, {Display, BoxSizing} + SlideDownCleared + Spacing)
  {
    SlideDownFrameInOrder(s, computedDisplay, duration, height);
  }

  /**
    A completed slideToggle: the element ends up displayed exactly when it was
    not displayed at the call.
   */
  lemma SlideToggleOutcome(s: Style, duration: nat, computedDisplay: string, unstyledDisplay: string,
                            offsetHeight: nat, zeroDelayFirst: bool)
    ensures var a := ToggleChoice(computedDisplay, duration, offsetHeight);
            var start := if a.SlidingDown? then SlideDownStart(s, unstyledDisplay)
                         else SlideUpStart(s, duration, offsetHeight);
            var r := TimersRun(start, a, zeroDelayFirst);
            && (Display in r && r[Display] == DisplayNone <==> computedDisplay != DisplayNone)
            && (computedDisplay == DisplayNone && ShownDisplay(unstyledDisplay) != ""
                ==> Display in r && r[Display] == ShownDisplay(unstyledDisplay))
  {
    var inOrder := TimerDelay(duration) >= 1 || !zeroDelayFirst;
    if computedDisplay == DisplayNone {
      if inOrder {
        SlideDownOutcome(s, unstyledDisplay, duration, offsetHeight, zeroDelayFirst);
      } else {
        SlideDownZeroDelay(s, unstyledDisplay, duration, offsetHeight);
      }
    } else {
      if inOrder {
        SlideUpOutcome(s, duration, offsetHeight, zeroDelayFirst);
      } else {
        SlideUpZeroDelay(s, duration, offsetHeight);
      }
    }
  }

  /**
    A slideUp whose `duration` timer waits 0 ms (a duration of 0, or one that
    wraps to a non-positive 32-bit number), on an engine that runs that timer
    first, finishes before it collapses: the
    element is hidden, but the zero height, padding and margin overrides stay
    behind.
   */
  lemma SlideUpZeroDelay(s: Style, duration: nat, offsetHeight: nat)
    requires TimerDelay(duration) == 0
    ensures var r := TimersRun(SlideUpStart(s, duration, offsetHeight), SlidingUp(duration), true);
            && Display in r && r[Display] == DisplayNone
            && (forall k :: k in {Height} + Spacing ==> k in r && r[k] == Zero)
            && r.Keys !! {Overflow, TransitionDuration, TransitionProperty}
  {
    var start := SlideUpStart(s, duration, offsetHeight);
    SlideUpFinishEdits(start);
    SlideUpCollapseEdits(SlideUpFinish(start));
  }

  /**
    A slideDown whose `duration` timer waits 0 ms, on an engine that runs that
    timer first, finishes before it expands: the element shows in its
    resolved display mode and the overflow override is gone, but the measured
    height and the transition overrides stay behind.
   */
  lemma SlideDownZeroDelay(s: Style, computedDisplay: string, duration: nat, height: nat)
    requires TimerDelay(duration) == 0
    ensures var r := TimersRun(SlideDownStart(s, computedDisplay), SlidingDown(duration, height), true);
            && (Display in r <==> ShownDisplay(computedDisplay) != "")
            && (Display in r ==> r[Display] == ShownDisplay(computedDisplay))
            && Overflow !in r && r.Keys !! Spacing
            && Height in r && r[Height] == Px(height)
            && TransitionDuration in r && r[TransitionDuration] == Ms(duration)
            && TransitionProperty in r && r[TransitionProperty] == Transitioned
  {
    var start := SlideDownStart(s, computedDisplay);
    SlideDownFinishEdits(start);
    SlideDownExpandEdits(SlideDownFinish(start), duration, height);
  }

  /** An element whose inline style the animator edits. */
  class Element {
    var style: Style

    constructor (style: Style)
      ensures this.style == style
    {
      this.style := style;
    }
  }

  /**
    `slideUp(target, duration)`, synchronous part; `offsetHeight` is the
    element's rendered height at the call. Returns the pending timers.
   */
  method SlideUp(target: Element, offsetHeight: nat, duration: nat := DefaultDuration) returns (a: Animation)
    modifies target
    ensures a == SlidingUp(duration)
    ensures target.style == SlideUpStart(old(target.style), duration, offsetHeight)
  {
    target.style := target.style[TransitionProperty := Transitioned];
    target.style := target.style[TransitionDuration := Ms(duration)];
    target.style := target.style[BoxSizing := BorderBox];
    target.style := target.style[Height := Px(offsetHeight)];
    target.style := target.style[Overflow := Hidden];
    a := SlidingUp(duration);
  }

  /** slideUp's 1 ms timer callback. */
  method SlideUpCollapseTimer(target: Element)
    modifies target
    ensures target.style == SlideUpCollapse(old(target.style))
  {
    target.style := target.style[Height := Zero];
    target.style := target.style[PaddingTop := Zero];
    target.style := target.style[PaddingBottom := Zero];
    target.style := target.style[MarginTop := Zero];
    target.style := target.style[MarginBottom := Zero];
  }

  /** slideUp's `duration` timer callback. */
  method SlideUpFinishTimer(target: Element)
    modifies target
    ensures target.style == SlideUpFinish(old(target.style))
  {
    target.style := target.style[Display := DisplayNone];
    target.style := target.style - {Height};
    target.style := target.style - {PaddingTop};
    target.style := target.style - {PaddingBottom};
    target.style := target.style - {MarginTop};
    target.style := target.style - {MarginBottom};
    target.style := target.style - {Overflow};
    target.style := target.style - {TransitionDuration};
    target.style := target.style - {TransitionProperty};
  }

  /**
    `slideDown(target, duration)`, synchronous part; `computedDisplay` is the
    computed display once the inline display is removed, `offsetHeight` the
    rendered height once the resolved display is set. Returns the pending
    timers, which carry that height.
   */
  method SlideDown(target: Element, computedDisplay: string, offsetHeight: nat, duration: nat := DefaultDuration)
    returns (a: Animation)
    modifies target
    ensures a == SlidingDown(duration, offsetHeight)
    ensures target.style == SlideDownStart(old(target.style), computedDisplay)
  {
    target.style := target.style - {Display};
    var display := computedDisplay;
    if display == DisplayNone {
      display := Block;
    }
    target.style := SetProperty(target.style, Display, display);
    var height := offsetHeight;
    target.style := target.style[Overflow := Hidden];
    target.style := target.style[Height := Zero];
    target.style := target.style[PaddingTop := Zero];
    target.style := target.style[PaddingBottom := Zero];
    target.style := target.style[MarginTop := Zero];
    target.style := target.style[MarginBottom := Zero];
    a := SlidingDown(duration, height);
  }

  /** slideDown's 1 ms timer callback, with the duration and height it captured. */
  method SlideDownExpandTimer(target: Element, duration: nat, height: nat)
    modifies target
    ensures target.style == SlideDownExpand(old(target.style), duration, height)
  {
    target.style := target.style[BoxSizing := BorderBox];
    target.style := target.style[TransitionProperty := Transitioned];
    target.style := target.style[TransitionDuration := Ms(duration)];
    target.style := target.style[Height := Px(height)];
    target.style := target.style - {PaddingTop};
    target.style := target.style - {PaddingBottom};
    target.style := target.style - {MarginTop};
    target.style := target.style - {MarginBottom};
  }

  /** slideDown's `duration` timer callback. */
  method SlideDownFinishTimer(target: Element)
    modifies target
    ensures target.style == SlideDownFinish(old(target.style))
  {
    target.style := target.style - {Height};
    target.style := target.style - {Overflow};
    target.style := target.style - {TransitionDuration};
    target.style := target.style - {TransitionProperty};
  }

  /**
    `slideToggle(target, duration)`: `computedDisplay` is the computed display
    at the call; `unstyledDisplay` and `offsetHeight` are what slideDown
    measures should it be chosen.
   */
  method SlideToggle(target: Element, computedDisplay: string, unstyledDisplay: string,
                     offsetHeight: nat, duration: nat := DefaultDuration)
    returns (a: Animation)
    modifies target
    ensures a == ToggleChoice(computedDisplay, duration, offsetHeight)
    ensures a.SlidingDown? ==> target.style == SlideDownStart(old(target.style), unstyledDisplay)
    ensures a.SlidingUp? ==> target.style == SlideUpStart(old(target.style), duration, offsetHeight)
  {
    if computedDisplay == DisplayNone {
      a := SlideDown(target, unstyledDisplay, offsetHeight, duration);
      return;
    }
    a := SlideUp(target, offsetHeight, duration);
  }

  /**
    The event loop running an animation's two timers in the order they fall
    due: the 1 ms one first, unless the `duration` one waits 0 ms and the
    engine runs it first.
   */
  method RunTimers(target: Element, a: Animation, zeroDelayFirst: bool)
    modifies target
    ensures target.style == TimersRun(old(target.style), a, zeroDelayFirst)
  {
    var durationFirst := TimerDelay(a.duration) == 0 && zeroDelayFirst;
    if durationFirst {
      SecondTimerCallback(target, a);
    }
    FirstTimerCallback(target, a);
    if !durationFirst {
      SecondTimerCallback(target, a);
    }
  }

  /** The animation's 1 ms timer callback. */
  method FirstTimerCallback(target: Element, a: Animation)
    modifies target
    ensures target.style == FirstTimer(old(target.style), a)
  {
    match a {
      case SlidingUp(_) => SlideUpCollapseTimer(target);
      case SlidingDown(duration, height) => SlideDownExpandTimer(target, duration, height);
    }
  }

  /** The animation's `duration` timer callback. */
  method SecondTimerCallback(target: Element, a: Animation)
    modifies target
    ensures target.style == SecondTimer(old(target.style), a)
  {
    match a {
      case SlidingUp(_) => SlideUpFinishTimer(target);
      case SlidingDown(_, _) => SlideDownFinishTimer(target);
    }
  }
}
