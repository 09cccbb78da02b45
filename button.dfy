/**
 * The lockable, optionally toggling button.
 *
 * Its only state is `pressed`, which starts false; `lock` and `toggle` are
 * fixed when the button is created. A click does nothing on a locked button
 * and flips `pressed` on a toggling one. Exactly one of three styles is
 * rendered (locked, pressed or normal) after a fixed base class, and the
 * button is disabled exactly when it is locked.
 */
module ButtonComponent {

  import opened Wrappers

  /** The three visual styles the button can take. */
  datatype Style = Locked | Pressed | Normal

  /** The style a button renders with. */
  function StyleOf(lock: bool, toggle: bool, pressed: bool): (s: Style)
    ensures s == Locked <==> lock
    ensures s == Pressed <==> !lock && toggle && pressed
    ensures s == Normal <==> !lock && !(toggle && pressed)
  {
    if lock then Locked
    else if toggle && pressed then Pressed
    else Normal
  }

  /** The value of `pressed` after one click. */
  function AfterClick(lock: bool, toggle: bool, pressed: bool): (p: bool)
    ensures lock ==> p == pressed
    ensures !lock && toggle ==> p == !pressed
    ensures !toggle ==> p == pressed
    ensures p != pressed <==> !lock && toggle
  {
    if lock then pressed
    else if toggle then !pressed
    else pressed
  }

  /** The value of `pressed` after `n` clicks. */
  function Clicks(lock: bool, toggle: bool, pressed: bool, n: nat): bool
  {
    if n == 0 then pressed else AfterClick(lock, toggle, Clicks(lock, toggle, pressed, n - 1))
  }

  /**
   * Clicking `n` times flips `pressed` exactly when the button toggles, is
   * not locked and `n` is odd.
   */
  lemma {:induction false} ClicksParity(lock: bool, toggle: bool, pressed: bool, n: nat)
    ensures Clicks(lock, toggle, pressed, n) == if !lock && toggle && n % 2 == 1 then !pressed else pressed
  {
    if n > 0 {
      ClicksParity(lock, toggle, pressed, n - 1);
    }
  }

  /** On an unlocked toggling button, two clicks restore the original state. */
  lemma TwoClicksRestore(toggle: bool, pressed: bool)
    ensures Clicks(false, toggle, pressed, 2) == pressed
  {
    ClicksParity(false, toggle, pressed, 2);
  }

  /**
   * A button that does not toggle, or that is locked, is never pressed,
   * however often it is clicked.
   */
  lemma {:induction false} NeverPressedUnlessToggling(lock: bool, toggle: bool, n: nat)
    ensures Clicks(lock, toggle, false, n) ==> !lock && toggle
  {
    ClicksParity(lock, toggle, false, n);
  }

  /** The class strings: the base, and one string per style. */
  datatype StyleSheet = StyleSheet(base: string, normal: string, locked: string, pressed: string)

  /** The three style strings are pairwise different. */
  predicate Distinct(sheet: StyleSheet)
  {
    sheet.normal != sheet.locked && sheet.normal != sheet.pressed && sheet.locked != sheet.pressed
  }

  /** The class string of one style. */
  function StyleClass(sheet: StyleSheet, s: Style): string
  {
    match s
    case Locked => sheet.locked
    case Pressed => sheet.pressed
    case Normal => sheet.normal
  }

  /** The rendered class: the base, a space, and the one string of the style. */
  function ClassNameOf(sheet: StyleSheet, lock: bool, toggle: bool, pressed: bool): string
  {
    sheet.base + " " + StyleClass(sheet, StyleOf(lock, toggle, pressed))
  }

  /** Reads the style back from a rendered class, if it is one. */
  function ParseClassName(sheet: StyleSheet, className: string): Option<Style>
  {
    var prefix := sheet.base + " ";
    if |className| < |prefix| || className[..|prefix|] != prefix then None
    else
      var rest := className[|prefix|..];
      if rest == sheet.locked then Some(Locked)
      else if rest == sheet.pressed then Some(Pressed)
      else if rest == sheet.normal then Some(Normal)
      else None
  }

  /**
   * Every rendered class is the base followed by exactly one style string:
   * with distinct style strings, the style can be read back from it.
   */
  lemma ClassNameRoundTrip(sheet: StyleSheet, lock: bool, toggle: bool, pressed: bool)
    requires Distinct(sheet)
    ensures ParseClassName(sheet, ClassNameOf(sheet, lock, toggle, pressed)) == Some(StyleOf(lock, toggle, pressed))
  {
  }

  /** With distinct style strings, two buttons render the same class only in the same style. */
  lemma SameClassSameStyle(sheet: StyleSheet, l1: bool, t1: bool, p1: bool, l2: bool, t2: bool, p2: bool)
    requires Distinct(sheet)
    requires ClassNameOf(sheet, l1, t1, p1) == ClassNameOf(sheet, l2, t2, p2)
    ensures StyleOf(l1, t1, p1) == StyleOf(l2, t2, p2)
  {
    ClassNameRoundTrip(sheet, l1, t1, p1);
    ClassNameRoundTrip(sheet, l2, t2, p2);
  }

  /** A button instance: fixed props and the one piece of state. */
  class Button {
    const lock: bool
    const toggle: bool
    var pressed: bool

    /** Only an unlocked toggling button can ever be pressed. */
    ghost predicate Valid()
      reads this
    {
      pressed ==> !lock && toggle
    }

    /** A new button is not pressed. Unset props default to false at the caller. */
    constructor (lock: bool, toggle: bool)
      ensures this.lock == lock && this.toggle == toggle
      ensures !pressed
      ensures Valid()
    {
      this.lock := lock;
      this.toggle := toggle;
      pressed := false;
    }

    /** A click: ignored when locked, flips `pressed` when toggling. */
    method Click()
      requires Valid()
      modifies this
      ensures Valid()
      ensures pressed == AfterClick(lock, toggle, old(pressed))
    {
      if lock {
        return;
      }
      if toggle {
        pressed := !pressed;
      }
    }

    /** The style the button renders with now; in a valid button, Pressed just when pressed. */
    function Style(): (s: Style)
      reads this
      ensures s == Locked <==> lock
      ensures Valid() ==> (s == Pressed <==> pressed)
    {
      StyleOf(lock, toggle, pressed)
    }

    /** The class the button renders with now. */
    function ClassName(sheet: StyleSheet): (c: string)
      reads this
      ensures Distinct(sheet) ==> ParseClassName(sheet, c) == Some(Style())
    {
      var c := ClassNameOf(sheet, lock, toggle, pressed);
      if Distinct(sheet) then
        ClassNameRoundTrip(sheet, lock, toggle, pressed);
        c
      else
        c
    }

    /** The button is disabled exactly when it is locked, that is, when it renders Locked. */
    function Disabled(): (d: bool)
      reads this
      ensures d <==> lock
      ensures d <==> Style() == Locked
    {
      lock
    }
  }
}
