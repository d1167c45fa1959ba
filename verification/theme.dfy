/**
  The theme toggler: `initThemeToggler` applies the theme kept in local
  storage (or 'dark') to the page and attaches a click handler to the toggle
  control that switches between 'dark' and 'light'.

  The page is four pieces of state: the body's `data-bs-theme` attribute,
  the body's inline style, local storage, and the class list of the icon
  element (absent when the page has no such element). A fifth field records
  whether the click handler has been attached.
 */
module Theme {

  datatype Option<T> = None | Some(value: T)

  /** Inline style declarations: property name to value text. */
  type Style = map<string, string>

  const ThemeKey := "theme"
  const Dark := "dark"
  const Light := "light"
  const SunIcon := "bi-sun"
  const MoonIcon := "bi-moon"
  const BackgroundColor := "background-color"
  const Color := "color"

  /** The two colours `updateStyles` writes to the body. */
  datatype Palette = Palette(background: string, foreground: string)

  /** 'dark' gets a near-black background with white text; every other theme white with black text. */
  function PaletteFor(theme: string): (p: Palette)
    ensures p.background != p.foreground
    ensures theme == Dark <==> p.background == "#121212"
  {
    if theme == Dark then Palette("#121212", "#ffffff") else Palette("#ffffff", "#000000")
  }

  /** `localStorage.getItem('theme')`: null when the key is absent. */
  function StoredTheme(storage: map<string, string>): Option<string>
  {
    if ThemeKey in storage then Some(storage[ThemeKey]) else None
  }

  /**
    `localStorage.getItem('theme') || 'dark'`: the stored text when it is
    present and not empty, whatever it says, otherwise 'dark'.
   */
  function InitialTheme(stored: Option<string>): (t: string)
    ensures t != ""
    ensures t == Dark || stored == Some(t)
    ensures stored.Some? && stored.value != "" ==> t == stored.value
  {
    if stored.Some? && stored.value != "" then stored.value else Dark
  }

  /** The click handler's choice: 'light' exactly when the body says 'dark', else 'dark'. */
  function NextTheme(current: Option<string>): (t: string)
    ensures t == Dark || t == Light
    ensures t == Light <==> current == Some(Dark)
  {
    if current == Some(Dark) then Light else Dark
  }

  /** The icon class shown for a theme: the sun for 'dark', the moon for anything else. */
  function IconFor(theme: string): string
  {
    if theme == Dark then SunIcon else MoonIcon
  }

  /** The class the click handler removes, chosen from the attribute it read (null included). */
  function IconForAttribute(current: Option<string>): string
  {
    if current == Some(Dark) then SunIcon else MoonIcon
  }

  /** The body's inline style shows the palette of `theme`. */
  ghost predicate Painted(style: Style, theme: string)
  {
    && BackgroundColor in style && style[BackgroundColor] == PaletteFor(theme).background
    && Color in style && style[Color] == PaletteFor(theme).foreground
  }

  /** `updateStyles(theme)` applied to the body's inline style. */
  function WithPalette(style: Style, theme: string): (r: Style)
    ensures Painted(r, theme)
    ensures r.Keys == style.Keys + {BackgroundColor, Color}
    ensures forall k :: k in style && k != BackgroundColor && k != Color ==> r[k] == style[k]
  {
    style[BackgroundColor := PaletteFor(theme).background][Color := PaletteFor(theme).foreground]
  }

  /** `themeIcon?.classList.add(c)`: nothing happens when the icon is absent. */
  function WithClass(icon: Option<set<string>>, c: string): Option<set<string>>
  {
    if icon.Some? then Some(icon.value + {c}) else None
  }

  /** `themeIcon?.classList.remove(c)` */
  function WithoutClass(icon: Option<set<string>>, c: string): Option<set<string>>
  {
    if icon.Some? then Some(icon.value - {c}) else None
  }

  /**
    The page as the theme code sees it: the body's `data-bs-theme` attribute
    (None when unset), the body's inline style, local storage, the icon's
    class list (None when there is no icon element), and whether the click
    handler is attached.
   */
  datatype PageView = PageView(
    themeAttribute: Option<string>,
    bodyStyle: Style,
    storage: map<string, string>,
    icon: Option<set<string>>,
    handlerAttached: bool)

  /**
    The three reflections of the theme agree: the attribute is set, storage
    holds the same text, the body shows its palette, and of the two icon
    classes the icon holds exactly the theme's.
   */
  ghost predicate Synced(p: PageView)
  {
    && p.themeAttribute.Some?
    && StoredTheme(p.storage) == p.themeAttribute
    && Painted(p.bodyStyle, p.themeAttribute.value)
    && (p.icon.Some? ==> p.icon.value * {SunIcon, MoonIcon} == {IconFor(p.themeAttribute.value)})
  }

  /**
    `initThemeToggler()`: apply the initial theme to the attribute, the body
    colours and the icon, and attach the click handler when the toggle
    control exists. Storage is read, never written.
   */
  function Initialized(p: PageView, togglerPresent: bool): (r: PageView)
    ensures r.themeAttribute == Some(InitialTheme(StoredTheme(p.storage)))
    ensures r.storage == p.storage
    ensures Painted(r.bodyStyle, r.themeAttribute.value)
    ensures r.bodyStyle.Keys == p.bodyStyle.Keys + {BackgroundColor, Color}
    ensures forall k :: k in p.bodyStyle && k != BackgroundColor && k != Color ==> r.bodyStyle[k] == p.bodyStyle[k]
    ensures r.icon.Some? <==> p.icon.Some?
    ensures p.icon.Some? ==> r.icon.value == p.icon.value + {IconFor(r.themeAttribute.value)}
    ensures r.handlerAttached <==> p.handlerAttached || togglerPresent
  {
    var t := InitialTheme(StoredTheme(p.storage));
    p.(themeAttribute := Some(t),
       bodyStyle := WithPalette(p.bodyStyle, t),
       icon := WithClass(p.icon, IconFor(t)),
       handlerAttached := p.handlerAttached || togglerPresent)
  }

  /**
    The click handler: switch to the other theme and write it to the
    attribute, the body colours, the icon and storage. Whatever the page was
    like before, the three reflections agree afterwards.
   */
  function Toggled(p: PageView): (r: PageView)
    ensures r.themeAttribute == Some(NextTheme(p.themeAttribute))
    ensures Synced(r)
    ensures p.themeAttribute.Some? && p.icon.Some? && p.icon.value == {IconFor(p.themeAttribute.value)}
            ==> r.icon.Some? && r.icon.value == {IconFor(r.themeAttribute.value)}
    ensures r.icon.Some? <==> p.icon.Some?
    ensures p.icon.Some? ==> r.icon.value - {SunIcon, MoonIcon} == p.icon.value - {SunIcon, MoonIcon}
    ensures r.bodyStyle.Keys == p.bodyStyle.Keys + {BackgroundColor, Color}
    ensures forall k :: k in p.bodyStyle && k != BackgroundColor && k != Color ==> r.bodyStyle[k] == p.bodyStyle[k]
    ensures r.storage.Keys == p.storage.Keys + {ThemeKey}
    ensures forall k :: k in p.storage && k != ThemeKey ==> r.storage[k] == p.storage[k]
    ensures r.handlerAttached == p.handlerAttached
  {
    var next := NextTheme(p.themeAttribute);
    var r := p.(themeAttribute := Some(next),
                bodyStyle := WithPalette(p.bodyStyle, next),
                icon := WithClass(WithoutClass(p.icon, IconForAttribute(p.themeAttribute)), IconFor(next)),
                storage := p.storage[ThemeKey := next]);
    assert p.themeAttribute.Some? && p.icon.Some? && p.icon.value == {IconFor(p.themeAttribute.value)}
           ==> r.icon.Some? && r.icon.value == {IconFor(next)} by {
      if p.themeAttribute.Some? && p.icon.Some? && p.icon.value == {IconFor(p.themeAttribute.value)} {
        SwapOnlyClass(p.icon, IconForAttribute(p.themeAttribute), IconFor(next));
      }
    }
    r
  }

  /** Swapping the one class an icon holds leaves it holding only the new one. */
  lemma SwapOnlyClass(icon: Option<set<string>>, held: string, added: string)
    requires icon.Some? && icon.value == {held}
    ensures WithClass(WithoutClass(icon, held), added).Some?
    ensures WithClass(WithoutClass(icon, held), added).value == {added}
  {
  }

  /** Two clicks from an agreeing 'dark' or 'light' page give back exactly that page. */
  lemma ToggleTwice(p: PageView)
    requires Synced(p)
    requires p.themeAttribute == Some(Dark) || p.themeAttribute == Some(Light)
    ensures Toggled(Toggled(p)) == p
  {
    var once := Toggled(p);
    var r := Toggled(once);
    assert r.themeAttribute == p.themeAttribute;
    assert r.storage == p.storage;
    assert r.bodyStyle == p.bodyStyle;
    if p.icon.Some? {
      // The first click swaps the theme's icon class for the other one and
      // the second swaps it back; the icon held exactly one of the two.
      var held := IconFor(p.themeAttribute.value);
      var other := IconFor(once.themeAttribute.value);
      assert IconForAttribute(p.themeAttribute) == held && IconForAttribute(once.themeAttribute) == other;
      assert r.icon.value == p.icon.value - {held} + {other} - {other} + {held};
      assert held in p.icon.value && other !in p.icon.value;
      assert r.icon.value == p.icon.value;
    }
  }

  /**
    Two clicks from any 'dark' or 'light' page, agreeing or not, bring back
    its theme: the attribute, that theme's colours, storage holding it, and
    of the two icon classes exactly its own, all other icon classes kept.
   */
  lemma ToggleTwiceRestoresTheme(p: PageView)
    requires p.themeAttribute == Some(Dark) || p.themeAttribute == Some(Light)
    ensures var r := Toggled(Toggled(p));
            && r.themeAttribute == p.themeAttribute
            && Painted(r.bodyStyle, p.themeAttribute.value)
            && StoredTheme(r.storage) == p.themeAttribute
            && (r.icon.Some? <==> p.icon.Some?)
            && (p.icon.Some? ==> r.icon.value == p.icon.value - {SunIcon, MoonIcon} + {IconFor(p.themeAttribute.value)})
  {
    var r := Toggled(Toggled(p));
    if p.icon.Some? {
      var classes := {SunIcon, MoonIcon};
      assert r.icon.value - classes == p.icon.value - classes;
      assert r.icon.value * classes == {IconFor(p.themeAttribute.value)};
      assert r.icon.value == (r.icon.value - classes) + r.icon.value * classes;
    }
  }

  /**
    Initialisation makes the page agree when storage holds a non-empty theme,
    whatever its text, and the icon starts with neither icon class.
   */
  lemma InitSyncsStoredTheme(p: PageView, togglerPresent: bool)
    requires StoredTheme(p.storage).Some? && StoredTheme(p.storage).value != ""
    requires p.icon.Some? ==> p.icon.value * {SunIcon, MoonIcon} == {}
    ensures Synced(Initialized(p, togglerPresent))
    ensures Initialized(p, togglerPresent).themeAttribute == StoredTheme(p.storage)
  {
  }

  /**
    With nothing stored, initialisation shows 'dark' but leaves storage
    without a theme, so attribute and storage disagree until the first click.
   */
  lemma InitWithoutStoredTheme(p: PageView, togglerPresent: bool)
    requires ThemeKey !in p.storage
    ensures Initialized(p, togglerPresent).themeAttribute == Some(Dark)
    ensures Painted(Initialized(p, togglerPresent).bodyStyle, Dark)
    ensures ThemeKey !in Initialized(p, togglerPresent).storage
    ensures !Synced(Initialized(p, togglerPresent))
  {
  }

  /** The page's state that the theme code reads and writes. */
  class Page {
    var themeAttribute: Option<string>
    var bodyStyle: Style
    var storage: map<string, string>
    var icon: Option<set<string>>
    var handlerAttached: bool

    function View(): PageView
      reads this
    {
      PageView(themeAttribute, bodyStyle, storage, icon, handlerAttached)
    }

    constructor (view: PageView)
      ensures View() == view
    {
      themeAttribute := view.themeAttribute;
      bodyStyle := view.bodyStyle;
      storage := view.storage;
      icon := view.icon;
      handlerAttached := view.handlerAttached;
    }

    /** The inner `updateStyles(theme)`. */
    method UpdateStyles(theme: string)
      modifies this`bodyStyle
      ensures bodyStyle == WithPalette(old(bodyStyle), theme)
    {
      if theme == Dark {
        bodyStyle := bodyStyle[BackgroundColor := "#121212"];
        bodyStyle := bodyStyle[Color := "#ffffff"];
      } else {
        bodyStyle := bodyStyle[BackgroundColor := "#ffffff"];
        bodyStyle := bodyStyle[Color := "#000000"];
      }
    }

    /** `initThemeToggler()`; `togglerPresent` says whether the toggle control exists. */
    method InitThemeToggler(togglerPresent: bool)
      modifies this
      ensures View() == Initialized(old(View()), togglerPresent)
    {
      var savedTheme := if ThemeKey in storage && storage[ThemeKey] != "" then storage[ThemeKey] else Dark;
      themeAttribute := Some(savedTheme);
      UpdateStyles(savedTheme);
      if icon.Some? {
        icon := Some(icon.value + {if savedTheme == Dark then SunIcon else MoonIcon});
      }
      if togglerPresent {
        handlerAttached := true;
      }
    }

    /** The click handler attached by `initThemeToggler`; it runs only once attached. */
    method Toggle()
      requires handlerAttached
      modifies this
      ensures View() == Toggled(old(View()))
    {
      var currentTheme := themeAttribute;
      var newTheme := if currentTheme == Some(Dark) then Light else Dark;
      themeAttribute := Some(newTheme);
      UpdateStyles(newTheme);
      if icon.Some? {
        icon := Some(icon.value - {if currentTheme == Some(Dark) then SunIcon else MoonIcon});
      }
      if icon.Some? {
        icon := Some(icon.value + {if newTheme == Dark then SunIcon else MoonIcon});
      }
      storage := storage[ThemeKey := newTheme];
    }
  }
}
