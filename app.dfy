/** The stateful parts of the landing page: the light/dark theme hook and the
    copy of it kept in storage, the decision taken by the store buttons, and
    the screenshot preview that a chosen file replaces. Browser calls become
    fields (storage, the `data-theme` attribute), parameters (creating an
    object URL) or returned decisions (scrolling and navigation). */
module App {
  import opened Wrappers

  // ---------------------------------------------------------------------
  // Theme

  /** The two values the theme takes. */
  predicate IsTheme(t: string) {
    t == "light" || t == "dark"
  }

  /** The theme a fresh page starts with, from the stored value (`None` when
      nothing is stored, or when there is no window to read storage from):
      only the exact string `dark` gives the dark theme. */
  function InitialTheme(saved: Option<string>): (t: string)
    ensures IsTheme(t)
    ensures t == "dark" <==> saved == Some("dark")
  {
    if saved == Some("dark") then "dark" else "light"
  }

  /** A theme the page has stored is the theme it starts with on the next
      visit. */
  lemma ReloadKeepsTheme(t: string)
    requires IsTheme(t)
    ensures InitialTheme(Some(t)) == t
  {
  }

  /** The updater passed to the state setter by `toggle`: `light` becomes
      `dark`, and every other value becomes `light`. */
  function ToggleValue(t: string): (r: string)
    ensures IsTheme(r)
    ensures r == "dark" <==> t == "light"
    ensures IsTheme(t) ==> r != t
  {
    if t == "light" then "dark" else "light"
  }

  /** The theme after `n` presses of the toggle button. */
  function ToggleTimes(t: string, n: nat): string {
    if n == 0 then t else ToggleValue(ToggleTimes(t, n - 1))
  }

  /** Only the parity of the number of presses matters. */
  lemma {:induction false} ToggleParity(t: string, n: nat)
    requires IsTheme(t)
    ensures ToggleTimes(t, n) == if n % 2 == 0 then t else ToggleValue(t)
  {
    if n > 0 {
      ToggleParity(t, n - 1);
    }
  }

  /** Pressing the toggle twice restores the theme. */
  lemma ToggleTwice(t: string)
    requires IsTheme(t)
    ensures ToggleValue(ToggleValue(t)) == t
  {
    ToggleParity(t, 2);
  }

  /** The theme hook: the current theme, the value held in storage under
      the key `tb-theme`, and the `data-theme` attribute of the document element.
      After every render the effect has copied the theme to both. */
  class ThemeHook {
    var theme: string
    var stored: Option<string>
    var attribute: Option<string>

    ghost predicate Valid()
      reads this
    {
      IsTheme(theme) && stored == Some(theme) && attribute == Some(theme)
    }

    /** Mounting: the theme is read from storage, then the effect writes it
        back and sets the attribute. */
    constructor (saved: Option<string>)
      ensures Valid()
      ensures theme == InitialTheme(saved)
    {
      theme := InitialTheme(saved);
      stored := saved;
      attribute := None;
      new;
      Mirror();
    }

    /** The effect that runs whenever the theme changes. */
    method Mirror()
      modifies this
      ensures theme == old(theme)
      ensures stored == Some(theme) && attribute == Some(theme)
    {
      attribute := Some(theme);
      stored := Some(theme);
    }

    /** A press of the toggle button, followed by the effect. */
    method Toggle()
      requires Valid()
      modifies this
      ensures Valid()
      ensures theme == ToggleValue(old(theme))
      ensures theme != old(theme)
    {
      theme := ToggleValue(theme);
      Mirror();
    }
  }

  // ---------------------------------------------------------------------
  // Store buttons

  /** Where every store button leads. */
  const APP_STORE_URL := "https://apps.apple.com/app/id000000000"

  /** How long the header button waits after scrolling before it leaves. */
  const REDIRECT_DELAY_MS := 600

  /** The origin a store button reports when it gives none. */
  const DEFAULT_ORIGIN := "default"

  /** The element id of the section the header button scrolls to. */
  const DOWNLOAD_SECTION := "download"

  /** What a press of a store button makes the page do. */
  datatype StoreAction =
    | ScrollThenRedirect(section: string, delayMs: nat, url: string)
    | RedirectNow(url: string)

  /** The origin of the press decides: the header button scrolls to the
      download section and leaves for the store after a delay; every other
      origin, the default included, leaves at once. `None` is an omitted
      argument. */
  function GoToStore(origin: Option<string>): (a: StoreAction)
    ensures a.url == APP_STORE_URL
    ensures a.ScrollThenRedirect? <==> origin == Some("header")
    ensures a.ScrollThenRedirect? ==> a.section == DOWNLOAD_SECTION && a.delayMs == REDIRECT_DELAY_MS
  {
    if origin.GetOr(DEFAULT_ORIGIN) == "header" then
      ScrollThenRedirect(DOWNLOAD_SECTION, REDIRECT_DELAY_MS, APP_STORE_URL)
    else
      RedirectNow(APP_STORE_URL)
  }

  /** Every origin other than the header behaves as an omitted one. */
  lemma OtherOriginsRedirectNow(origin: string)
    requires origin != "header"
    ensures GoToStore(Some(origin)) == GoToStore(None) == RedirectNow(APP_STORE_URL)
  {
  }

  // ---------------------------------------------------------------------
  // Screenshot preview

  /** The first chosen file: there is none when the input reports no file
      list (`None`) or an empty one. */
  function FirstFile<F>(files: Option<seq<F>>): (f: Option<F>)
    ensures f == None <==> files == None || files.value == []
    ensures f != None ==> f.value == files.value[0]
  {
    match files
    case None => None
    case Some(list) => if list == [] then None else Some(list[0])
  }

  /** The phone mock-up: it shows the sample screen until a screenshot has
      been chosen, and then the object URL of that screenshot. */
  class ScreenPreview {
    var screenSrc: Option<string>

    constructor ()
      ensures screenSrc == None
    {
      screenSrc := None;
    }

    /** The change handler of the hidden file input. `createObjectUrl` stands
        for the browser call that gives a chosen file an URL. */
    method OnFileChange<F>(files: Option<seq<F>>, createObjectUrl: F -> string)
      modifies this
      ensures FirstFile(files) == None ==> screenSrc == old(screenSrc)
      ensures FirstFile(files) != None ==> screenSrc == Some(createObjectUrl(files.value[0]))
    {
      var file := FirstFile(files);
      if file == None {
        return;
      }
      screenSrc := Some(createObjectUrl(file.value));
    }
  }
}
