/**
 * The application root (src/App.js): it owns the theme token, the visitor's
 * preferences and the one-shot loading gate, and hands them to the pages.
 */
module AppRoot {
  import opened Wrappers

  // ---------------------------------------------------------------- theme

  /** The theme token is a plain string; only "light" and "dark" are ever produced. */
  type Theme = string

  const Light: Theme := "light"
  const Dark: Theme := "dark"

  /** The tokens `theme` can hold: the initial one and whatever a toggle yields. */
  predicate IsThemeToken(t: Theme) {
    t == Light || t == Dark
  }

  /** The token after a toggle: "dark" from "light", "light" from anything else. */
  function Toggled(t: Theme): (r: Theme)
    ensures IsThemeToken(r)
    ensures (r == Dark) <==> (t == Light)
  {
    if t == Light then Dark else Light
  }

  /** Toggling twice is the identity on the two tokens the store ever holds. */
  lemma ToggleInvolution(t: Theme)
    requires IsThemeToken(t)
    ensures Toggled(Toggled(t)) == t
  {
  }

  /** Any other string toggles back to "light", so two toggles do not restore it. */
  lemma ToggleOtherIsLight(t: Theme)
    requires !IsThemeToken(t)
    ensures Toggled(t) == Light && Toggled(Toggled(t)) != t
  {
  }

  /** The theme object handed to the styling provider. */
  datatype ThemeObject = LightTheme | DarkTheme

  /** The theme object the styling provider receives: the dark one exactly for "dark". */
  function ThemeObjectFor(t: Theme): (r: ThemeObject)
    ensures r == DarkTheme <==> t == Dark
  {
    if t == Dark then DarkTheme else LightTheme
  }

  /** Each toggle of a reachable token switches the theme object. */
  lemma ToggleSwitchesThemeObject(t: Theme)
    requires IsThemeToken(t)
    ensures ThemeObjectFor(Toggled(t)) != ThemeObjectFor(t)
  {
  }

  // ---------------------------------------------------------- preferences

  /** The visitor's profile; `experience` and `mood` hold the strings the dialog's controls emit. */
  datatype Preferences = Preferences(name: string, experience: string, mood: string, playMusic: bool)

  /** The initial state of `userPreferences`. */
  const DefaultPreferences := Preferences("", "full", "neutral", false)

  /** A partial preferences object: a `None` field is a key the object literal does not have. */
  datatype PreferencesPatch = PreferencesPatch(
    name: Option<string>, experience: Option<string>, mood: Option<string>, playMusic: Option<bool>)

  const EmptyPatch := PreferencesPatch(None, None, None, None)

  /** The four keys of a preferences object and the values they can hold. */
  datatype Key = NameKey | ExperienceKey | MoodKey | PlayMusicKey
  datatype FieldValue = Text(text: string) | Flag(flag: bool)

  function Get(p: Preferences, k: Key): FieldValue {
    match k
    case NameKey => Text(p.name)
    case ExperienceKey => Text(p.experience)
    case MoodKey => Text(p.mood)
    case PlayMusicKey => Flag(p.playMusic)
  }

  function PatchGet(p: PreferencesPatch, k: Key): Option<FieldValue> {
    match k
    case NameKey => if p.name.Some? then Some(Text(p.name.value)) else None
    case ExperienceKey => if p.experience.Some? then Some(Text(p.experience.value)) else None
    case MoodKey => if p.mood.Some? then Some(Text(p.mood.value)) else None
    case PlayMusicKey => if p.playMusic.Some? then Some(Flag(p.playMusic.value)) else None
  }

  function OrElse<T>(o: Option<T>, v: T): T {
    if o.Some? then o.value else v
  }

  /** Object spread of `prefs` then `patch`: a shallow merge in which the patch wins on every key it has. */
  function Merge(prefs: Preferences, patch: PreferencesPatch): (r: Preferences)
    ensures forall k :: PatchGet(patch, k).Some? ==> Get(r, k) == PatchGet(patch, k).value
    ensures forall k :: PatchGet(patch, k).None? ==> Get(r, k) == Get(prefs, k)
  {
    Preferences(OrElse(patch.name, prefs.name), OrElse(patch.experience, prefs.experience),
                OrElse(patch.mood, prefs.mood), OrElse(patch.playMusic, prefs.playMusic))
  }

  /** Object spread of two patches: `b` wins where both have a key. */
  function Combine(a: PreferencesPatch, b: PreferencesPatch): (r: PreferencesPatch)
    ensures forall k :: PatchGet(r, k) == if PatchGet(b, k).Some? then PatchGet(b, k) else PatchGet(a, k)
  {
    PreferencesPatch(if b.name.Some? then b.name else a.name,
                     if b.experience.Some? then b.experience else a.experience,
                     if b.mood.Some? then b.mood else a.mood,
                     if b.playMusic.Some? then b.playMusic else a.playMusic)
  }

  /** The patch that has every key, with the values of `p`. */
  function FullPatch(p: Preferences): (r: PreferencesPatch)
    ensures forall k :: PatchGet(r, k) == Some(Get(p, k))
  {
    PreferencesPatch(Some(p.name), Some(p.experience), Some(p.mood), Some(p.playMusic))
  }

  /** Two preference records that agree on every key are equal. */
  lemma PreferencesExtensional(p: Preferences, q: Preferences)
    requires forall k :: Get(p, k) == Get(q, k)
    ensures p == q
  {
    assert Get(p, NameKey) == Get(q, NameKey);
    assert Get(p, ExperienceKey) == Get(q, ExperienceKey);
    assert Get(p, MoodKey) == Get(q, MoodKey);
    assert Get(p, PlayMusicKey) == Get(q, PlayMusicKey);
  }

  /** Merging the empty object changes nothing. */
  lemma MergeEmpty(p: Preferences)
    ensures Merge(p, EmptyPatch) == p
  {
  }

  /** A patch with every key replaces the record outright. */
  lemma MergeFullReplaces(p: Preferences, q: Preferences)
    ensures Merge(p, FullPatch(q)) == q
  {
    forall k ensures Get(Merge(p, FullPatch(q)), k) == Get(q, k) {
      assert PatchGet(FullPatch(q), k) == Some(Get(q, k));
    }
    PreferencesExtensional(Merge(p, FullPatch(q)), q);
  }

  /** Two successive merges are one merge of the combined patch (later keys win). */
  lemma MergeTwice(p: Preferences, a: PreferencesPatch, b: PreferencesPatch)
    ensures Merge(Merge(p, a), b) == Merge(p, Combine(a, b))
  {
    forall k ensures Get(Merge(Merge(p, a), b), k) == Get(Merge(p, Combine(a, b)), k) {
      assert PatchGet(Combine(a, b), k) == if PatchGet(b, k).Some? then PatchGet(b, k) else PatchGet(a, k);
    }
    PreferencesExtensional(Merge(Merge(p, a), b), Merge(p, Combine(a, b)));
  }

  /** Merging the same patch again changes nothing. */
  lemma MergeIdempotent(p: Preferences, a: PreferencesPatch)
    ensures Merge(Merge(p, a), a) == Merge(p, a)
  {
  }

  /** Two single-key updates in a row:
      `update(update(P, {mood: 'happy'}), {name: 'A'})` sets exactly those two keys. */
  lemma MergeMoodThenName(p: Preferences)
    ensures Merge(Merge(p, EmptyPatch.(mood := Some("happy"))), EmptyPatch.(name := Some("A")))
            == p.(mood := "happy", name := "A")
  {
  }

  // ------------------------------------------------------------- the root

  /** What the root renders: the splash screen, or the shell inside the theme provider. */
  datatype RootView = Splash | Shell(themeObject: ThemeObject, theme: Theme, preferences: Preferences)

  /** Only the splash screen while loading; afterwards the shell, styled by the theme object. */
  function RootViewOf(loading: bool, theme: Theme, prefs: Preferences): (v: RootView)
    ensures v.Splash? <==> loading
    ensures v.Shell? ==> v.themeObject == ThemeObjectFor(theme) && v.theme == theme && v.preferences == prefs
  {
    if loading then Splash else Shell(ThemeObjectFor(theme), theme, prefs)
  }

  /** The state the `App` component holds with `useState`. */
  class App {
    var loading: bool
    var theme: Theme
    var preferences: Preferences

    /** What is reachable from mount: a theme token the store produces. */
    ghost predicate Valid()
      reads this
    {
      IsThemeToken(theme)
    }

    /** Mount: loading, light theme, default preferences; the 2000 ms gate timer is started. */
    constructor ()
      ensures Valid()
      ensures loading && theme == Light && preferences == DefaultPreferences
    {
      loading := true;
      theme := Light;
      preferences := DefaultPreferences;
    }

    /** The gate timer (2000 ms) expires once: the splash gives way to the shell. */
    method LoadingTimerFires()
      requires Valid()
      modifies this
      ensures Valid()
      ensures !loading && theme == old(theme) && preferences == old(preferences)
    {
      loading := false;
    }

    method ToggleTheme()
      requires Valid()
      modifies this
      ensures Valid()
      ensures theme == Toggled(old(theme))
      ensures loading == old(loading) && preferences == old(preferences)
    {
      theme := Toggled(theme);
    }

    method UpdateUserPreferences(patch: PreferencesPatch)
      requires Valid()
      modifies this
      ensures Valid()
      ensures preferences == Merge(old(preferences), patch)
      ensures loading == old(loading) && theme == old(theme)
    {
      preferences := Merge(preferences, patch);
    }

    function View(): (v: RootView)
      reads this
      ensures v.Splash? <==> loading
    {
      RootViewOf(loading, theme, preferences)
    }
  }

  /** The loading gate: the shell is not shown before the timer fires, and once it has fired
      no handler brings the splash screen back. */
  method GateScenario() returns (before: RootView, after: RootView, later: RootView)
    ensures before == Splash
    ensures after == Shell(LightTheme, Light, DefaultPreferences)
    ensures later == Shell(DarkTheme, Dark, DefaultPreferences.(name := "A"))
  {
    var app := new App();
    before := app.View();
    app.LoadingTimerFires();
    after := app.View();
    app.ToggleTheme();
    app.UpdateUserPreferences(EmptyPatch.(name := Some("A")));
    later := app.View();
  }
}
