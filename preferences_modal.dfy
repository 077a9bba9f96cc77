/**
 * The preference dialog (src/components/UserPreferencesModal.js): four local
 * fields seeded from the preferences it is given, edited by a text input, three
 * radio buttons, five mood chips and a music switch, and emitted on submit.
 */
module PreferencesModal {
  import opened Wrappers
  import opened JsString
  import AppRoot

  /** The values of the three experience radio buttons. */
  const ExperienceChoices: seq<string> := ["full", "moderate", "simple"]

  /** The mood chips, in the order they are shown. */
  const Moods: seq<string> := ["neutral", "relaxed", "excited", "happy", "focused"]

  /** `x || fallback` on a string: the empty string is the only falsy string. */
  function OrDefault(s: string, fallback: string): (r: string)
    ensures s != "" ==> r == s
    ensures s == "" ==> r == fallback
  {
    if s == "" then fallback else s
  }

  /** The experience and mood are values the controls offer. */
  predicate ChoicesValid(p: AppRoot.Preferences) {
    p.experience in ExperienceChoices && p.mood in Moods
  }

  /** The preferences record the app starts with passes the controls' constraints. */
  lemma DefaultPreferencesValid()
    ensures ChoicesValid(AppRoot.DefaultPreferences)
  {
  }

  /** Submitting is disabled exactly when the name has nothing but white space. */
  function SubmitDisabledFor(name: string): (b: bool)
    ensures b <==> AllTrimmable(name)
  {
    TrimEmptyIff(name);
    Trim(name) == ""
  }

  class PreferencesDialog {
    var name: string
    var experience: string
    var mood: string
    var playMusic: bool

    function Current(): AppRoot.Preferences
      reads this
    {
      AppRoot.Preferences(name, experience, mood, playMusic)
    }

    /** Each field starts from the given preferences, falling back to its default when that is falsy. */
    constructor (initial: AppRoot.Preferences)
      ensures name == initial.name
      ensures experience == OrDefault(initial.experience, "full")
      ensures mood == OrDefault(initial.mood, "neutral")
      ensures playMusic == initial.playMusic
      ensures ChoicesValid(initial) ==> ChoicesValid(Current())
    {
      name := OrDefault(initial.name, "");
      experience := OrDefault(initial.experience, "full");
      mood := OrDefault(initial.mood, "neutral");
      playMusic := initial.playMusic;
    }

    /** The text input. */
    method SetName(value: string)
      modifies this
      ensures Current() == old(Current()).(name := value)
    {
      name := value;
    }

    /** Radio button `i` of the experience group. */
    method ChooseExperience(i: nat)
      requires i < |ExperienceChoices|
      modifies this
      ensures Current() == old(Current()).(experience := ExperienceChoices[i])
      ensures old(ChoicesValid(Current())) ==> ChoicesValid(Current())
    {
      experience := ExperienceChoices[i];
    }

    /** Mood chip `i`. */
    method ChooseMood(i: nat)
      requires i < |Moods|
      modifies this
      ensures Current() == old(Current()).(mood := Moods[i])
      ensures old(ChoicesValid(Current())) ==> ChoicesValid(Current())
    {
      mood := Moods[i];
    }

    /** The music switch flips the flag. */
    method ToggleMusic()
      modifies this
      ensures Current() == old(Current()).(playMusic := !old(playMusic))
    {
      playMusic := !playMusic;
    }

    function SubmitDisabled(): (b: bool)
      reads this
      ensures b <==> AllTrimmable(name)
    {
      SubmitDisabledFor(name)
    }

    /** The object handed to the submit callback: exactly the four current values. */
    method Submit() returns (emitted: AppRoot.PreferencesPatch)
      ensures emitted == AppRoot.FullPatch(Current())
    {
      emitted := AppRoot.PreferencesPatch(Some(name), Some(experience), Some(mood), Some(playMusic));
    }
  }

  /** Merging what the dialog emits makes the app's preferences equal the dialog's values,
      and so keeps the experience and mood among the values the controls offer. */
  lemma SubmitReplacesPreferences(app: AppRoot.Preferences, dialog: AppRoot.Preferences)
    ensures AppRoot.Merge(app, AppRoot.FullPatch(dialog)) == dialog
    ensures ChoicesValid(dialog) ==> ChoicesValid(AppRoot.Merge(app, AppRoot.FullPatch(dialog)))
  {
    AppRoot.MergeFullReplaces(app, dialog);
  }

  /** A first visit: the dialog opens on the defaults, with submitting disabled. */
  method OpensOnDefaultsScenario() returns (seeded: AppRoot.Preferences, disabled: bool)
    ensures seeded == AppRoot.DefaultPreferences && disabled
  {
    var dialog := new PreferencesDialog(AppRoot.DefaultPreferences);
    seeded := dialog.Current();
    disabled := dialog.SubmitDisabled();
  }

  /** Once a name is typed and a choice made in each control, submitting is enabled and
      emits exactly those choices. */
  method EmitsEnteredScenario() returns (disabled: bool, emitted: AppRoot.PreferencesPatch)
    ensures !disabled
    ensures emitted == AppRoot.PreferencesPatch(Some("Ada"), Some("simple"), Some("happy"), Some(true))
  {
    var dialog := new PreferencesDialog(AppRoot.DefaultPreferences);
    dialog.SetName("Ada");
    dialog.ChooseExperience(2);
    dialog.ChooseMood(3);
    dialog.ToggleMusic();
    assert !IsTrimmable("Ada"[0]);
    disabled := dialog.SubmitDisabled();
    emitted := dialog.Submit();
  }

  /** A name of spaces only keeps the button disabled. */
  lemma BlankNameDisabled()
    ensures SubmitDisabledFor("  \t")
    ensures !SubmitDisabledFor(" A ")
  {
    assert !IsTrimmable(" A "[1]);
  }
}
