/**
 * The home page (src/pages/Home.js): it decides once, when it mounts, whether
 * the preference dialog opens, and closes it on dismissal or after handing
 * the submitted preferences to the application root.
 */
module Home {
  import AppRoot
  import opened Wrappers
  import PreferencesModal

  /** The dialog opens on mount exactly when no name has been given (an empty name is falsy). */
  function InitiallyShown(prefs: AppRoot.Preferences): (b: bool)
    ensures b <==> prefs.name == ""
  {
    prefs.name == ""
  }

  /** On the first visit the dialog opens; once a named submission has been merged it does not
      open again on a later mount. */
  lemma ShownUntilNamed(prefs: AppRoot.Preferences, patch: AppRoot.PreferencesPatch)
    requires patch.name.Some? && patch.name.value != ""
    ensures InitiallyShown(AppRoot.DefaultPreferences)
    ensures !InitiallyShown(AppRoot.Merge(prefs, patch))
  {
    assert AppRoot.Get(AppRoot.Merge(prefs, patch), AppRoot.NameKey) == AppRoot.Text(patch.name.value);
  }

  class HomePage {
    /** The root's state, which the page reads and updates through its props. */
    const app: AppRoot.App
    var showPreferencesModal: bool

    constructor (app: AppRoot.App)
      ensures this.app == app
      ensures showPreferencesModal == InitiallyShown(app.preferences)
    {
      this.app := app;
      showPreferencesModal := InitiallyShown(app.preferences);
    }

    /** The dialog's close button. */
    method HandleCloseModal()
      modifies this
      ensures !showPreferencesModal
      ensures app.preferences == old(app.preferences)
    {
      showPreferencesModal := false;
    }

    /** The dialog's submission: delegated to the root's merge, then the dialog closes. */
    method HandleUpdatePreferences(patch: AppRoot.PreferencesPatch)
      requires app.Valid()
      modifies this, app
      ensures app.Valid()
      ensures app.preferences == AppRoot.Merge(old(app.preferences), patch)
      ensures app.theme == old(app.theme) && app.loading == old(app.loading)
      ensures !showPreferencesModal
    {
      app.UpdateUserPreferences(patch);
      showPreferencesModal := false;
    }

    /** The dialog is rendered exactly while the flag is set, seeded with the current preferences. */
    function ModalProps(): (seed: Option<AppRoot.Preferences>)
      reads this, app
      ensures seed.Some? <==> showPreferencesModal
      ensures seed.Some? ==> seed.value == app.preferences
    {
      if showPreferencesModal then Some(app.preferences) else None
    }
  }

  /** The first-visit flow through the root, the home page and the dialog together. */
  method FirstVisitScenario() returns (shownAtMount: bool, prefs: AppRoot.Preferences, shownAfter: bool)
    ensures shownAtMount && !shownAfter
    ensures prefs == AppRoot.Preferences("Ada", "moderate", "focused", false)
  {
    var app := new AppRoot.App();
    app.LoadingTimerFires();
    var home := new HomePage(app);
    shownAtMount := home.showPreferencesModal;
    var dialog := new PreferencesModal.PreferencesDialog(app.preferences);
    dialog.SetName("Ada");
    dialog.ChooseExperience(1);
    dialog.ChooseMood(4);
    var emitted := dialog.Submit();
    home.HandleUpdatePreferences(emitted);
    AppRoot.MergeFullReplaces(AppRoot.DefaultPreferences, dialog.Current());
    prefs, shownAfter := app.preferences, home.showPreferencesModal;
  }
}
