# GTalkSMS setup wizard: state snapshot and screen dispatch

This project models the stateful core of the GTalkSMS setup wizard activity
(`Wizard.java`). The wizard shows one screen at a time: welcome, choose method,
choose server, create, create success, existing account and same account. Its
state is seven attributes plus the current screen id:

- the notification address;
- the chosen method and the chosen server mode;
- the chosen server name;
- the login and the two passwords.

The model covers three parts of the activity.

- **Sparse save and restore.** `onSaveInstanceState` writes an attribute into
  the platform bundle only when it is set. A string is set when it is not
  null; an int is set when it is not 0. `restoreStateFromBundle` reads every
  key back and overwrites an attribute only when the value read is set.
- **Screen dispatch.** `initView` switches on an integer screen id. It wires
  each screen's buttons and, when the switch completes, records the id as the
  current screen. Otherwise it throws `IllegalStateException`.
- **Start-up.** `onCreate` restores from the bundle when there is one, then
  shows the current screen.

Files:

- `wrappers.dfy`: `Option` (a possibly-null reference) and `Result` (returns
  or throws).
- `bundle.dfy`: the platform bundle.
  - `Value = Str | Int`.
  - A `Bundle` class whose `entries: map<string, Value>` the put methods reassign.
  - The getters. `getString` gives null for a key that is missing or holds a
    non-string. `getInt` gives 0 for a key that is missing or holds a non-int.
    This is the Android `Bundle` contract. Android's `Bundle` is modelled
    only through these four operations.
- `wizard.dfy`: module `Wizard`, which holds:
  - the constants;
  - the value `State` and the key-indexed view `FieldAt`;
  - the specification functions `Saved` and `Restored`;
  - the transition table `Wiring`;
  - the activity class `WizardActivity`, whose fields the methods update in
    place. Besides the eight attributes it records whether a layout has been
    set, because the version-label lookup at the end of `initView` depends on
    it;
  - the lemmas.

How the laws are stated. `FieldAt(s, f)` is attribute `f` as a bundle value,
or None when the attribute is unset. `Read(b, f)` is the set value that
restoring reads for `f`. With these two, saving, restoring, merging, the round
trip and idempotence are each one statement over all eight attributes. Saving
and restoring are defined attribute by attribute, the way the activity writes
them.

Where the code and its own description disagree, the model follows the code:

- The class comment (Wizard.java:22-28) draws a create-success screen, and
  `VIEW_CREATE_SUCCESS` is 4. But `initView` has no case for 4, so
  `initView(4)` reaches `default` and throws.
- The same-account case wires its back button and then, having no `break`,
  falls into `default` and throws.
- So the switch of `initView` completes exactly on the ids {0, 1, 2, 3, 5}.
  That is the predicate `Renderable`. Any sequence of `initView` calls that
  starts from a renderable screen stays among these ids, and so within 0 to 5.
- The existing-account case (5) sets no layout, yet `initView` then looks up
  the version label in the current layout (Wizard.java:215-216). On an
  activity that has never set a layout the lookup gives null and
  `label.setText` throws `NullPointerException`. The activity's own save
  writes screen 5, so `onCreate` on a new activity that resumes on screen 5
  throws (`ResumeOnNewActivity`). The model's predicate `Shows` is this
  stricter condition: the switch completes and a layout is available.
- When `initView(5)` completes after an earlier screen set a layout, that
  layout and every listener attached to it stay on display, because the
  existing-account case replaces nothing. `Screen(5, map[], None)` and the
  "existing-account wires no back button" clause of `BackTargets` describe
  only what this call wires, not what is on display.

## Model

| member | source | states |
|---|---|---|
| Wizard.WizardActivity.constructor | src/com/googlecode/gtalksms/panels/wizard/Wizard.java:56-64 | a new activity has every string attribute null, every int attribute 0, the welcome screen (0) as current screen and no layout set |
| Wizard.FieldAt | src/com/googlecode/gtalksms/panels/wizard/Wizard.java:54-64 | a set string attribute is given as a string value and a set int attribute as a non-zero int value; which attributes are set (non-null, non-zero) and with what value is the definition itself, and `FieldAtDetermines` shows that this view loses nothing |
| Wizard.PutStringIfSet | src/com/googlecode/gtalksms/panels/wizard/Wizard.java:68-69 | the bundle gains the string under the key when the attribute is non-null and is unchanged otherwise |
| Wizard.PutIntIfNonZero | src/com/googlecode/gtalksms/panels/wizard/Wizard.java:70-71 | the bundle gains the int under the key when the attribute is non-zero and is unchanged otherwise |
| Wizard.WizardActivity.OnSaveInstanceState | src/com/googlecode/gtalksms/panels/wizard/Wizard.java:67-84 | the bundle becomes `Saved(state, old bundle)` and the activity's attributes do not change |
| Wizard.SavedAt | src/com/googlecode/gtalksms/panels/wizard/Wizard.java:67-84 | saving puts an attribute's key in the bundle exactly when the attribute is set or the key was already there; a set attribute is stored with its value; an unset one leaves the bundle's old value |
| Wizard.SavedElsewhere | src/com/googlecode/gtalksms/panels/wizard/Wizard.java:67-84 | saving adds, removes and changes no key other than the eight attribute keys |
| Wizard.RestoredAt | src/com/googlecode/gtalksms/panels/wizard/Wizard.java:86-112 | restoring sets an attribute to the bundle value read for it when that value is set (non-null, non-zero), and otherwise leaves the attribute as it was |
| Wizard.WizardActivity.RestoreStateFromBundle | src/com/googlecode/gtalksms/panels/wizard/Wizard.java:86-112 | the activity's attributes become `Restored(old state, bundle)`; the bundle and the layout flag are not changed |
| Wizard.FieldAtDetermines | src/com/googlecode/gtalksms/panels/wizard/Wizard.java:56-64 | two states with the same set attributes are equal, so null and 0 lose no information as "unset" |
| Wizard.ReadSaved | src/com/googlecode/gtalksms/panels/wizard/Wizard.java:67-112 | after a save, reading an attribute back gives the saved value if it was set and otherwise what the bundle held before |
| Wizard.SaveRestoreMerge | src/com/googlecode/gtalksms/panels/wizard/Wizard.java:67-112 | save `s` into a bundle that holds no set attribute, then restore over `t`: each attribute comes from `s` where `s` sets it and from `t` elsewhere |
| Wizard.SaveRestoreRoundTrip | src/com/googlecode/gtalksms/panels/wizard/Wizard.java:56-112 | save into an empty bundle, then restore into a new activity: the result equals the saved state on all eight attributes |
| Wizard.RestoreIdempotent | src/com/googlecode/gtalksms/panels/wizard/Wizard.java:86-112 | restoring the same bundle twice gives the same state as restoring it once |
| Wizard.Preselection | src/com/googlecode/gtalksms/panels/wizard/Wizard.java:170-180 | the choose-method screen checks radio button `r` exactly when `r` stands for the chosen method: 1 checks "different account", 2 "existing account", 3 "same account"; any other value (0 included) checks none |
| Wizard.WizardActivity.InitView | src/com/googlecode/gtalksms/panels/wizard/Wizard.java:151-219 | succeeds exactly when `Shows(id, layout set before)`: the switch does not throw and a layout is available for the version label. On success the screen has that id, the table's wiring and its pre-selection. When the switch throws the error is IllegalState with the wiring done before the throw; when only the label lookup fails it is NullVersionLabel. The current screen and the layout flag move as `ViewAfter` says |
| Wizard.BackTargets | src/com/googlecode/gtalksms/panels/wizard/Wizard.java:165-209 | back from choose-method goes to welcome, from choose-server to choose-method, from create to choose-server, from same-account to choose-method; next on choose-server goes to create; welcome and existing-account wire no back button |
| Wizard.NextThenBack | src/com/googlecode/gtalksms/panels/wizard/Wizard.java:183-200 | a next button wired to a plain jump leads to a screen whose back button leads back to where it started |
| Wizard.JumpTargetsRender | src/com/googlecode/gtalksms/panels/wizard/Wizard.java:129-149 | every plain jump wired on a renderable screen targets a renderable screen, so pressing it does not throw |
| Wizard.UnfinishedScreensThrow | src/com/googlecode/gtalksms/panels/wizard/Wizard.java:201-212 | create-success (4), same-account (6) and every id outside 0 to 5 are not renderable |
| Wizard.NavigateStaysRenderable | src/com/googlecode/gtalksms/panels/wizard/Wizard.java:151-218 | from a renderable current screen (the initial welcome screen included), any sequence of `initView` calls leaves the current screen renderable, hence within 0 to 5 |
| Wizard.ResumeRenders | src/com/googlecode/gtalksms/panels/wizard/Wizard.java:118-127 | a state saved while its screen is renderable, restored over a state whose screen is renderable, has a renderable screen, so the switch of the `initView` that follows does not throw IllegalStateException (whether its label lookup succeeds is `ResumeOnNewActivity`) |
| Wizard.WizardActivity.OnCreate | src/com/googlecode/gtalksms/panels/wizard/Wizard.java:118-127 | the attributes become the restored state (or stay as they were without a bundle); the following `initView` on the restored screen succeeds exactly when `Shows` holds for it and the layout flag as it was, with that screen's wiring and pre-selection; otherwise it fails with NullVersionLabel (renderable screen, no layout) or IllegalState (with the wiring done before the throw) |
| Bundles.StringAt | src/com/googlecode/gtalksms/panels/wizard/Wizard.java:87-93 | `getString` gives a string exactly when the key holds a string value, and then that string; a missing key or an int value gives null |
| Bundles.IntAt | src/com/googlecode/gtalksms/panels/wizard/Wizard.java:88-94 | `getInt` gives the stored int when the key holds an int value; a non-zero result is always the stored int, so a missing key or a string value gives 0 |
| Bundles.Bundle.PutString | src/com/googlecode/gtalksms/panels/wizard/Wizard.java:69-83 | `putString` maps the key to the string value and leaves every other key as it was |
| Bundles.Bundle.PutInt | src/com/googlecode/gtalksms/panels/wizard/Wizard.java:71-83 | `putInt` maps the key to the int value and leaves every other key as it was |
| Wizard.Saved | src/com/googlecode/gtalksms/panels/wizard/Wizard.java:67-84 | saving never removes a key from the bundle (which keys it adds, and with what value, is `SavedAt` and `SavedElsewhere`) |
| Wizard.Restored | src/com/googlecode/gtalksms/panels/wizard/Wizard.java:86-112 | restoring a bundle that holds none of the eight attribute keys leaves the state unchanged |
| Wizard.Wiring | src/com/googlecode/gtalksms/panels/wizard/Wizard.java:155-213 | every case that sets a layout wires a back or a next button, every other id wires nothing, and every plain jump targets a screen whose case sets a layout |
| Wizard.ViewAfter | src/com/googlecode/gtalksms/panels/wizard/Wizard.java:151-218 | after one `initView` the current screen is the requested id or the old one, and a layout once set stays set |
| Wizard.Navigate | src/com/googlecode/gtalksms/panels/wizard/Wizard.java:151-218 | after a sequence of `initView` calls the current screen is the starting one or one of the requested ids, and a layout once set stays set |
| Wizard.NavigateSetsLayout | src/com/googlecode/gtalksms/panels/wizard/Wizard.java:158-218 | once a sequence of `initView` calls has moved the current screen, a layout has been set, because every call that completes has had one for its version-label lookup |
| Wizard.ResumeOnNewActivity | src/com/googlecode/gtalksms/panels/wizard/Wizard.java:201-216 | save a state into an empty bundle and restore it into a new activity: its screen shows exactly when its switch case does not throw and it is not existing-account (5), which throws NullPointerException there |

## Left out

- View rendering is not modelled: `setContentView`, the `findViewById` lookups,
  setting and reading text fields, the spinner and its adapter, and the
  version label. A screen is modelled only by what it wires and what it
  pre-selects. Without this rendering the model also misses:
  - a `findViewById` inside a case that does not find its id in the layout
    that case has just set. The model assumes that every such lookup finds
    its view. The assumption is doubtful at Wizard.java:205. There the
    same-account case sets the existing-account layout and then looks up
    `R.id.notificationAddress`, which is the welcome screen's field
    (Wizard.java:159). If that layout lacks the field, case 6 throws
    `NullPointerException` before it wires its back button (Wizard.java:209).
    Then the wiring carried by `IllegalState(Wiring(6))`, `Wiring(6)`'s back
    entry and the same-account clause of `BackTargets` would not hold;
  - a layout that was set but has no version label. The model assumes every
    layout holds the label, and models only the null lookup on an activity
    that has never set a layout.
- `mapWizardButton` logs a warning and wires nothing when it finds no button.
  The model assumes the button is found, because whether it is depends on the
  layouts, which are not part of this model.
- The listeners `WelcomeNextButtonClickListener`,
  `ChooseMethodNextButtonClickListener`, `ChooseServerRadioGroupChangeListener`
  and `CreateButtonClickListener` are not part of this model. They appear only
  as opaque handlers in the wiring, because their code is not visible. So the
  forward transitions out of welcome and choose-method, the server-mode
  capture and account creation are not modelled.
- The settings manager, `Log.initialize`, `Tools.getVersionName`,
  `StringFmt.Style` and `onDestroy` are left out. They are calls into code this
  model cannot see and change no wizard state.
- The int attributes are modelled as unbounded `int`. Java's 32-bit width
  does not matter, because the code only stores, compares and copies them.
- In `RestoreStateFromBundle`, each `if (read set) field = read;` is written as an assignment of `KeepUnlessSet` or `KeepUnlessNonZero`.
  These helpers keep the field's value when the read is unset. The resulting
  state is the same.
