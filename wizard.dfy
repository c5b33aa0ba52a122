/** The setup wizard activity: the eight attributes that make up its state, the
    sparse save/restore of that state through a bundle, and the dispatch from a
    screen id to the screen's button wiring. View rendering itself is not
    modelled; a screen is represented by what it wires and pre-selects. */
module Wizard {
  import opened Wrappers
  import opened Bundles

  // Screen ids.
  const ViewWelcome: int := 0
  const ViewChooseMethod: int := 1
  const ViewCreateChooseServer: int := 2
  const ViewCreate: int := 3
  const ViewCreateSuccess: int := 4
  const ViewExistingAccount: int := 5
  const ViewSameAccount: int := 6

  // Values of the chosen-method attribute (0 means "not chosen").
  const MethodCreateNew: int := 1
  const MethodUseExisting: int := 2
  const MethodUseSame: int := 3

  // Values of the chosen-server attribute (0 means "not chosen").
  const ServerPredefined: int := 1
  const ServerManual: int := 2

  // Bundle keys, one per attribute, spelled as the activity spells them.
  const KeyNotifiedAddress: string := "mNotifiedAddress"
  const KeyChosenMethod: string := "mChoosenMethod"
  const KeyChosenServer: string := "mChoosenServer"
  const KeyChosenServerName: string := "mChoosenServername"
  const KeyLogin: string := "mLogin"
  const KeyPassword1: string := "mPassword1"
  const KeyPassword2: string := "mPassword2"
  const KeyCurrentView: string := "mCurrentView"

  /** The eight attributes of the wizard state. */
  datatype Field =
    | NotifiedAddress | ChosenMethod | ChosenServer | ChosenServerName
    | Login | Password1 | Password2 | CurrentView

  /** The bundle key each attribute is saved under. */
  function KeyOf(f: Field): string
  {
    match f
    case NotifiedAddress => KeyNotifiedAddress
    case ChosenMethod => KeyChosenMethod
    case ChosenServer => KeyChosenServer
    case ChosenServerName => KeyChosenServerName
    case Login => KeyLogin
    case Password1 => KeyPassword1
    case Password2 => KeyPassword2
    case CurrentView => KeyCurrentView
  }

  /** The attributes held as strings; the other three are ints. */
  predicate IsStringField(f: Field)
  {
    !(f.ChosenMethod? || f.ChosenServer? || f.CurrentView?)
  }

  const FieldKeys: set<string> :=
    {KeyNotifiedAddress, KeyChosenMethod, KeyChosenServer, KeyChosenServerName,
     KeyLogin, KeyPassword1, KeyPassword2, KeyCurrentView}

  /** The eight keys are pairwise distinct. */
  lemma KeysDistinct()
    ensures KeyNotifiedAddress != KeyChosenMethod && KeyNotifiedAddress != KeyChosenServer &&
      KeyNotifiedAddress != KeyChosenServerName && KeyNotifiedAddress != KeyLogin &&
      KeyNotifiedAddress != KeyPassword1 && KeyNotifiedAddress != KeyPassword2 &&
      KeyNotifiedAddress != KeyCurrentView
    ensures KeyChosenMethod != KeyChosenServer && KeyChosenMethod != KeyChosenServerName &&
      KeyChosenMethod != KeyLogin && KeyChosenMethod != KeyPassword1 &&
      KeyChosenMethod != KeyPassword2 && KeyChosenMethod != KeyCurrentView
    ensures KeyChosenServer != KeyChosenServerName && KeyChosenServer != KeyLogin &&
      KeyChosenServer != KeyPassword1 && KeyChosenServer != KeyPassword2 &&
      KeyChosenServer != KeyCurrentView
    ensures KeyChosenServerName != KeyLogin && KeyChosenServerName != KeyPassword1 &&
      KeyChosenServerName != KeyPassword2 && KeyChosenServerName != KeyCurrentView
    ensures KeyLogin != KeyPassword1 && KeyLogin != KeyPassword2 && KeyLogin != KeyCurrentView
    ensures KeyPassword1 != KeyPassword2 && KeyPassword1 != KeyCurrentView
    ensures KeyPassword2 != KeyCurrentView
  {
    assert |KeyNotifiedAddress| == 16 && |KeyChosenMethod| == 14 && |KeyChosenServer| == 14;
    assert |KeyChosenServerName| == 18 && |KeyLogin| == 6 && |KeyPassword1| == 10;
    assert |KeyPassword2| == 10 && |KeyCurrentView| == 12;
    assert KeyChosenMethod[8] != KeyChosenServer[8] && KeyPassword1[9] != KeyPassword2[9];
  }

  /** The wizard's state as a value. A string attribute is None where the
      activity holds null; an int attribute is unset when it is 0. */
  datatype State = State(
    notifiedAddress: Option<string>,
    chosenMethod: int,
    chosenServer: int,
    chosenServerName: Option<string>,
    login: Option<string>,
    password1: Option<string>,
    password2: Option<string>,
    currentView: int)

  /** The state of a newly created activity: every string null, every int 0. */
  function Fresh(): State
  {
    State(None, 0, 0, None, None, None, None, ViewWelcome)
  }

  // ---------------------------------------------------------------------------
  // Save and restore

  function StrField(o: Option<string>): Option<Value>
  {
    if o.Some? then Some(Str(o.value)) else None
  }

  function IntField(i: int): Option<Value>
  {
    if i != 0 then Some(Int(i)) else None
  }

  /** Attribute `f` of `s` as a bundle value when it is set (a non-null
      string, a non-zero int), None when it is unset. */
  function FieldAt(s: State, f: Field): (r: Option<Value>)
    ensures r.Some? ==> (r.value.Str? <==> IsStringField(f))
    ensures r.Some? && r.value.Int? ==> r.value.i != 0
  {
    match f
    case NotifiedAddress => StrField(s.notifiedAddress)
    case ChosenMethod => IntField(s.chosenMethod)
    case ChosenServer => IntField(s.chosenServer)
    case ChosenServerName => StrField(s.chosenServerName)
    case Login => StrField(s.login)
    case Password1 => StrField(s.password1)
    case Password2 => StrField(s.password2)
    case CurrentView => IntField(s.currentView)
  }

  /** The set value that restoring reads for attribute `f`: through `getString`
      for a string attribute and `getInt` for an int one, None when that read
      gives null or 0. */
  function Read(b: map<string, Value>, f: Field): Option<Value>
  {
    if IsStringField(f) then StrField(StringAt(b, KeyOf(f))) else IntField(IntAt(b, KeyOf(f)))
  }

  /** `putString(key, value)` when `value` is non-null. */
  function PutIfSet(b: map<string, Value>, key: string, value: Option<string>): map<string, Value>
  {
    if value.Some? then b[key := Str(value.value)] else b
  }

  /** `putInt(key, value)` when `value` is non-zero. */
  function PutIfNonZero(b: map<string, Value>, key: string, value: int): map<string, Value>
  {
    if value != 0 then b[key := Int(value)] else b
  }

  /** The bundle after saving `s` into `b`, written as the activity writes
      it: one conditional put per attribute. */
  function Saved(s: State, b: map<string, Value>): (r: map<string, Value>)
    ensures b.Keys <= r.Keys
  {
    var b1 := PutIfSet(b, KeyNotifiedAddress, s.notifiedAddress);
    var b2 := PutIfNonZero(b1, KeyChosenMethod, s.chosenMethod);
    var b3 := PutIfNonZero(b2, KeyChosenServer, s.chosenServer);
    var b4 := PutIfSet(b3, KeyChosenServerName, s.chosenServerName);
    var b5 := PutIfSet(b4, KeyLogin, s.login);
    var b6 := PutIfSet(b5, KeyPassword1, s.password1);
    var b7 := PutIfSet(b6, KeyPassword2, s.password2);
    PutIfNonZero(b7, KeyCurrentView, s.currentView)
  }

  /** What `if (read != null) field = read;` leaves in a string field. */
  function KeepUnlessSet(field: Option<string>, read: Option<string>): Option<string>
  {
    if read.Some? then read else field
  }

  /** What `if (read != 0) field = read;` leaves in an int field. */
  function KeepUnlessNonZero(field: int, read: int): int
  {
    if read != 0 then read else field
  }

  /** The state after restoring `b` over `s`, read as the activity reads it:
      all eight values first, then one conditional assignment per attribute. */
  function Restored(s: State, b: map<string, Value>): (r: State)
    ensures FieldKeys !! b.Keys ==> r == s
  {
    var nA := StringAt(b, KeyNotifiedAddress);
    var cM := IntAt(b, KeyChosenMethod);
    var cS := IntAt(b, KeyChosenServer);
    var cSN := StringAt(b, KeyChosenServerName);
    var l := StringAt(b, KeyLogin);
    var psw1 := StringAt(b, KeyPassword1);
    var psw2 := StringAt(b, KeyPassword2);
    var cV := IntAt(b, KeyCurrentView);
    State(
      KeepUnlessSet(s.notifiedAddress, nA),
      KeepUnlessNonZero(s.chosenMethod, cM),
      KeepUnlessNonZero(s.chosenServer, cS),
      KeepUnlessSet(s.chosenServerName, cSN),
      KeepUnlessSet(s.login, l),
      KeepUnlessSet(s.password1, psw1),
      KeepUnlessSet(s.password2, psw2),
      KeepUnlessNonZero(s.currentView, cV))
  }

  /** Saving writes the key of attribute `f` exactly when `f` is set, with its
      value; an unset attribute leaves its key as the bundle had it. */
  lemma SavedAt(s: State, b: map<string, Value>, f: Field)
    ensures KeyOf(f) in Saved(s, b) <==> KeyOf(f) in b || FieldAt(s, f).Some?
    ensures FieldAt(s, f).Some? ==> Saved(s, b)[KeyOf(f)] == FieldAt(s, f).value
    ensures FieldAt(s, f).None? && KeyOf(f) in b ==> Saved(s, b)[KeyOf(f)] == b[KeyOf(f)]
  {
    KeysDistinct();
  }

  /** Saving adds, removes and changes no key other than the eight attribute
      keys. */
  lemma SavedElsewhere(s: State, b: map<string, Value>, k: string)
    requires k !in FieldKeys
    ensures k in Saved(s, b) <==> k in b
    ensures k in b ==> Saved(s, b)[k] == b[k]
  {
  }

  /** Restoring changes attribute `f` only when the bundle value read for it
      is set (a non-null string, a non-zero int), and then to that value;
      otherwise `f` keeps its prior value. */
  lemma RestoredAt(s: State, b: map<string, Value>, f: Field)
    ensures FieldAt(Restored(s, b), f) == if Read(b, f).Some? then Read(b, f) else FieldAt(s, f)
  {
  }

  /** A state is determined by its set attributes: two states that agree on
      every attribute as bundle values are equal. */
  lemma FieldAtDetermines(s: State, t: State)
    requires forall f :: FieldAt(s, f) == FieldAt(t, f)
    ensures s == t
  {
    assert FieldAt(s, NotifiedAddress) == FieldAt(t, NotifiedAddress);
    assert FieldAt(s, ChosenMethod) == FieldAt(t, ChosenMethod);
    assert FieldAt(s, ChosenServer) == FieldAt(t, ChosenServer);
    assert FieldAt(s, ChosenServerName) == FieldAt(t, ChosenServerName);
    assert FieldAt(s, Login) == FieldAt(t, Login);
    assert FieldAt(s, Password1) == FieldAt(t, Password1);
    assert FieldAt(s, Password2) == FieldAt(t, Password2);
    assert FieldAt(s, CurrentView) == FieldAt(t, CurrentView);
  }

  /** Reading back an attribute that saving wrote gives the saved value;
      reading one that was not saved gives what the old bundle held. */
  lemma ReadSaved(s: State, b: map<string, Value>, f: Field)
    ensures Read(Saved(s, b), f) == if FieldAt(s, f).Some? then FieldAt(s, f) else Read(b, f)
  {
    SavedAt(s, b, f);
  }

  /** Merge law: saving `s` into a bundle that holds no set attribute and then
      restoring over `t` keeps every attribute `s` has set and takes every
      other attribute from `t`. */
  lemma SaveRestoreMerge(s: State, t: State, b: map<string, Value>)
    requires forall f :: Read(b, f).None?
    ensures forall f ::
      FieldAt(Restored(t, Saved(s, b)), f) == if FieldAt(s, f).Some? then FieldAt(s, f) else FieldAt(t, f)
  {
    forall f
      ensures FieldAt(Restored(t, Saved(s, b)), f) == if FieldAt(s, f).Some? then FieldAt(s, f) else FieldAt(t, f)
    {
      ReadSaved(s, b, f);
      RestoredAt(t, Saved(s, b), f);
    }
  }

  /** Round trip: saving into an empty bundle and restoring into a newly
      created activity reproduces every attribute, because an unset attribute
      is omitted and reads back as the default. */
  lemma SaveRestoreRoundTrip(s: State)
    ensures Restored(Fresh(), Saved(s, map[])) == s
  {
    SaveRestoreMerge(s, Fresh(), map[]);
    FieldAtDetermines(Restored(Fresh(), Saved(s, map[])), s);
  }

  /** Restoring the same bundle twice gives the state restoring it once gives. */
  lemma RestoreIdempotent(s: State, b: map<string, Value>)
    ensures Restored(Restored(s, b), b) == Restored(s, b)
  {
  }

  // ---------------------------------------------------------------------------
  // Screen dispatch

  /** The controls of a screen that the activity attaches a listener to. */
  datatype Control = BackButton | NextButton | CreateButton | ServerRadioGroup

  /** What a control is wired to: a plain jump to another screen id, or one of
      the listeners whose behaviour is not part of this model. */
  datatype Handler =
    | GoTo(target: int)
    | WelcomeNext
    | ChooseMethodNext
    | ServerModeChange
    | CreateAccount

  /** The radio buttons of the choose-method screen. */
  datatype MethodRadio = DifferentAccountRadio | ExistingAccountRadio | SameAccountRadio

  /** A rendered screen: its id, its wiring and its pre-selected radio button. */
  datatype Screen = Screen(view: int, wiring: map<Control, Handler>, checked: Option<MethodRadio>)

  /** The exceptions `initView` throws: `IllegalStateException` from the
      default case, with the wiring done before it, and the
      `NullPointerException` of the version-label lookup when no layout has
      ever been set. */
  datatype WizardError =
    | IllegalState(wiredBeforeThrow: map<Control, Handler>)
    | NullVersionLabel

  /** The screen ids whose switch case does not throw. Create-success has no
      case of its own and same-account falls through into the default case, so
      both throw. */
  predicate Renderable(view: int)
  {
    view == ViewWelcome || view == ViewChooseMethod || view == ViewCreateChooseServer
    || view == ViewCreate || view == ViewExistingAccount
  }

  /** The screen ids whose switch case calls `setContentView`: all cases but
      existing-account, which sets no layout of its own. */
  predicate SetsLayout(view: int)
  {
    view == ViewWelcome || view == ViewChooseMethod || view == ViewCreateChooseServer
    || view == ViewCreate || view == ViewSameAccount
  }

  /** Whether `initView(view)` completes, given whether some layout has been
      set before: the switch must not throw, and the version-label lookup after
      it needs a layout, which existing-account only finds from an earlier
      screen. */
  predicate Shows(view: int, layoutSet: bool)
  {
    Renderable(view) && (SetsLayout(view) || layoutSet)
  }

  /** The chosen-method value each radio button stands for. */
  function MethodOf(radio: MethodRadio): int
  {
    match radio
    case DifferentAccountRadio => MethodCreateNew
    case ExistingAccountRadio => MethodUseExisting
    case SameAccountRadio => MethodUseSame
  }

  /** The radio button checked when the choose-method screen is shown: the one
      standing for the chosen method, and none for any other value. */
  function Preselection(chosenMethod: int): (r: Option<MethodRadio>)
    ensures forall radio :: r == Some(radio) <==> MethodOf(radio) == chosenMethod
  {
    if chosenMethod == MethodCreateNew then Some(DifferentAccountRadio)
    else if chosenMethod == MethodUseExisting then Some(ExistingAccountRadio)
    else if chosenMethod == MethodUseSame then Some(SameAccountRadio)
    else None
  }

  /** The transition table: for each screen id, the listeners `initView` attaches
      to that screen's controls (before throwing, for same-account). Exactly
      the cases that set a layout wire something. */
  function Wiring(view: int): (r: map<Control, Handler>)
    ensures SetsLayout(view) ==> BackButton in r || NextButton in r
    ensures !SetsLayout(view) ==> r == map[]
    ensures forall c :: c in r && r[c].GoTo? ==> SetsLayout(r[c].target)
  {
    if view == ViewWelcome then
      map[NextButton := WelcomeNext]
    else if view == ViewChooseMethod then
      map[BackButton := GoTo(ViewWelcome), NextButton := ChooseMethodNext]
    else if view == ViewCreateChooseServer then
      map[ServerRadioGroup := ServerModeChange,
          BackButton := GoTo(ViewChooseMethod),
          NextButton := GoTo(ViewCreate)]
    else if view == ViewCreate then
      map[BackButton := GoTo(ViewCreateChooseServer), CreateButton := CreateAccount]
    else if view == ViewSameAccount then
      map[BackButton := GoTo(ViewChooseMethod)]
    else
      map[]
  }

  /** The back buttons lead to fixed screens, and choose-server's next leads to
      create. */
  lemma BackTargets()
    ensures Wiring(ViewChooseMethod)[BackButton] == GoTo(ViewWelcome)
    ensures Wiring(ViewCreateChooseServer)[BackButton] == GoTo(ViewChooseMethod)
    ensures Wiring(ViewCreate)[BackButton] == GoTo(ViewCreateChooseServer)
    ensures Wiring(ViewSameAccount)[BackButton] == GoTo(ViewChooseMethod)
    ensures Wiring(ViewCreateChooseServer)[NextButton] == GoTo(ViewCreate)
    ensures BackButton !in Wiring(ViewWelcome) && BackButton !in Wiring(ViewExistingAccount)
  {
  }

  /** Every next button wired to a plain jump has its back edge: the target
      screen's back button leads to the screen the jump started from. */
  lemma NextThenBack(v: int, t: int)
    requires NextButton in Wiring(v) && Wiring(v)[NextButton] == GoTo(t)
    ensures BackButton in Wiring(t) && Wiring(t)[BackButton] == GoTo(v)
  {
  }

  /** Every plain jump wired on a screen that renders targets a screen that
      renders, so pressing such a button never throws. */
  lemma JumpTargetsRender(v: int, c: Control)
    requires Renderable(v) && c in Wiring(v) && Wiring(v)[c].GoTo?
    ensures Renderable(Wiring(v)[c].target)
  {
  }

  /** Create-success (no case of its own) and same-account (its case has no
      break) are the named screens that do not render; every id outside 0 to 5
      does not render either. */
  lemma UnfinishedScreensThrow(viewId: int)
    ensures viewId == ViewCreateSuccess || viewId == ViewSameAccount ==> !Renderable(viewId)
    ensures !(0 <= viewId <= 5) ==> !Renderable(viewId)
  {
  }

  /** What the `initView` calls so far leave behind: the current screen id
      and whether some layout has been set. */
  datatype Display = Display(view: int, layoutSet: bool)

  /** The display after `initView(viewId)`: the new id when the call
      completes and the old one when it throws; a case that calls
      `setContentView` leaves a layout set even when it then throws. */
  function ViewAfter(d: Display, viewId: int): (r: Display)
    ensures r.view == viewId || r.view == d.view
    ensures d.layoutSet ==> r.layoutSet
  {
    Display(if Shows(viewId, d.layoutSet) then viewId else d.view, d.layoutSet || SetsLayout(viewId))
  }

  /** The display after a sequence of `initView` calls; its screen is the
      starting one or one of the ids asked for. */
  function Navigate(d: Display, viewIds: seq<int>): (r: Display)
    decreases viewIds
    ensures r.view == d.view || r.view in viewIds
    ensures d.layoutSet ==> r.layoutSet
  {
    if viewIds == [] then d else Navigate(ViewAfter(d, viewIds[0]), viewIds[1..])
  }

  /** From a screen that renders (the initial screen among them), any sequence
      of `initView` calls keeps the current screen among those that render,
      hence within 0 to 5. */
  lemma {:induction false} NavigateStaysRenderable(d: Display, viewIds: seq<int>)
    requires Renderable(d.view)
    decreases viewIds
    ensures Renderable(Navigate(d, viewIds).view)
    ensures 0 <= Navigate(d, viewIds).view <= 5
  {
    if viewIds != [] {
      NavigateStaysRenderable(ViewAfter(d, viewIds[0]), viewIds[1..]);
    }
  }

  /** Once the current screen has moved, some layout has been set: every
      `initView` that completes has found the version label in a layout. */
  lemma {:induction false} NavigateSetsLayout(d: Display, viewIds: seq<int>)
    decreases viewIds
    ensures Navigate(d, viewIds).view != d.view ==> Navigate(d, viewIds).layoutSet
  {
    if viewIds != [] {
      var e := ViewAfter(d, viewIds[0]);
      NavigateSetsLayout(e, viewIds[1..]);
      if e.view != d.view {
        assert e.layoutSet;
      }
    }
  }

  /** A state saved while its screen renders, restored over any state whose
      screen renders, again has a screen whose switch case does not throw. */
  lemma ResumeRenders(s: State, t: State)
    requires Renderable(s.currentView) && Renderable(t.currentView)
    ensures Renderable(Restored(t, Saved(s, map[])).currentView)
  {
    SaveRestoreMerge(s, t, map[]);
    assert FieldAt(Restored(t, Saved(s, map[])), CurrentView)
      == if s.currentView != 0 then Some(Int(s.currentView)) else FieldAt(t, CurrentView);
  }

  /** Saved into an empty bundle and restored into a new activity, which has
      set no layout yet, the current screen shows exactly when its switch case
      does not throw and it is not existing-account: that case sets no layout,
      so its version-label lookup fails. */
  lemma ResumeOnNewActivity(s: State)
    ensures Shows(Restored(Fresh(), Saved(s, map[])).currentView, false)
        <==> Renderable(s.currentView) && s.currentView != ViewExistingAccount
  {
    SaveRestoreRoundTrip(s);
  }

  // ---------------------------------------------------------------------------
  // The activity

  /** `if (value != null) b.putString(key, value)`. */
  method PutStringIfSet(b: Bundle, key: string, value: Option<string>)
    modifies b
    ensures b.entries == PutIfSet(old(b.entries), key, value)
  {
    if value.Some? {
      b.PutString(key, value.value);
    }
  }

  /** `if (value != 0) b.putInt(key, value)`. */
  method PutIntIfNonZero(b: Bundle, key: string, value: int)
    modifies b
    ensures b.entries == PutIfNonZero(old(b.entries), key, value)
  {
    if value != 0 {
      b.PutInt(key, value);
    }
  }

  class WizardActivity {
    var notifiedAddress: Option<string>
    var chosenMethod: int
    var chosenServer: int
    var chosenServerName: Option<string>
    var login: Option<string>
    var password1: Option<string>
    var password2: Option<string>
    var currentView: int
    /** Whether `setContentView` has been called on this activity. */
    var layoutSet: bool

    /** The activity's attributes as one value. */
    function Snapshot(): State
      reads this
    {
      State(notifiedAddress, chosenMethod, chosenServer, chosenServerName,
            login, password1, password2, currentView)
    }

    /** The current screen id and whether a layout has been set. */
    function Showing(): Display
      reads this
    {
      Display(currentView, layoutSet)
    }

    constructor ()
      ensures Snapshot() == Fresh()
      ensures !layoutSet
    {
      notifiedAddress := None;
      chosenMethod := 0;
      chosenServer := 0;
      chosenServerName := None;
      login := None;
      password1 := None;
      password2 := None;
      currentView := ViewWelcome;
      layoutSet := false;
    }

    /** Writes each set attribute into the bundle; the activity is unchanged. */
    method OnSaveInstanceState(savedBundle: Bundle)
      modifies savedBundle
      ensures savedBundle.entries == Saved(Snapshot(), old(savedBundle.entries))
      ensures unchanged(this)
    {
      PutStringIfSet(savedBundle, KeyNotifiedAddress, notifiedAddress);
      PutIntIfNonZero(savedBundle, KeyChosenMethod, chosenMethod);
      PutIntIfNonZero(savedBundle, KeyChosenServer, chosenServer);
      PutStringIfSet(savedBundle, KeyChosenServerName, chosenServerName);
      PutStringIfSet(savedBundle, KeyLogin, login);
      PutStringIfSet(savedBundle, KeyPassword1, password1);
      PutStringIfSet(savedBundle, KeyPassword2, password2);
      PutIntIfNonZero(savedBundle, KeyCurrentView, currentView);
    }

    /** Reads every attribute from the bundle, then overwrites each attribute
        whose read value is set and keeps it otherwise; the bundle is
        unchanged. */
    method RestoreStateFromBundle(savedBundle: Bundle)
      modifies this
      ensures Snapshot() == Restored(old(Snapshot()), savedBundle.entries)
      ensures layoutSet == old(layoutSet)
    {
      var nA := savedBundle.GetString(KeyNotifiedAddress);
      var cM := savedBundle.GetInt(KeyChosenMethod);
      var cS := savedBundle.GetInt(KeyChosenServer);
      var cSN := savedBundle.GetString(KeyChosenServerName);
      var l := savedBundle.GetString(KeyLogin);
      var psw1 := savedBundle.GetString(KeyPassword1);
      var psw2 := savedBundle.GetString(KeyPassword2);
      var cV := savedBundle.GetInt(KeyCurrentView);

      notifiedAddress := KeepUnlessSet(notifiedAddress, nA);
      chosenMethod := KeepUnlessNonZero(chosenMethod, cM);
      chosenServer := KeepUnlessNonZero(chosenServer, cS);
      chosenServerName := KeepUnlessSet(chosenServerName, cSN);
      login := KeepUnlessSet(login, l);
      password1 := KeepUnlessSet(password1, psw1);
      password2 := KeepUnlessSet(password2, psw2);
      currentView := KeepUnlessNonZero(currentView, cV);
    }

    /** Shows screen `viewId`: sets its layout, wires its controls, looks up
        the version label and, when all of that completes, makes it the
        current screen. Otherwise it throws and leaves the current screen as
        it was. */
    method InitView(viewId: int) returns (r: Result<Screen, WizardError>)
      modifies this`currentView, this`layoutSet
      ensures r.Success? <==> Shows(viewId, old(layoutSet))
      ensures r.Success? ==> r.value == Screen(viewId, Wiring(viewId),
        if viewId == ViewChooseMethod then Preselection(chosenMethod) else None)
      ensures r.Failure? ==>
        r.error == if Renderable(viewId) then NullVersionLabel else IllegalState(Wiring(viewId))
      ensures Showing() == ViewAfter(old(Showing()), viewId)
    {
      var wiring: map<Control, Handler> := map[];
      var checked: Option<MethodRadio> := None;
      if viewId == ViewWelcome {
        layoutSet := true;
        wiring := wiring[NextButton := WelcomeNext];
      } else if viewId == ViewChooseMethod {
        layoutSet := true;
        wiring := wiring[BackButton := GoTo(ViewWelcome)];
        if chosenMethod == MethodCreateNew {
          checked := Some(DifferentAccountRadio);
        } else if chosenMethod == MethodUseExisting {
          checked := Some(ExistingAccountRadio);
        } else if chosenMethod == MethodUseSame {
          checked := Some(SameAccountRadio);
        }
        wiring := wiring[NextButton := ChooseMethodNext];
      } else if viewId == ViewCreateChooseServer {
        layoutSet := true;
        wiring := wiring[ServerRadioGroup := ServerModeChange];
        wiring := wiring[BackButton := GoTo(ViewChooseMethod)];
        wiring := wiring[NextButton := GoTo(ViewCreate)];
      } else if viewId == ViewCreate {
        layoutSet := true;
        wiring := wiring[BackButton := GoTo(ViewCreateChooseServer)];
        wiring := wiring[CreateButton := CreateAccount];
      } else if viewId == ViewExistingAccount {
      } else if viewId == ViewSameAccount {
        layoutSet := true;
        wiring := wiring[BackButton := GoTo(ViewChooseMethod)];
        // no break: control falls through into the default case
        r := Failure(IllegalState(wiring));
        return;
      } else {
        r := Failure(IllegalState(wiring));
        return;
      }
      // the version label is looked up in whatever layout was set last
      if !layoutSet {
        r := Failure(NullVersionLabel);
        return;
      }
      currentView := viewId;
      r := Success(Screen(viewId, wiring, checked));
    }

    /** Restores from the bundle when there is one, then shows the current
        screen. */
    method OnCreate(savedInstanceState: Bundle?) returns (r: Result<Screen, WizardError>)
      modifies this
      ensures var restored := if savedInstanceState != null
                              then Restored(old(Snapshot()), savedInstanceState.entries)
                              else old(Snapshot());
        && Snapshot() == restored
        && Showing() == ViewAfter(Display(restored.currentView, old(layoutSet)), restored.currentView)
        && (r.Success? <==> Shows(restored.currentView, old(layoutSet)))
        && (r.Success? ==> r.value == Screen(restored.currentView, Wiring(restored.currentView),
              if restored.currentView == ViewChooseMethod then Preselection(restored.chosenMethod) else None))
        && (r.Failure? ==> r.error == if Renderable(restored.currentView) then NullVersionLabel
                                      else IllegalState(Wiring(restored.currentView)))
    {
      if savedInstanceState != null {
        RestoreStateFromBundle(savedInstanceState);
      }
      r := InitView(currentView);
    }
  }
}
