/**
 * The sync setup wizard: the table of allowed screen transitions, how an
 * advance request moves the wizard, what closing the dialog reports, and the
 * two readers that turn the page's JSON replies into credentials and into the
 * chosen data types.
 */
module SyncSetup {
  import JsonReader

  // ---------------------------------------------------------------------------
  // Wizard states and transitions

  /** The wizard's screens (SyncSetupWizard::State). */
  datatype State =
    | GaiaLogin
    | GaiaSuccess
    | ChooseDataTypes
    | SetupAbortedByPendingClear
    | FatalError
    | DoneFirstTime
    | Done

  /** Setup has been carried through to the end. */
  predicate IsDone(s: State)
  {
    s == Done || s == DoneFirstTime
  }

  /** Whether the wizard may move from `current` to `target`. */
  function ShouldAdvance(current: State, target: State): (r: bool)
    ensures target == FatalError ==> r
    ensures r && IsDone(current) ==> target == FatalError
    ensures r && IsDone(target) ==> current == ChooseDataTypes
    ensures r && target == current ==> current == GaiaLogin || current == FatalError
  {
    match target
    case GaiaLogin => current == FatalError || current == GaiaLogin
    case GaiaSuccess => current == GaiaLogin
    case ChooseDataTypes => current == GaiaSuccess
    case SetupAbortedByPendingClear => current == ChooseDataTypes
    case FatalError => true
    case DoneFirstTime => current == ChooseDataTypes
    case Done => current == ChooseDataTypes
  }

  /**
   * The state after asking to advance to `target`: unchanged when the table
   * refuses; a successful sign-in goes on to choosing data types unless the
   * wizard was meant to end there.
   */
  function Next(current: State, end: State, target: State): (n: State)
    ensures n != current ==> ShouldAdvance(current, target)
    ensures n == current || n == target || (target == GaiaSuccess && n == ChooseDataTypes)
  {
    if !ShouldAdvance(current, target) then current
    else if target == GaiaSuccess && end != GaiaSuccess then ChooseDataTypes
    else target
  }

  /** The states an advance can lead to, for each state, read off the table. */
  lemma NextStates(current: State, end: State, target: State)
    ensures var n := Next(current, end, target);
            match current
            case GaiaLogin => n in {GaiaLogin, FatalError, if end == GaiaSuccess then GaiaSuccess else ChooseDataTypes}
            case GaiaSuccess => n in {GaiaSuccess, ChooseDataTypes, FatalError}
            case ChooseDataTypes => n in {ChooseDataTypes, SetupAbortedByPendingClear, FatalError, DoneFirstTime, Done}
            case SetupAbortedByPendingClear => n in {SetupAbortedByPendingClear, FatalError}
            case FatalError => n in {FatalError, GaiaLogin}
            case DoneFirstTime => n in {DoneFirstTime, FatalError}
            case Done => n in {Done, FatalError}
  {
  }

  /** Once setup is done, the panic button is the only way out, and it always works. */
  lemma DoneOnlyLeadsToFatalError(current: State, end: State, target: State)
    requires IsDone(current)
    ensures Next(current, end, target) != current <==> target == FatalError
    ensures Next(current, end, target) == current || Next(current, end, target) == FatalError
  {
  }

  /** A successful sign-in lands on the end state when that is where the wizard ends, else on choosing data types. */
  lemma SignInOutcome(end: State)
    ensures Next(GaiaLogin, end, GaiaSuccess) == if end == GaiaSuccess then GaiaSuccess else ChooseDataTypes
  {
  }

  /** The states the wizard passes through when asked to advance to each of `targets` in turn. */
  function Run(current: State, end: State, targets: seq<State>): (trace: seq<State>)
    decreases |targets|
    ensures |trace| == |targets|
  {
    if targets == [] then []
    else
      var n := Next(current, end, targets[0]);
      [n] + Run(n, end, targets[1..])
  }

  /**
   * Setup cannot be finished without the data-type screen: a run that starts
   * short of done and ends done starts at or passes through choosing data
   * types.
   */
  lemma {:induction false} DoneOnlyAfterChoosingDataTypes(current: State, end: State, targets: seq<State>)
    requires !IsDone(current)
    requires |targets| > 0 && IsDone(Run(current, end, targets)[|targets| - 1])
    decreases |targets|
    ensures ChooseDataTypes in [current] + Run(current, end, targets)
  {
    var n := Next(current, end, targets[0]);
    var rest := Run(n, end, targets[1..]);
    assert Run(current, end, targets) == [n] + rest;
    if IsDone(n) {
      NextToDoneComesFromChoosing(current, end, targets[0]);
      assert ([current] + Run(current, end, targets))[0] == ChooseDataTypes;
    } else {
      assert rest[|targets| - 2] == Run(current, end, targets)[|targets| - 1];
      DoneOnlyAfterChoosingDataTypes(n, end, targets[1..]);
      assert ChooseDataTypes in [n] + rest;
      assert [current] + Run(current, end, targets) == [current] + ([n] + rest);
    }
  }

  /** An advance that ends done starts at choosing data types, or was already done. */
  lemma NextToDoneComesFromChoosing(current: State, end: State, target: State)
    requires IsDone(Next(current, end, target))
    ensures current == ChooseDataTypes || IsDone(current)
  {
  }

  // ---------------------------------------------------------------------------
  // The flow object

  /** What the flow reports when the user cancels part-way (ProfileSyncService::SyncEvent). */
  datatype CancelEvent =
    | CancelFromSignonWithoutAuth
    | CancelDuringSignon
    | CancelFromChooseDataTypes

  /** Calls the flow makes on the sync service, in order. */
  datatype ServiceCall =
    | SetSyncSetupCompleted
    | RecordCancel(event: CancelEvent)
    | UserCancelledDialog

  /** The cancel event recorded for the screen the dialog was closed on, if any. */
  function CancelEventFor(s: State): Option<CancelEvent>
  {
    match s
    case GaiaLogin => Some(CancelFromSignonWithoutAuth)
    case GaiaSuccess => Some(CancelDuringSignon)
    case ChooseDataTypes => Some(CancelFromChooseDataTypes)
    case _ => None
  }

  datatype Option<T> = None | Some(value: T)

  /** The calls closing the dialog makes on the sync service from state `s`. */
  function CloseCalls(s: State): (calls: seq<ServiceCall>)
    ensures 1 <= |calls| <= 2 && calls[|calls| - 1] == UserCancelledDialog
  {
    (if IsDone(s) then [SetSyncSetupCompleted] else []) +
    (match CancelEventFor(s) case Some(e) => [RecordCancel(e)] case None => []) +
    [UserCancelledDialog]
  }

  /**
   * Closing the dialog marks setup completed exactly in a done state, records
   * a cancel event exactly on the three interactive screens, and always tells
   * the service the dialog went away, last.
   */
  lemma CloseCallsMeaning(s: State)
    ensures SetSyncSetupCompleted in CloseCalls(s) <==> IsDone(s)
    ensures (exists e :: RecordCancel(e) in CloseCalls(s)) <==> s in {GaiaLogin, GaiaSuccess, ChooseDataTypes}
    ensures CloseCalls(s)[|CloseCalls(s)| - 1] == UserCancelledDialog
    ensures !(SetSyncSetupCompleted in CloseCalls(s) && exists e :: RecordCancel(e) in CloseCalls(s))
  {
    var calls := CloseCalls(s);
    if IsDone(s) {
      assert calls == [SetSyncSetupCompleted, UserCancelledDialog];
    } else {
      match CancelEventFor(s)
      case Some(e) =>
        assert calls == [RecordCancel(e), UserCancelledDialog];
      case None =>
        assert calls == [UserCancelledDialog];
    }
  }

  /** One run of the setup dialog: where it stands, where it is meant to end, and what it has told the service. */
  class SyncSetupFlow {
    var currentState: State
    const endState: State
    var serviceCalls: seq<ServiceCall>

    constructor (start: State, end: State)
      ensures currentState == start && endState == end && serviceCalls == []
    {
      currentState := start;
      endState := end;
      serviceCalls := [];
    }

    /** Moves to `target` when the table allows it (the screens shown on the way are outside the model). */
    method Advance(target: State)
      modifies this
      ensures currentState == Next(old(currentState), endState, target)
      ensures serviceCalls == old(serviceCalls)
    {
      if !ShouldAdvance(currentState, target) {
        return;
      }
      var state := target;
      if state == GaiaSuccess && endState != GaiaSuccess {
        state := ChooseDataTypes;
      }
      currentState := state;
    }

    /** The dialog was closed: report completion or the cancel point, then the close itself. */
    method OnDialogClosed()
      modifies this
      ensures currentState == old(currentState)
      ensures serviceCalls == old(serviceCalls) + CloseCalls(old(currentState))
    {
      if currentState == Done || currentState == DoneFirstTime {
        serviceCalls := serviceCalls + [SetSyncSetupCompleted];
      }
      match currentState {
        case GaiaLogin =>
          serviceCalls := serviceCalls + [RecordCancel(CancelFromSignonWithoutAuth)];
        case GaiaSuccess =>
          serviceCalls := serviceCalls + [RecordCancel(CancelDuringSignon)];
        case ChooseDataTypes =>
          serviceCalls := serviceCalls + [RecordCancel(CancelFromChooseDataTypes)];
        case _ =>
      }
      serviceCalls := serviceCalls + [UserCancelledDialog];
    }
  }

  // ---------------------------------------------------------------------------
  // Reading the page's replies

  /** The string stored under `key`, when the value there is a string. */
  function GetString(entries: map<seq<int>, JsonReader.Value>, key: string): (r: Option<seq<int>>)
    ensures r.Some? <==> JsonReader.Units(key) in entries && entries[JsonReader.Units(key)].Str?
    ensures r.Some? ==> entries[JsonReader.Units(key)] == JsonReader.Str(r.value)
  {
    if JsonReader.Units(key) in entries && entries[JsonReader.Units(key)].Str? then Some(entries[JsonReader.Units(key)].units) else None
  }

  /** The boolean stored under `key`, when the value there is a boolean. */
  function GetBoolean(entries: map<seq<int>, JsonReader.Value>, key: string): (r: Option<bool>)
    ensures r.Some? <==> JsonReader.Units(key) in entries && entries[JsonReader.Units(key)].Bool?
    ensures r.Some? ==> entries[JsonReader.Units(key)] == JsonReader.Bool(r.value)
  {
    if JsonReader.Units(key) in entries && entries[JsonReader.Units(key)].Bool? then Some(entries[JsonReader.Units(key)].b) else None
  }

  /** The reply's top-level dictionary, when the text parses to one. */
  function ReadDictionary(json: string): (r: Option<map<seq<int>, JsonReader.Value>>)
    ensures r.Some? <==> JsonReader.Read(json, false).Some? && JsonReader.Read(json, false).value.Dict?
    ensures r.Some? ==> JsonReader.Read(json, false) == JsonReader.Some(JsonReader.Dict(r.value))
  {
    match JsonReader.Read(json, false)
    case Some(v) => if v.Dict? then Some(v.entries) else None
    case None => None
  }

  datatype Credentials = Credentials(username: seq<int>, password: seq<int>, captcha: seq<int>)

  /** The sign-in reply: a dictionary with string `user`, `pass` and `captcha`. */
  function GetAuthData(json: string): (r: Option<Credentials>)
    ensures r.Some? <==>
              ReadDictionary(json).Some? &&
              var d := ReadDictionary(json).value;
              GetString(d, "user").Some? && GetString(d, "pass").Some? && GetString(d, "captcha").Some?
    ensures r.Some? ==>
              var d := JsonReader.Read(json, false).value.entries;
              && JsonReader.Units("user") in d && d[JsonReader.Units("user")] == JsonReader.Str(r.value.username)
              && JsonReader.Units("pass") in d && d[JsonReader.Units("pass")] == JsonReader.Str(r.value.password)
              && JsonReader.Units("captcha") in d && d[JsonReader.Units("captcha")] == JsonReader.Str(r.value.captcha)
  {
    match ReadDictionary(json)
    case None => None
    case Some(d) =>
      match (GetString(d, "user"), GetString(d, "pass"), GetString(d, "captcha"))
      case (Some(u), Some(p), Some(c)) => Some(Credentials(u, p, c))
      case _ => None
  }

  /** The kinds of data sync can keep (syncable::ModelType, those this reply names and sessions). */
  datatype ModelType = Bookmarks | Preferences | Themes | Passwords | Autofill | Extensions | TypedUrls | Apps | Sessions

  /** The reply's checkbox keys in the order they are read, each with the type it selects. */
  const DataTypeKeys: seq<(string, ModelType)> :=
    [("syncBookmarks", Bookmarks), ("syncPreferences", Preferences), ("syncThemes", Themes),
     ("syncPasswords", Passwords), ("syncAutofill", Autofill), ("syncExtensions", Extensions),
     ("syncTypedUrls", TypedUrls), ("syncApps", Apps)]

  /**
   * What reading the data-type reply leaves behind: whether it succeeded, the
   * "keep everything synced" flag if it was read, and the type set, which
   * gains a type for each true checkbox read before any failure.
   */
  datatype Choice = Choice(ok: bool, syncEverything: Option<bool>, types: set<ModelType>)

  /** Reads the checkboxes of `keys` in order into `types`, stopping at the first that is missing or not a boolean. */
  function ReadCheckboxes(d: map<seq<int>, JsonReader.Value>, keys: seq<(string, ModelType)>, types: set<ModelType>)
    : (r: (bool, set<ModelType>))
    decreases |keys|
    ensures types <= r.1
    ensures forall t :: t in r.1 && t !in types ==> exists i :: 0 <= i < |keys| && keys[i].1 == t
  {
    if keys == [] then (true, types)
    else
      match GetBoolean(d, keys[0].0)
      case None => (false, types)
      case Some(flag) =>
        var r := ReadCheckboxes(d, keys[1..], if flag then types + {keys[0].1} else types);
        assert forall i :: 0 <= i < |keys[1..]| ==> keys[1..][i] == keys[i + 1];
        r
  }

  /** The data-type reply: the "keep everything synced" flag and the eight checkboxes, all booleans. */
  function GetDataTypeChoiceData(json: string, types: set<ModelType>): (c: Choice)
    ensures types <= c.types
    ensures c.ok ==> c.syncEverything.Some?
    ensures c.syncEverything.None? ==> !c.ok && c.types == types
  {
    match ReadDictionary(json)
    case None => Choice(false, None, types)
    case Some(d) =>
      match GetBoolean(d, "keepEverythingSynced")
      case None => Choice(false, None, types)
      case Some(everything) =>
        var (ok, chosen) := ReadCheckboxes(d, DataTypeKeys, types);
        Choice(ok, Some(everything), chosen)
  }

  /** Every checkbox of `keys` is present and boolean. */
  predicate AllBooleans(d: map<seq<int>, JsonReader.Value>, keys: seq<(string, ModelType)>)
  {
    forall i :: 0 <= i < |keys| ==> GetBoolean(d, keys[i].0).Some?
  }

  /** The types whose checkbox among `keys` reads true. */
  predicate Checked(d: map<seq<int>, JsonReader.Value>, keys: seq<(string, ModelType)>, t: ModelType)
  {
    exists i :: 0 <= i < |keys| && keys[i].1 == t && GetBoolean(d, keys[i].0) == Some(true)
  }

  /**
   * Reading the checkboxes succeeds exactly when all are booleans; it only
   * ever adds checked types; and on success it adds every checked type.
   */
  lemma {:induction false} ReadCheckboxesMeaning(d: map<seq<int>, JsonReader.Value>, keys: seq<(string, ModelType)>,
                                                 types: set<ModelType>)
    ensures var r := ReadCheckboxes(d, keys, types);
            && (r.0 <==> AllBooleans(d, keys))
            && types <= r.1
            && (forall t :: t in r.1 && t !in types ==> Checked(d, keys, t))
            && (r.0 ==> forall t :: Checked(d, keys, t) ==> t in r.1)
  {
    if keys != [] {
      match GetBoolean(d, keys[0].0)
      case None =>
        assert !AllBooleans(d, keys) by {
          assert GetBoolean(d, keys[0].0).None?;
        }
      case Some(flag) =>
        var next := if flag then types + {keys[0].1} else types;
        ReadCheckboxesMeaning(d, keys[1..], next);
        var r := ReadCheckboxes(d, keys, types);
        assert r == ReadCheckboxes(d, keys[1..], next);
        forall t | Checked(d, keys[1..], t)
          ensures Checked(d, keys, t)
        {
          var i :| 0 <= i < |keys[1..]| && keys[1..][i].1 == t && GetBoolean(d, keys[1..][i].0) == Some(true);
          assert keys[i + 1] == keys[1..][i];
        }
        if r.0 {
          forall t | Checked(d, keys, t)
            ensures t in r.1
          {
            var i :| 0 <= i < |keys| && keys[i].1 == t && GetBoolean(d, keys[i].0) == Some(true);
            if i > 0 {
              assert keys[1..][i - 1] == keys[i];
              assert Checked(d, keys[1..], t);
            }
          }
        }
        if AllBooleans(d, keys) {
          forall i | 0 <= i < |keys[1..]|
            ensures GetBoolean(d, keys[1..][i].0).Some?
          {
            assert keys[1..][i] == keys[i + 1];
          }
        }
        if AllBooleans(d, keys[1..]) {
          forall i | 0 <= i < |keys|
            ensures GetBoolean(d, keys[i].0).Some?
          {
            if i > 0 {
              assert keys[i] == keys[1..][i - 1];
            }
          }
        }
    }
  }

  /**
   * The data-type reply succeeds exactly when it is a dictionary whose
   * "keepEverythingSynced" and eight checkboxes are all booleans; on success
   * the set gains exactly the checked types, and whatever happens it gains
   * nothing else.
   */
  lemma GetDataTypeChoiceDataMeaning(json: string, types: set<ModelType>)
    ensures var c := GetDataTypeChoiceData(json, types);
            && (c.ok <==>
                  ReadDictionary(json).Some? &&
                  GetBoolean(ReadDictionary(json).value, "keepEverythingSynced").Some? &&
                  AllBooleans(ReadDictionary(json).value, DataTypeKeys))
            && (c.ok ==> c.syncEverything == GetBoolean(ReadDictionary(json).value, "keepEverythingSynced"))
            && types <= c.types
            && (c.ok ==> forall t :: t in c.types <==> t in types || Checked(ReadDictionary(json).value, DataTypeKeys, t))
            && (forall t :: t in c.types && t !in types ==> Checked(ReadDictionary(json).value, DataTypeKeys, t))
  {
    match ReadDictionary(json)
    case None =>
    case Some(d) =>
      ReadCheckboxesMeaning(d, DataTypeKeys, types);
  }

  /** The reply has no sessions checkbox, so reading it never adds sessions. */
  lemma ChoiceNeverAddsSessions(json: string, types: set<ModelType>)
    ensures Sessions in GetDataTypeChoiceData(json, types).types ==> Sessions in types
  {
    GetDataTypeChoiceDataMeaning(json, types);
    NoSessionsCheckbox();
  }

  /** None of the reply's checkboxes stands for the sessions type. */
  lemma NoSessionsCheckbox()
    ensures forall i :: 0 <= i < |DataTypeKeys| ==> DataTypeKeys[i].1 != Sessions
  {
  }
}
