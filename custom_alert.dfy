/** The in-app alert controller: one dialog whose title, message, type and
    buttons are set by `showAlert`, and whose visibility `hideAlert` clears.
    Every button the dialog shows runs its caller's callback and then closes
    the dialog. Callbacks supplied by callers are opaque; running one is
    recorded by its identifier. */
module CustomAlert {
  import opened Wrappers

  /** The four alert types. */
  datatype AlertType = SuccessAlert | ErrorAlert | InfoAlert | WarningAlert

  datatype ButtonStyle = DefaultStyle | CancelStyle | DestructiveStyle

  /** What pressing a button does: close the dialog, run a caller's callback
      (identified by a number), or run an inner callback and then close the dialog. */
  datatype Callback = HideDialog | External(id: nat) | ThenHide(inner: Callback)

  /** One dialog button; the style is optional. */
  datatype AlertAction = AlertAction(text: string, onPress: Callback, style: Option<ButtonStyle>)

  /** Everything the dialog displays. */
  datatype AlertConfig = AlertConfig(title: string, message: string, alertType: AlertType, actions: seq<AlertAction>)

  /** The observable state a callback can change: whether the dialog is visible,
      and the callers' callbacks run so far, oldest first. */
  datatype UiState = UiState(visible: bool, ran: seq<nat>)

  const InitialConfig: AlertConfig := AlertConfig("", "", InfoAlert, [])

  /** The button supplied when the caller gives none. */
  const OkAction: AlertAction := AlertAction("OK", HideDialog, Some(DefaultStyle))

  const OutsideProviderMessage: string := "useCustomAlert must be used within a CustomAlertProvider"

  /** The effect of running a callback. Callbacks only ever append to the record
      of callers' callbacks, and a wrapped callback always ends with the dialog hidden. */
  function Run(cb: Callback, s: UiState): (r: UiState)
    ensures s.ran <= r.ran
    ensures cb.ThenHide? ==> !r.visible
    ensures cb.External? ==> r.visible == s.visible && r.ran == s.ran + [cb.id]
  {
    match cb
    case HideDialog => s.(visible := false)
    case External(id) => s.(ran := s.ran + [id])
    case ThenHide(inner) => Run(inner, s).(visible := false)
  }

  /** The type actually stored: the given one, or info when it is omitted. */
  function TypeOrInfo(alertType: Option<AlertType>): (t: AlertType)
    ensures alertType.Some? ==> t == alertType.value
    ensures alertType.None? ==> t == InfoAlert
  {
    match alertType
    case Some(given) => given
    case None => InfoAlert
  }

  /** The buttons to show before wrapping: the caller's, or a lone OK button when
      the caller gives none. */
  function WithDefault(actions: seq<AlertAction>): (r: seq<AlertAction>)
    ensures |r| > 0
    ensures |actions| > 0 ==> r == actions
    ensures |actions| == 0 ==> |r| == 1 && r[0].text == "OK" && r[0].style == Some(DefaultStyle)
  {
    if |actions| > 0 then actions else [OkAction]
  }

  /** Every button, with its callback replaced by one that runs the original and
      then hides the dialog; text, style and order are kept. */
  function Wrap(actions: seq<AlertAction>): (r: seq<AlertAction>)
    ensures |r| == |actions|
    ensures forall i :: 0 <= i < |r| ==>
              r[i].text == actions[i].text && r[i].style == actions[i].style &&
              r[i].onPress == ThenHide(actions[i].onPress)
  {
    if actions == [] then []
    else [actions[0].(onPress := ThenHide(actions[0].onPress))] + Wrap(actions[1..])
  }

  /** The buttons `showAlert` stores for the given ones. */
  function StoredActions(actions: seq<AlertAction>): (r: seq<AlertAction>)
    ensures |r| == if |actions| == 0 then 1 else |actions|
    ensures |actions| == 0 ==> r[0].text == "OK" && r[0].style == Some(DefaultStyle)
    ensures forall i :: 0 <= i < |actions| ==>
              r[i].text == actions[i].text && r[i].style == actions[i].style
  {
    Wrap(WithDefault(actions))
  }

  /** Pressing any stored button does what the caller's button would have done,
      then leaves the dialog hidden; pressing the default OK button runs none of the
      callers' callbacks. */
  lemma PressStoredAction(actions: seq<AlertAction>, i: nat, s: UiState)
    requires i < |StoredActions(actions)|
    ensures Run(StoredActions(actions)[i].onPress, s) == Run(WithDefault(actions)[i].onPress, s).(visible := false)
    ensures !Run(StoredActions(actions)[i].onPress, s).visible
    ensures |actions| == 0 ==> Run(StoredActions(actions)[i].onPress, s).ran == s.ran
  {
  }

  /** The state behind the alert context. */
  class AlertProvider {
    var visible: bool
    var config: AlertConfig
    /** The callers' callbacks run by button presses so far, oldest first. */
    var ran: seq<nat>

    /** Hidden, empty title and message, info type, no buttons. */
    constructor ()
      ensures !visible && config == InitialConfig && ran == []
    {
      visible := false;
      config := InitialConfig;
      ran := [];
    }

    /** Stores the title, message, type (info when omitted) and wrapped buttons,
        and shows the dialog. */
    method ShowAlert(title: string, message: string, alertType: Option<AlertType>, actions: seq<AlertAction>)
      modifies this
      ensures visible
      ensures config == AlertConfig(title, message, TypeOrInfo(alertType), StoredActions(actions))
      ensures ran == old(ran)
    {
      var alertActions := WithDefault(actions);
      var wrappedActions := Wrap(alertActions);
      config := AlertConfig(title, message, TypeOrInfo(alertType), wrappedActions);
      visible := true;
    }

    /** Hides the dialog; what it displayed stays stored. */
    method HideAlert()
      modifies this
      ensures !visible
      ensures config == old(config) && ran == old(ran)
    {
      visible := false;
    }

    /** The dialog's button `i` being pressed. */
    method PressAction(i: nat)
      requires i < |config.actions|
      modifies this
      ensures config == old(config)
      ensures UiState(visible, ran) == Run(old(config.actions[i].onPress), old(UiState(visible, ran)))
    {
      var after := Run(config.actions[i].onPress, UiState(visible, ran));
      visible, ran := after.visible, after.ran;
    }
  }

  /** Showing an alert and pressing one of its buttons closes the dialog and runs
      exactly the callback of the caller's button at that position (nothing for
      the default OK button). */
  method ShowThenPress(p: AlertProvider, title: string, message: string,
                       alertType: Option<AlertType>, actions: seq<AlertAction>, i: nat)
    requires i < |actions| || (|actions| == 0 && i == 0)
    modifies p
    ensures !p.visible
    ensures p.config.title == title && p.config.message == message
    ensures |actions| == 0 ==> p.ran == old(p.ran)
    ensures |actions| > 0 ==> p.ran == Run(actions[i].onPress, UiState(true, old(p.ran))).ran
  {
    p.ShowAlert(title, message, alertType, actions);
    PressStoredAction(actions, i, UiState(true, old(p.ran)));
    p.PressAction(i);
  }

  /** The context lookup: the provider's operations inside a provider, an error outside one. */
  function UseCustomAlert(context: Option<AlertProvider>): (r: Result<AlertProvider, string>)
    ensures r.Err? <==> context.None?
    ensures context.Some? ==> r == Ok(context.value)
    ensures r.Err? ==> r.error == OutsideProviderMessage
  {
    match context
    case None => Err(OutsideProviderMessage)
    case Some(provider) => Ok(provider)
  }
}
