/** The push notification switch of the profile page
    (src/components/PushNotificationToggle.tsx): whether it renders, when its
    button is enabled, what it says, and what a click does. */
module PushToggle {
  import opened PushNotifications

  /** The four button captions, in order of precedence. */
  datatype Label = Activating | Active | Blocked | Activate

  function LabelText(l: Label): string
  {
    match l
    case Activating => "Ativando..."
    case Active => "Ativadas"
    case Blocked => "Bloqueadas"
    case Activate => "Ativar Notificações"
  }

  /** The three status lines under the title, in order of precedence. */
  datatype Status = Receiving | BlockedInBrowser | Invitation

  function StatusText(s: Status): string
  {
    match s
    case Receiving => "\U{2705} Você receberá atualizações sobre seus pedidos"
    case BlockedInBrowser => "\U{274C} Bloqueadas nas configurações do navegador"
    case Invitation => "\U{1F514} Receba atualizações sobre seus pedidos"
  }

  /** The component renders only when both APIs exist. */
  predicate Renders(b: Browser)
  {
    Supported(b)
  }

  /** Where the switch does not render, subscribing could not succeed either:
      hiding it takes nothing away from the customer. */
  lemma HiddenToggleLosesNothing(b: Browser)
    requires !Renders(b)
    ensures !SubscribeSucceeds(b)
  {
  }

  /** Each state has its own caption and its own status line. */
  lemma TextsDistinguishStates(l1: Label, l2: Label, s1: Status, s2: Status)
    ensures LabelText(l1) == LabelText(l2) ==> l1 == l2
    ensures StatusText(s1) == StatusText(s2) ==> s1 == s2
  {
  }

  /** The caption: loading first, then subscribed, then blocked. */
  function ButtonLabel(isLoading: bool, isSubscribed: bool, permission: Permission): (l: Label)
    ensures l == Activating <==> isLoading
    ensures l == Active <==> !isLoading && isSubscribed
    ensures l == Blocked <==> !isLoading && !isSubscribed && permission == Denied
  {
    if isLoading then Activating
    else if isSubscribed then Active
    else if permission == Denied then Blocked
    else Activate
  }

  /** The status line: subscribed first, then blocked. */
  function StatusLine(isSubscribed: bool, permission: Permission): (s: Status)
    ensures s == Receiving <==> isSubscribed
    ensures s == BlockedInBrowser <==> !isSubscribed && permission == Denied
  {
    if isSubscribed then Receiving
    else if permission == Denied then BlockedInBrowser
    else Invitation
  }

  /** The button's `disabled` attribute: disabled exactly when the caption is
      anything but the invitation. */
  function Disabled(isLoading: bool, isSubscribed: bool, permission: Permission): (d: bool)
    ensures d <==> ButtonLabel(isLoading, isSubscribed, permission) != Activate
  {
    isLoading || isSubscribed || permission == Denied
  }

  /** The guard of `handleToggle`. */
  predicate ToggleSubscribes(isSubscribed: bool, permission: Permission)
  {
    !isSubscribed && permission != Denied
  }

  /** The button is enabled exactly when it invites activation, and a click
      on an enabled button subscribes. */
  lemma EnabledMeansActivate(isLoading: bool, isSubscribed: bool, permission: Permission)
    ensures !Disabled(isLoading, isSubscribed, permission) <==> ButtonLabel(isLoading, isSubscribed, permission) == Activate
    ensures !Disabled(isLoading, isSubscribed, permission) ==> ToggleSubscribes(isSubscribed, permission)
  {
  }

  /** Out of loading, the caption and the status line tell the same story. */
  lemma LabelAgreesWithStatus(isSubscribed: bool, permission: Permission)
    ensures var l := ButtonLabel(false, isSubscribed, permission);
      var s := StatusLine(isSubscribed, permission);
      (l == Active <==> s == Receiving) && (l == Blocked <==> s == BlockedInBrowser)
      && (l == Activate <==> s == Invitation)
  {
  }

  /** `handleToggle`: subscribes through the hook only when not subscribed and
      not blocked; otherwise the hook is left alone. */
  method HandleToggle(hook: PushHook, b: Browser) returns (called: bool)
    modifies hook
    ensures called <==> ToggleSubscribes(old(hook.isSubscribed), old(hook.permissionStatus))
    ensures !called ==> unchanged(hook)
    ensures called ==> hook.isSubscribed == SubscribeSucceeds(b) && !hook.isLoading
    ensures called ==>
      hook.permissionStatus == if SubscribeSucceeds(b) then Granted else old(hook.permissionStatus)
  {
    if !hook.isSubscribed && hook.permissionStatus != Denied {
      var success := hook.Subscribe(b);
      return true;
    }
    return false;
  }
}
