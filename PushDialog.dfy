/** The invitation to turn on push notifications
    (src/components/PushNotificationDialog.tsx): when it appears, what its
    buttons do, and the per-session dismissal flag that keeps it away. */
module PushDialog {
  import opened PushNotifications

  /** The session storage key of the dismissal flag. */
  const DismissKey: string := "push_notification_dismissed"
  /** The value written under `DismissKey` when the dialog is dismissed. */
  const DismissValue: string := "true"

  /** `sessionStorage.getItem(DismissKey)` is truthy: present and not empty. */
  predicate Dismissed(session: map<string, string>)
  {
    DismissKey in session && session[DismissKey] != ""
  }

  /** Whether the dialog is still worth offering: not granted yet, not
      subscribed, and not dismissed in this session. */
  predicate Invites(permission: Permission, subscribed: bool, session: map<string, string>)
  {
    permission != Granted && !subscribed && !Dismissed(session)
  }

  class Dialog {
    var isVisible: bool
    var session: map<string, string>
    const hook: PushHook

    /** The dialog never stays visible once dismissed in this session. */
    predicate DismissalHonoured()
      reads this
    {
      Dismissed(session) ==> !isVisible
    }

    constructor (hook: PushHook, session: map<string, string>)
      ensures this.hook == hook && this.session == session && !isVisible
      ensures DismissalHonoured()
    {
      this.hook := hook;
      this.session := session;
      isVisible := false;
    }

    /** The effect run on mount and whenever the permission or subscription
        status changes. Without both APIs nothing happens; a granted
        permission or a subscription hides the dialog; otherwise, once the
        delay elapses (`timerFired`), it is shown unless dismissed. */
    method RunEffect(b: Browser, timerFired: bool)
      requires DismissalHonoured()
      modifies this`isVisible
      ensures DismissalHonoured()
      ensures !Supported(b) ==> isVisible == old(isVisible)
      ensures Supported(b) && (hook.permissionStatus == Granted || hook.isSubscribed) ==> !isVisible
      ensures Supported(b) && hook.permissionStatus != Granted && !hook.isSubscribed ==>
        if timerFired then (isVisible <==> !Dismissed(session)) else isVisible == old(isVisible)
      ensures isVisible && !old(isVisible) ==>
        Supported(b) && timerFired && Invites(hook.permissionStatus, hook.isSubscribed, session)
    {
      if !b.hasNotification || !b.hasServiceWorker {
        return;
      }
      if hook.permissionStatus != Granted && !hook.isSubscribed {
        if timerFired && !Dismissed(session) {
          isVisible := true;
        }
      } else {
        isVisible := false;
      }
    }

    /** `handleSubscribe`: with permission denied only an alert is shown and
        the hook is not called; otherwise the hook subscribes, and the dialog
        closes exactly when that succeeded. */
    method HandleSubscribe(b: Browser) returns (alerted: bool)
      requires DismissalHonoured()
      modifies this`isVisible, hook
      ensures DismissalHonoured()
      ensures alerted <==> old(hook.permissionStatus) == Denied
      ensures alerted ==> unchanged(hook) && isVisible == old(isVisible)
      ensures !alerted ==> hook.isSubscribed == SubscribeSucceeds(b) && !hook.isLoading
      ensures !alerted ==>
        hook.permissionStatus == if SubscribeSucceeds(b) then Granted else old(hook.permissionStatus)
      ensures !alerted ==> (isVisible <==> old(isVisible) && !SubscribeSucceeds(b))
    {
      if hook.permissionStatus == Denied {
        return true;
      }
      var success := hook.Subscribe(b);
      if success {
        isVisible := false;
      }
      return false;
    }

    /** `handleDismiss`: hides the dialog and records the dismissal for the
        rest of the session. */
    method HandleDismiss()
      modifies this`isVisible, this`session
      ensures !isVisible && session == old(session)[DismissKey := DismissValue]
      ensures Dismissed(session) && DismissalHonoured()
    {
      isVisible := false;
      session := session[DismissKey := DismissValue];
    }
  }
}
