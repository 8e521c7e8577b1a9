/**
 * `NotificationService.send_risk_alert` (backend/app/services/notifications.py): a
 * per-account state machine guarded by the status, a 60-minute cooldown and the
 * presence of the owner, dispatching to the enabled channels and stamping
 * `last_notification_at`.
 */
module Notifications {
  import opened Wrappers
  import Risk

  const CooldownMinutes: int := 60

  /** The cooldown in seconds; times are whole seconds. */
  const CooldownSeconds: int := CooldownMinutes * 60

  /** A message handed to one of the (simulated) channels. */
  datatype Dispatch = Email(to: string) | Telegram(chatId: string)

  /** Which gate decides a call. */
  datatype Gate = NotAlertable | CoolingDown | OwnerMissing | Deliver

  /** The alert fields of a `BrokerAccount` row. */
  class AlertAccount {
    var lastNotificationAt: Option<int>
    var emailAlertsEnabled: bool
    var telegramAlertsEnabled: bool
    var telegramChatId: Option<string>
    var userId: int

    constructor (userId: int)
      ensures this.userId == userId && lastNotificationAt.None?
      ensures emailAlertsEnabled && !telegramAlertsEnabled && telegramChatId.None?
    {
      this.userId := userId;
      lastNotificationAt := None;
      emailAlertsEnabled := true;
      telegramAlertsEnabled := false;
      telegramChatId := None;
    }
  }

  predicate Alertable(status: Risk.Status)
  {
    status == Risk.Critical || status == Risk.Breach
  }

  /** The cooldown holds while less than the cooldown has passed since the last stamp. */
  predicate InCooldown(last: Option<int>, now: int)
  {
    last.Some? && now - last.value < CooldownSeconds
  }

  /** The gates in the source's order: status, then cooldown, then the owner lookup. */
  function Decide(status: Risk.Status, last: Option<int>, now: int, ownerKnown: bool): (g: Gate)
    ensures g == Deliver <==> Alertable(status) && !InCooldown(last, now) && ownerKnown
    ensures g == NotAlertable <==> !Alertable(status)
    ensures g == CoolingDown <==> Alertable(status) && InCooldown(last, now)
  {
    if !Alertable(status) then NotAlertable
    else if InCooldown(last, now) then CoolingDown
    else if !ownerKnown then OwnerMissing
    else Deliver
  }

  /** The channels of a delivered alert: email when enabled, then Telegram when enabled with a chat id. */
  function Channels(emailEnabled: bool, telegramEnabled: bool, chatId: Option<string>, ownerEmail: string): (d: seq<Dispatch>)
    ensures Email(ownerEmail) in d <==> emailEnabled
    ensures (exists c :: Telegram(c) in d) <==> telegramEnabled && chatId.Some? && chatId.value != ""
    ensures |d| <= 2
  {
    (if emailEnabled then [Email(ownerEmail)] else [])
      + (if telegramEnabled && chatId.Some? && chatId.value != "" then [Telegram(chatId.value)] else [])
  }

  /** The stamp after a call: `now` once the gates pass and the commit succeeds, otherwise the old one. */
  function NextStamp(status: Risk.Status, last: Option<int>, now: int, ownerKnown: bool, commitOk: bool): Option<int>
  {
    if Decide(status, last, now, ownerKnown) == Deliver && commitOk then Some(now) else last
  }

  /**
   * `send_risk_alert`. `users` maps user ids to their email addresses, `now` stands for
   * `datetime.utcnow()` and `commitOk` for whether the stamp's commit succeeds; a failed
   * commit is rolled back and swallowed, after the messages went out.
   */
  method SendRiskAlert(account: AlertAccount, users: map<int, string>, status: Risk.Status, now: int, commitOk: bool)
    returns (sent: seq<Dispatch>)
    modifies account
    ensures Decide(status, old(account.lastNotificationAt), now, account.userId in users) == Deliver ==>
      sent == Channels(account.emailAlertsEnabled, account.telegramAlertsEnabled, account.telegramChatId,
                       users[account.userId])
    ensures Decide(status, old(account.lastNotificationAt), now, account.userId in users) != Deliver ==> sent == []
    ensures account.lastNotificationAt ==
      NextStamp(status, old(account.lastNotificationAt), now, account.userId in users, commitOk)
    ensures account.emailAlertsEnabled == old(account.emailAlertsEnabled)
    ensures account.telegramAlertsEnabled == old(account.telegramAlertsEnabled)
    ensures account.telegramChatId == old(account.telegramChatId)
    ensures account.userId == old(account.userId)
  {
    sent := [];
    if !(status == Risk.Critical || status == Risk.Breach) {
      return;
    }

    // 1. cooldown
    if account.lastNotificationAt.Some? {
      var elapsed := now - account.lastNotificationAt.value;
      if elapsed < CooldownSeconds {
        return;
      }
    }

    // 2. owner
    if account.userId !in users {
      return;
    }
    var email := users[account.userId];

    // 3. email
    if account.emailAlertsEnabled {
      sent := sent + [Email(email)];
    }

    // 4. telegram
    if account.telegramAlertsEnabled && account.telegramChatId.Some? && account.telegramChatId.value != "" {
      sent := sent + [Telegram(account.telegramChatId.value)];
    }

    // 5. stamp, kept only when the commit succeeds
    if commitOk {
      account.lastNotificationAt := Some(now);
    }
  }

  /** A status other than critical or breach never passes, and leaves the stamp as it was. */
  lemma QuietStatusChangesNothing(status: Risk.Status, last: Option<int>, now: int, ownerKnown: bool, commitOk: bool)
    requires status == Risk.Safe || status == Risk.Warning
    ensures Decide(status, last, now, ownerKnown) == NotAlertable
    ensures NextStamp(status, last, now, ownerKnown, commitOk) == last
  {
  }

  /** Inside the cooldown, and when the owner is missing, the stamp is not touched. */
  lemma BlockedCallKeepsStamp(status: Risk.Status, last: Option<int>, now: int, ownerKnown: bool, commitOk: bool)
    requires InCooldown(last, now) || !ownerKnown
    ensures Decide(status, last, now, ownerKnown) != Deliver
    ensures NextStamp(status, last, now, ownerKnown, commitOk) == last
  {
  }

  /** A delivered alert stamps `now` whichever channels fired, including none. */
  lemma DeliveredAlertStamps(status: Risk.Status, last: Option<int>, now: int)
    requires Decide(status, last, now, true) == Deliver
    ensures NextStamp(status, last, now, true, true) == Some(now)
  {
  }

  /**
   * Two calls less than an hour apart deliver at most once, provided the first one's
   * stamp was committed.
   */
  lemma CooldownDeliversAtMostOnce(s1: Risk.Status, s2: Risk.Status, last: Option<int>, t1: int, t2: int,
                                   owner1: bool, owner2: bool)
    requires t1 <= t2 < t1 + CooldownSeconds
    ensures !(Decide(s1, last, t1, owner1) == Deliver
              && Decide(s2, NextStamp(s1, last, t1, owner1, true), t2, owner2) == Deliver)
  {
  }

  /** When the commit of the stamp fails, the very next call delivers again. */
  lemma FailedCommitAllowsRepeat(status: Risk.Status, last: Option<int>, t1: int, t2: int)
    requires Decide(status, last, t1, true) == Deliver && t1 <= t2
    ensures Decide(status, NextStamp(status, last, t1, true, false), t2, true) == Deliver
  {
  }

  /** Once the cooldown has passed, an alertable status is delivered again. */
  lemma CooldownExpires(status: Risk.Status, t1: int, t2: int)
    requires Alertable(status) && t2 >= t1 + CooldownSeconds
    ensures Decide(status, Some(t1), t2, true) == Deliver
  {
  }
}
