/**
 * The "Remind Me" action (ProspectsView.addNotification): when a reminder
 * request is submitted, and what it carries. The notification centre's
 * asynchronous callbacks become the two answers the flow waits for: the
 * current authorization status, and the user's answer when asked.
 */
module Reminders {
  import opened ProspectList

  /** The notification permission the platform reports. */
  datatype AuthorizationStatus = NotDetermined | Denied | Authorized | Provisional | Ephemeral

  /** A calendar trigger matching only the hour of the day. */
  datatype CalendarTrigger = CalendarTrigger(hour: nat, repeats: bool)

  /** The parts of a notification request the app sets (the identifier is a fresh UUID, not modelled). */
  datatype NotificationRequest = NotificationRequest(title: string, subtitle: string, defaultSound: bool, trigger: CalendarTrigger)

  /** Where a step of the reminder flow leads: on to the permission prompt, or to its end. */
  datatype ReminderState =
    | RequestingAuthorization
    | Submitted(request: NotificationRequest)
    | NotSubmitted

  /** The request built by the `addRequest` closure. */
  function ReminderRequest(prospect: Prospect): (r: NotificationRequest)
    ensures r.title == "Contact " + prospect.name && r.subtitle == prospect.emailAddress
    ensures r.defaultSound && r.trigger.hour == 9 && !r.trigger.repeats
  {
    NotificationRequest("Contact " + prospect.name, prospect.emailAddress, true, CalendarTrigger(9, false))
  }

  /** The settings callback: submit at once when authorized, otherwise ask. */
  function AfterSettings(prospect: Prospect, status: AuthorizationStatus): (r: ReminderState)
    ensures r.RequestingAuthorization? <==> status != Authorized
    ensures r.Submitted? <==> status == Authorized
    ensures r.Submitted? ==> r.request == ReminderRequest(prospect)
  {
    if status == Authorized then Submitted(ReminderRequest(prospect)) else RequestingAuthorization
  }

  /** The authorization callback: submit if granted, otherwise give up. */
  function AfterAuthorization(prospect: Prospect, success: bool): (r: ReminderState)
    ensures r.Submitted? <==> success
    ensures !success ==> r == NotSubmitted
    ensures r.Submitted? ==> r.request == ReminderRequest(prospect)
  {
    if success then Submitted(ReminderRequest(prospect)) else NotSubmitted
  }

  /**
   * A whole flow. `granted` is the user's answer to the permission prompt; it
   * is only consulted when the status is not already authorized.
   */
  function AddNotification(prospect: Prospect, status: AuthorizationStatus, granted: bool): (r: ReminderState)
    ensures r.Submitted? || r == NotSubmitted
    ensures r.Submitted? <==> status == Authorized || granted
    ensures r.Submitted? ==>
              && r.request.title == "Contact " + prospect.name
              && r.request.subtitle == prospect.emailAddress
              && r.request.defaultSound
              && r.request.trigger.hour == 9
              && !r.request.trigger.repeats
  {
    var s := AfterSettings(prospect, status);
    if s == RequestingAuthorization then AfterAuthorization(prospect, granted) else s
  }

  /** When already authorized, the user is never asked and the answer does not matter. */
  lemma AuthorizedIgnoresAnswer(prospect: Prospect, granted: bool)
    ensures AddNotification(prospect, Authorized, granted) == AddNotification(prospect, Authorized, !granted)
  {
  }

  /** The reminder depends only on the prospect's name and email, not on its contacted flag. */
  lemma RequestIgnoresContacted(p: Prospect, q: Prospect, status: AuthorizationStatus, granted: bool)
    requires p.name == q.name && p.emailAddress == q.emailAddress
    ensures AddNotification(p, status, granted) == AddNotification(q, status, granted)
  {
  }
}
