/**
 * Small display helpers (lib/utils/helpers.ts): choosing the singular or
 * plural form of a word, and the notification record. Counts are whole
 * numbers here.
 */
module Helpers {
  import opened Wrappers
  import opened Js

  /** `pluralize(count, singular, plural?)`: the singular up to one, then
      the given plural form, or the singular with an "s" when no non-empty
      plural is given. */
  function Pluralize(count: int, singular: string, plural: Option<string>): (word: string)
    ensures count <= 1 ==> word == singular
    ensures count > 1 && TruthyString(plural) ==> word == plural.value
    ensures count > 1 && !TruthyString(plural) ==> word == singular + "s"
  {
    if count <= 1 then singular else OrString(plural, Some(singular + "s")).value
  }

  /** The word only depends on whether the count is above one. */
  lemma PluralizeTwoForms(m: int, n: int, singular: string, plural: Option<string>)
    requires (m <= 1) == (n <= 1)
    ensures Pluralize(m, singular, plural) == Pluralize(n, singular, plural)
  {
  }

  datatype NotificationType = Success | Error | Info

  datatype Notification = Notification(message: string, kind: NotificationType)

  /** `showNotification`: the message and the type, 'info' by default; the
      duration is accepted and ignored. */
  function ShowNotification(message: string, kind: Option<NotificationType>, duration: Option<int>): (n: Notification)
    ensures n.message == message
    ensures kind.Some? ==> n.kind == kind.value
    ensures kind.None? ==> n.kind == Info
  {
    Notification(message, kind.GetOr(Info))
  }

  /** The duration never changes the notification. */
  lemma NotificationIgnoresDuration(message: string, kind: Option<NotificationType>, d: Option<int>, e: Option<int>)
    ensures ShowNotification(message, kind, d) == ShowNotification(message, kind, e)
  {
  }
}
