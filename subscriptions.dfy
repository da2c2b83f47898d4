/** A provider's subscription plan and whether it is currently running. */
module Subscriptions {

  /** The fields `is_active` reads; `endDate` is a day number. */
  datatype Subscription = Subscription(status: string, endDate: int)

  /** `Subscription.is_active` on day `today`. */
  predicate IsActive(s: Subscription, today: int) {
    s.status == "active" && s.endDate >= today
  }

  /**
   * Active exactly when the status is `active` and the end date is not past: the last day still
   * counts, the day after does not, and no other status is ever active.
   */
  lemma IsActiveCases(s: Subscription, today: int)
    ensures IsActive(s, today) <==> s.status == "active" && today <= s.endDate
    ensures s.status == "active" ==> IsActive(s.(endDate := today), today)
    ensures s.status == "active" ==> !IsActive(s.(endDate := today - 1), today)
    ensures s.status != "active" ==> !IsActive(s, today)
  {
  }

  /** A subscription active today was active on every earlier day. */
  lemma ActiveEarlier(s: Subscription, today: int, earlier: int)
    requires IsActive(s, today) && earlier <= today
    ensures IsActive(s, earlier)
  {
  }
}
