/** The subscription record returned by the billing API, reduced to the
    fields that the credit engine reads. */
module Types {
  import opened JsValues

  /** The plan type that has no reset cycle. */
  const PayPerUse: string := "PAY_PER_USE"

  datatype SubscriptionPlan = SubscriptionPlan(creditLimit: Num, planType: string)

  datatype Subscription = Subscription(
    isActive: bool,
    currentCredits: Num,
    resetTimes: Num,
    subscriptionPlan: SubscriptionPlan)
}
