/** The backend's users table row and subscription tiers. */
module UserModels {
  import opened Wrappers

  datatype SubscriptionTier = FREE | PRO

  /** The enum's stored value. */
  function TierName(t: SubscriptionTier): (name: string)
    ensures name == "FREE" <==> t == FREE
    ensures name == "PRO" <==> t == PRO
  {
    match t
    case FREE => "FREE"
    case PRO => "PRO"
  }

  /** The tier a new row gets when none is given. */
  const DefaultTier: SubscriptionTier := FREE

  /** A row of `users`; the creation timestamp is not modelled. */
  datatype User = User(id: int, firebaseUid: string, email: string, subscriptionTier: SubscriptionTier)
}
