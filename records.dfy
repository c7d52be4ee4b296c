/**
 * The rows of the `users`, `moods` and `chants` tables (server.ts:20-56),
 * the request bodies the routes read, and the claims a session token
 * carries. SQL NULL is `None`; the BOOLEAN columns hold the integers 0/1.
 */
module Records {
  import opened Wrappers
  import opened Json

  datatype User = User(
    id: nat,
    email: string,
    password: string,         // the bcrypt hash, never the raw password
    name: string,
    role: string,             // 'user' by default; 'admin' is set outside the app
    planType: string,         // 'FREE' or 'PRO'
    subscriptionStatus: string,
    razorpayCustomerId: Option<string>,
    razorpaySubscriptionId: Option<string>,
    expiryDate: Option<string>,
    createdAt: nat,
    isDisabled: int)

  datatype Mood = Mood(
    id: nat,
    userId: nat,
    rating: int,
    note: string,
    meditationDuration: int,
    frequency: Option<string>,
    createdAt: nat)

  datatype Chant = Chant(
    id: nat,
    title: string,
    description: string,
    frequency: string,
    audioUrl: string,
    category: string,
    isPremium: int,
    createdAt: nat)

  /** The payload of a session token: what `jwt.sign` is given and `jwt.verify` returns. */
  datatype Claims = Claims(id: nat, email: string, role: string)

  /** The row that `INSERT INTO users (email, password, name)` creates, with the column defaults. */
  function NewUser(id: nat, email: string, hashed: string, name: string, now: nat): (u: User)
    ensures u.id == id && u.email == email && u.password == hashed && u.name == name && u.createdAt == now
    ensures u.role == "user" && u.planType == "FREE" && u.subscriptionStatus == "inactive" && u.isDisabled == 0
    ensures u.razorpayCustomerId.None? && u.razorpaySubscriptionId.None? && u.expiryDate.None?
  {
    User(id, email, hashed, name, "user", "FREE", "inactive", None, None, None, now, 0)
  }

  /** Bodies of the requests the routes read (`req.body`). */
  datatype SignupBody = SignupBody(email: string, password: string, name: string)
  datatype LoginBody = LoginBody(email: string, password: string)
  datatype MoodBody = MoodBody(rating: int, note: string, meditationDuration: int, frequency: Option<string>)
  datatype ChantBody = ChantBody(
    title: string, description: string, frequency: string,
    audioUrl: string, category: string, isPremium: Json)
  datatype ToggleBody = ToggleBody(userId: int, isDisabled: Json)

  /** `payload.subscription.entity`: the subscription id and the e-mail in its notes. */
  datatype SubscriptionEntity = SubscriptionEntity(id: string, notesEmail: string)
  /** A webhook body; `entity` is None when the payload lacks `subscription.entity.notes`. */
  datatype WebhookBody = WebhookBody(event: Json, entity: Option<SubscriptionEntity>)

  function CreatedAtOfUser(u: User): int { u.createdAt }
  function CreatedAtOfMood(m: Mood): int { m.createdAt }
}
