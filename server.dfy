/**
 * The HTTP routes of server.ts over an in-memory model of its tables.
 * Read-only routes are functions of the table contents; routes that write
 * are methods of `Store`, which holds the tables, the AUTOINCREMENT
 * counters and the clock that stamps `created_at`. The libraries the
 * routes call (jsonwebtoken, bcryptjs, the generative-text client and
 * `JSON.parse`) are the uninterpreted functions of `Oracles`.
 */
module Server {
  import opened Wrappers
  import opened Json
  import opened Seqs
  import opened Text
  import opened Records
  import opened Queries
  import opened Recommendations

  datatype Oracles = Oracles(
    sign: Claims -> string,              // jwt.sign(claims, JWT_SECRET)
    verify: string -> Option<Claims>,    // jwt.verify(token, JWT_SECRET); None when it throws
    hash: string -> string,              // bcrypt.hash(password, 10)
    compare: (string, string) -> bool,   // bcrypt.compare(password, hash)
    generate: AiRequest -> Option<string>,
    parse: string -> Option<Json>)

  /** The `user` object of the signup and login replies; signup sends no role. */
  datatype UserView = UserView(id: nat, email: string, name: string, planType: string, role: Option<string>)

  datatype Body =
    | ErrorBody(error: string)
    | SuccessBody                        // { success: true }
    | StatusOkBody                       // { status: "ok" }
    | ServerErrorBody                    // Express's reply to an exception thrown in a handler
    | AuthBody(token: string, user: UserView)
    | MoodRows(moods: seq<Mood>)
    | ChantRows(chants: seq<Chant>)
    | StatsBody(totalUsers: nat, proUsers: nat, totalMoods: nat, recentUsers: seq<UserSummary>)
    | ReplyBody(reply: Json)

  datatype Response = Response(status: nat, body: Body)

  const Unauthorized := Response(401, ErrorBody("Unauthorized"))
  const InvalidToken := Response(401, ErrorBody("Invalid token"))
  const InvalidCredentials := Response(401, ErrorBody("Invalid credentials"))
  const EmailExists := Response(400, ErrorBody("Email already exists"))
  const Forbidden := Response(403, ErrorBody("Forbidden"))
  const Success := Response(200, SuccessBody)

  // ------------------------------------------------------------ JSON view

  function OptionJson(v: Option<string>): Json {
    match v
    case Some(s) => JStr(s)
    case None => JNull
  }

  function MoodJson(m: Mood): Json {
    JObj([("id", JNum(m.id)), ("user_id", JNum(m.userId)), ("rating", JNum(m.rating)), ("note", JStr(m.note)),
          ("meditation_duration", JNum(m.meditationDuration)), ("frequency", OptionJson(m.frequency)),
          ("created_at", JNum(m.createdAt))])
  }

  function ChantJson(c: Chant): Json {
    JObj([("id", JNum(c.id)), ("title", JStr(c.title)), ("description", JStr(c.description)),
          ("frequency", JStr(c.frequency)), ("audio_url", JStr(c.audioUrl)), ("category", JStr(c.category)),
          ("is_premium", JNum(c.isPremium)), ("created_at", JNum(c.createdAt))])
  }

  function SummaryJson(s: UserSummary): Json {
    JObj([("id", JNum(s.id)), ("name", JStr(s.name)), ("email", JStr(s.email)), ("plan_type", JStr(s.planType)),
          ("created_at", JNum(s.createdAt)), ("is_disabled", JNum(s.isDisabled))])
  }

  function UserViewJson(u: UserView): Json {
    var base := [("id", JNum(u.id)), ("email", JStr(u.email)), ("name", JStr(u.name)), ("plan_type", JStr(u.planType))];
    JObj(if u.role.Some? then base + [("role", JStr(u.role.value))] else base)
  }

  /**
   * The JSON document `res.json` sends for a body. `ServerErrorBody` is the
   * exception: Express answers a throwing handler with its default HTML
   * error page, which the model represents by a fixed placeholder text.
   */
  function BodyJson(b: Body): Json {
    match b
    case ErrorBody(e) => JObj([("error", JStr(e))])
    case SuccessBody => JObj([("success", JBool(true))])
    case StatusOkBody => JObj([("status", JStr("ok"))])
    case ServerErrorBody => JStr("Internal Server Error")
    case AuthBody(t, u) => JObj([("token", JStr(t)), ("user", UserViewJson(u))])
    case MoodRows(ms) => JArr(seq(|ms|, i requires 0 <= i < |ms| => MoodJson(ms[i])))
    case ChantRows(cs) => JArr(seq(|cs|, i requires 0 <= i < |cs| => ChantJson(cs[i])))
    case StatsBody(t, p, m, rs) =>
      JObj([("totalUsers", JNum(t)), ("proUsers", JNum(p)), ("totalMoods", JNum(m)),
            ("recentUsers", JArr(seq(|rs|, i requires 0 <= i < |rs| => SummaryJson(rs[i]))))])
    case ReplyBody(j) => j
  }

  // ---------------------------------------------------- the authenticate guard

  /** `req.headers.authorization?.split(" ")[1]`, absent when undefined or "". */
  function BearerToken(header: Option<string>): (r: Option<string>)
    ensures r.Some? ==> header.Some? && r.value != "" && ' ' !in r.value
    ensures r.Some? ==> |Split(header.value, ' ')| >= 2 && r.value == Split(header.value, ' ')[1]
    ensures header.Some? && |Split(header.value, ' ')| >= 2 && Split(header.value, ' ')[1] != "" ==>
              r == Some(Split(header.value, ' ')[1])
  {
    match header
    case None => None
    case Some(h) =>
      var parts := Split(h, ' ');
      if |parts| >= 2 && parts[1] != "" then Some(parts[1]) else None
  }

  /** The header the client sends, `Bearer ${token}`, yields the token back. */
  lemma BearerTokenOfBearerHeader(token: string)
    requires token != "" && ' ' !in token
    ensures BearerToken(Some("Bearer " + token)) == Some(token)
  {
    assert "Bearer " + token == "Bearer" + [' '] + token;
    SplitAtFirst("Bearer", token, ' ');
    SplitWithoutSeparator(token, ' ');
  }

  /** A header without a space has no second field, so it is rejected. */
  lemma BearerTokenNeedsSpace(header: string)
    requires ' ' !in header
    ensures BearerToken(Some(header)) == None
  {
    SplitWithoutSeparator(header, ' ');
  }

  datatype Guard = Pass(claims: Claims) | Reject(response: Response)

  /** The `authenticate` middleware: 401 without a token or with one that does not verify. */
  function Authenticate(header: Option<string>, verify: string -> Option<Claims>): (g: Guard)
    ensures BearerToken(header).None? ==> g == Reject(Unauthorized)
    ensures BearerToken(header).Some? && verify(BearerToken(header).value).None? ==> g == Reject(InvalidToken)
    ensures g.Pass? <==> BearerToken(header).Some? && verify(BearerToken(header).value).Some?
    ensures g.Pass? ==> g.claims == verify(BearerToken(header).value).value
  {
    match BearerToken(header)
    case None => Reject(Unauthorized)
    case Some(token) =>
      match verify(token)
      case None => Reject(InvalidToken)
      case Some(c) => Pass(c)
  }

  /** `authenticate` followed by the admin routes' `req.user.role !== 'admin'` check. */
  function AdminGuard(header: Option<string>, verify: string -> Option<Claims>): (g: Guard)
    ensures Authenticate(header, verify).Reject? ==> g == Authenticate(header, verify)
    ensures g.Pass? <==> Authenticate(header, verify).Pass? && Authenticate(header, verify).claims.role == "admin"
    ensures Authenticate(header, verify).Pass? && Authenticate(header, verify).claims.role != "admin" ==>
              g == Reject(Forbidden)
    ensures g.Pass? ==> g == Authenticate(header, verify)
  {
    match Authenticate(header, verify)
    case Reject(r) => Reject(r)
    case Pass(c) => if c.role != "admin" then Reject(Forbidden) else Pass(c)
  }

  // --------------------------------------------------- read-only routes

  /** POST /api/auth/login. The `is_disabled` column is never read. */
  function Login(users: seq<User>, body: LoginBody, o: Oracles): (r: Response)
    ensures UserByEmail(users, body.email).None? ==> r == InvalidCredentials
    ensures UserByEmail(users, body.email).Some? && !o.compare(body.password, UserByEmail(users, body.email).value.password) ==>
              r == InvalidCredentials
    ensures r.status == 200 <==>
              UserByEmail(users, body.email).Some? && o.compare(body.password, UserByEmail(users, body.email).value.password)
    ensures r.status == 200 ==>
              var u := UserByEmail(users, body.email).value;
              u in users && u.email == body.email &&
              r.body == AuthBody(o.sign(Claims(u.id, u.email, u.role)), UserView(u.id, u.email, u.name, u.planType, Some(u.role)))
  {
    match UserByEmail(users, body.email)
    case None => InvalidCredentials
    case Some(u) =>
      if !o.compare(body.password, u.password) then InvalidCredentials
      else Response(200, AuthBody(o.sign(Claims(u.id, u.email, u.role)), UserView(u.id, u.email, u.name, u.planType, Some(u.role))))
  }

  /** GET /api/chants: every chant, premium or not, to any authenticated caller. */
  function ListChants(chants: seq<Chant>, header: Option<string>, o: Oracles): (r: Response)
    ensures Authenticate(header, o.verify).Reject? ==> r == Authenticate(header, o.verify).response
    ensures Authenticate(header, o.verify).Pass? ==> r == Response(200, ChantRows(chants))
  {
    match Authenticate(header, o.verify)
    case Reject(resp) => resp
    case Pass(_) => Response(200, ChantRows(chants))
  }

  /** GET /api/moods/history: the caller's 30 newest moods. */
  function MoodHistory(moods: seq<Mood>, header: Option<string>, o: Oracles): (r: Response)
    ensures Authenticate(header, o.verify).Reject? ==> r == Authenticate(header, o.verify).response
    ensures Authenticate(header, o.verify).Pass? ==>
              var uid := Authenticate(header, o.verify).claims.id;
              r.status == 200 && r.body.MoodRows? && |r.body.moods| <= 30 &&
              (forall m :: m in r.body.moods ==> m in moods && m.userId == uid) &&
              r.body.moods == History(moods, uid, 30)
  {
    match Authenticate(header, o.verify)
    case Reject(resp) => resp
    case Pass(c) => Response(200, MoodRows(History(moods, c.id, 30)))
  }

  /**
   * GET /api/ai/recommendation: the reply and the request made to the
   * text-generation service (None when no call is made).
   */
  function Recommendation(moods: seq<Mood>, header: Option<string>, o: Oracles): (r: (Response, Option<AiRequest>))
    ensures Authenticate(header, o.verify).Reject? ==> r == (Authenticate(header, o.verify).response, None)
    ensures Authenticate(header, o.verify).Pass? ==>
              var recent := History(moods, Authenticate(header, o.verify).claims.id, 7);
              r.0.status == 200 && r.0.body == ReplyBody(Recommend(recent, o.generate, o.parse).0)
              && r.1 == Recommend(recent, o.generate, o.parse).1
  {
    match Authenticate(header, o.verify)
    case Reject(resp) => (resp, None)
    case Pass(c) =>
      var outcome := Recommend(History(moods, c.id, 7), o.generate, o.parse);
      (Response(200, ReplyBody(outcome.0)), outcome.1)
  }

  /** GET /api/admin/stats. */
  function AdminStats(users: seq<User>, moods: seq<Mood>, header: Option<string>, o: Oracles): (r: Response)
    ensures AdminGuard(header, o.verify).Reject? ==> r == AdminGuard(header, o.verify).response
    ensures AdminGuard(header, o.verify).Pass? ==>
              r.status == 200 && r.body.StatsBody? &&
              r.body.totalUsers == |users| && r.body.proUsers == ProCount(users) && r.body.proUsers <= |users| &&
              r.body.totalMoods == |moods| && |r.body.recentUsers| <= 10 && r.body.recentUsers == RecentUsers(users)
  {
    match AdminGuard(header, o.verify)
    case Reject(resp) => resp
    case Pass(_) => Response(200, StatsBody(|users|, ProCount(users), |moods|, RecentUsers(users)))
  }

  // ------------------------------------------------------------ the store

  /** The database: the three tables, their AUTOINCREMENT counters and the clock. */
  class Store {
    var users: seq<User>
    var moods: seq<Mood>
    var chants: seq<Chant>
    var nextUserId: nat
    var nextMoodId: nat
    var nextChantId: nat
    var clock: nat

    /**
     * Rows sit in insertion order: ids increase and were drawn from the
     * counters, `created_at` never decreases and is not in the future,
     * e-mails are unique, the BOOLEAN columns hold 0 or 1 and every mood's
     * `user_id` names a user (the FOREIGN KEY of server.ts:44).
     */
    ghost predicate Valid()
      reads this
    {
      && (forall i, j :: 0 <= i < j < |users| ==> users[i].id < users[j].id)
      && UniqueEmails(users)
      && Ascending(users, CreatedAtOfUser)
      && (forall i :: 0 <= i < |users| ==>
            users[i].id < nextUserId && users[i].createdAt <= clock && (users[i].isDisabled == 0 || users[i].isDisabled == 1))
      && (forall i, j :: 0 <= i < j < |moods| ==> moods[i].id < moods[j].id)
      && Ascending(moods, CreatedAtOfMood)
      && (forall i :: 0 <= i < |moods| ==> moods[i].id < nextMoodId && moods[i].createdAt <= clock)
      && (forall i :: 0 <= i < |moods| ==> HasUser(users, moods[i].userId))
      && (forall i, j :: 0 <= i < j < |chants| ==> chants[i].id < chants[j].id && chants[i].createdAt <= chants[j].createdAt)
      && (forall i :: 0 <= i < |chants| ==>
            chants[i].id < nextChantId && chants[i].createdAt <= clock && (chants[i].isPremium == 0 || chants[i].isPremium == 1))
    }

    /** A new database file: empty tables, ids starting at 1. */
    constructor (now: nat)
      ensures Valid()
      ensures users == [] && moods == [] && chants == []
      ensures nextUserId == 1 && nextMoodId == 1 && nextChantId == 1 && clock == now
    {
      users, moods, chants := [], [], [];
      nextUserId, nextMoodId, nextChantId := 1, 1, 1;
      clock := now;
    }

    /** Time passes; CURRENT_TIMESTAMP never goes back. */
    method AdvanceClock(dt: nat)
      requires Valid()
      modifies this
      ensures Valid()
      ensures clock == old(clock) + dt
      ensures users == old(users) && moods == old(moods) && chants == old(chants)
      ensures nextUserId == old(nextUserId) && nextMoodId == old(nextMoodId) && nextChantId == old(nextChantId)
    {
      clock := clock + dt;
    }

    /** The start-up seed: the four chants, only into an empty table. */
    method SeedChants()
      requires Valid()
      modifies this
      ensures Valid()
      ensures |chants| > 0
      ensures old(|chants|) == 0 ==> chants == SeedRows(old(nextChantId), clock) && nextChantId == old(nextChantId) + 4
      ensures old(|chants|) != 0 ==> unchanged(this)
      ensures users == old(users) && moods == old(moods) && clock == old(clock)
      ensures nextUserId == old(nextUserId) && nextMoodId == old(nextMoodId)
    {
      if |chants| == 0 {
        chants := SeedRows(nextChantId, clock);
        nextChantId := nextChantId + 4;
      }
    }

    /** POST /api/auth/signup. A taken e-mail makes the INSERT fail: 400, nothing written. */
    method Signup(body: SignupBody, o: Oracles) returns (resp: Response)
      requires Valid()
      modifies this
      ensures Valid()
      ensures EmailTaken(old(users), body.email) ==> resp == EmailExists && unchanged(this)
      ensures !EmailTaken(old(users), body.email) ==>
                && users == old(users) + [NewUser(old(nextUserId), body.email, o.hash(body.password), body.name, clock)]
                && nextUserId == old(nextUserId) + 1
                && resp == Response(200, AuthBody(o.sign(Claims(old(nextUserId), body.email, "user")),
                                                  UserView(old(nextUserId), body.email, body.name, "FREE", None)))
      ensures moods == old(moods) && chants == old(chants) && clock == old(clock)
      ensures nextMoodId == old(nextMoodId) && nextChantId == old(nextChantId)
    {
      var hashed := o.hash(body.password);
      if EmailTaken(users, body.email) {
        return EmailExists;
      }
      var id := nextUserId;
      var row := NewUser(id, body.email, hashed, body.name, clock);
      forall i | 0 <= i < |moods| ensures HasUser(users + [row], moods[i].userId) {
        HasUserAfterAppend(users, row, moods[i].userId);
      }
      users := users + [row];
      nextUserId := nextUserId + 1;
      resp := Response(200, AuthBody(o.sign(Claims(id, body.email, "user")), UserView(id, body.email, body.name, "FREE", None)));
    }

    /**
     * POST /api/moods: one row for the caller, fields taken as sent (the
     * rating is not range-checked). A verified id that names no user makes
     * the INSERT violate the FOREIGN KEY and throw: 500, nothing written.
     */
    method PostMood(header: Option<string>, body: MoodBody, o: Oracles) returns (resp: Response)
      requires Valid()
      modifies this
      ensures Valid()
      ensures Authenticate(header, o.verify).Reject? ==> resp == Authenticate(header, o.verify).response && unchanged(this)
      ensures Authenticate(header, o.verify).Pass? && !HasUser(old(users), Authenticate(header, o.verify).claims.id) ==>
                resp == Response(500, ServerErrorBody) && unchanged(this)
      ensures Authenticate(header, o.verify).Pass? && HasUser(old(users), Authenticate(header, o.verify).claims.id) ==>
                && resp == Success
                && moods == old(moods) + [Mood(old(nextMoodId), Authenticate(header, o.verify).claims.id, body.rating,
                                               body.note, body.meditationDuration, body.frequency, clock)]
                && nextMoodId == old(nextMoodId) + 1
      ensures users == old(users) && chants == old(chants) && clock == old(clock)
      ensures nextUserId == old(nextUserId) && nextChantId == old(nextChantId)
    {
      var g := Authenticate(header, o.verify);
      if g.Reject? {
        return g.response;
      }
      if !HasUser(users, g.claims.id) {
        return Response(500, ServerErrorBody);
      }
      moods := moods + [Mood(nextMoodId, g.claims.id, body.rating, body.note, body.meditationDuration, body.frequency, clock)];
      nextMoodId := nextMoodId + 1;
      resp := Success;
    }

    /**
     * POST /api/payments/webhook. The secret is read and the signature is
     * never checked; only "subscription.activated" writes, promoting every
     * row whose e-mail is the one in the subscription's notes.
     */
    method Webhook(body: WebhookBody, signature: Option<string>, secret: Option<string>) returns (resp: Response)
      requires Valid()
      modifies this
      ensures Valid()
      ensures body.event != JStr("subscription.activated") ==> resp == Response(200, StatusOkBody) && unchanged(this)
      ensures body.event == JStr("subscription.activated") && body.entity.None? ==>
                resp == Response(500, ServerErrorBody) && unchanged(this)
      ensures body.event == JStr("subscription.activated") && body.entity.Some? ==>
                && resp == Response(200, StatusOkBody)
                && users == Promote(old(users), body.entity.value.notesEmail, body.entity.value.id)
      ensures moods == old(moods) && chants == old(chants) && clock == old(clock)
      ensures nextUserId == old(nextUserId) && nextMoodId == old(nextMoodId) && nextChantId == old(nextChantId)
    {
      if body.event == JStr("subscription.activated") {
        if body.entity.None? {
          return Response(500, ServerErrorBody);
        }
        users := Promote(users, body.entity.value.notesEmail, body.entity.value.id);
      }
      resp := Response(200, StatusOkBody);
    }

    /** POST /api/admin/chants: admins only; `is_premium` is stored as 1 or 0. */
    method AddChant(header: Option<string>, body: ChantBody, o: Oracles) returns (resp: Response)
      requires Valid()
      modifies this
      ensures Valid()
      ensures AdminGuard(header, o.verify).Reject? ==> resp == AdminGuard(header, o.verify).response && unchanged(this)
      ensures AdminGuard(header, o.verify).Pass? ==>
                && resp == Success
                && chants == old(chants) + [Chant(old(nextChantId), body.title, body.description, body.frequency,
                                                  body.audioUrl, body.category, AsFlag(body.isPremium), clock)]
                && nextChantId == old(nextChantId) + 1
      ensures users == old(users) && moods == old(moods) && clock == old(clock)
      ensures nextUserId == old(nextUserId) && nextMoodId == old(nextMoodId)
    {
      var g := AdminGuard(header, o.verify);
      if g.Reject? {
        return g.response;
      }
      chants := chants + [Chant(nextChantId, body.title, body.description, body.frequency,
                                body.audioUrl, body.category, AsFlag(body.isPremium), clock)];
      nextChantId := nextChantId + 1;
      resp := Success;
    }

    /** POST /api/admin/users/toggle-status: admins only; sets the flag of the row with that id to 1 or 0. */
    method ToggleStatus(header: Option<string>, body: ToggleBody, o: Oracles) returns (resp: Response)
      requires Valid()
      modifies this
      ensures Valid()
      ensures AdminGuard(header, o.verify).Reject? ==> resp == AdminGuard(header, o.verify).response && unchanged(this)
      ensures AdminGuard(header, o.verify).Pass? ==>
                resp == Success && users == SetDisabled(old(users), body.userId, AsFlag(body.isDisabled))
      ensures moods == old(moods) && chants == old(chants) && clock == old(clock)
      ensures nextUserId == old(nextUserId) && nextMoodId == old(nextMoodId) && nextChantId == old(nextChantId)
    {
      var g := AdminGuard(header, o.verify);
      if g.Reject? {
        return g.response;
      }
      users := SetDisabled(users, body.userId, AsFlag(body.isDisabled));
      resp := Success;
    }
  }

  // ------------------------------------------------- properties across routes

  /** After a signup, logging in with the same credentials yields the new id, the e-mail and role 'user'. */
  lemma SignupThenLogin(users: seq<User>, id: nat, now: nat, body: SignupBody, o: Oracles)
    requires !EmailTaken(users, body.email)
    requires o.compare(body.password, o.hash(body.password))
    ensures Login(users + [NewUser(id, body.email, o.hash(body.password), body.name, now)], LoginBody(body.email, body.password), o)
            == Response(200, AuthBody(o.sign(Claims(id, body.email, "user")), UserView(id, body.email, body.name, "FREE", Some("user"))))
  {
    UserByEmailAfterInsert(users, NewUser(id, body.email, o.hash(body.password), body.name, now));
  }

  /** The token a signup issues authenticates as the new user, when verification accepts what signing produced. */
  lemma SignupTokenAuthenticates(id: nat, email: string, o: Oracles)
    requires var t := o.sign(Claims(id, email, "user")); t != "" && ' ' !in t && o.verify(t) == Some(Claims(id, email, "user"))
    ensures Authenticate(Some("Bearer " + o.sign(Claims(id, email, "user"))), o.verify) == Pass(Claims(id, email, "user"))
  {
    BearerTokenOfBearerHeader(o.sign(Claims(id, email, "user")));
  }

  /** Two tables that differ at most in `is_disabled`. */
  ghost predicate SameButDisabled(a: seq<User>, b: seq<User>) {
    |a| == |b| && forall i :: 0 <= i < |a| ==> a[i].(isDisabled := 0) == b[i].(isDisabled := 0)
  }

  lemma {:induction false} UserByEmailIgnoresDisabled(a: seq<User>, b: seq<User>, email: string)
    requires SameButDisabled(a, b)
    ensures UserByEmail(a, email).None? <==> UserByEmail(b, email).None?
    ensures UserByEmail(a, email).Some? ==>
              UserByEmail(a, email).value.(isDisabled := 0) == UserByEmail(b, email).value.(isDisabled := 0)
  {
    if |a| > 0 {
      assert a[0].email == a[0].(isDisabled := 0).email;
      assert b[0].email == b[0].(isDisabled := 0).email;
      assert SameButDisabled(a[1..], b[1..]) by {
        forall i | 0 <= i < |a[1..]| ensures a[1..][i].(isDisabled := 0) == b[1..][i].(isDisabled := 0) {
          assert a[1..][i] == a[i + 1] && b[1..][i] == b[i + 1];
        }
      }
      UserByEmailIgnoresDisabled(a[1..], b[1..], email);
    }
  }

  /** Login never consults `is_disabled`: a disabled user still logs in. */
  lemma LoginIgnoresDisabled(users: seq<User>, id: int, flag: int, body: LoginBody, o: Oracles)
    ensures Login(SetDisabled(users, id, flag), body, o) == Login(users, body, o)
  {
    var toggled := SetDisabled(users, id, flag);
    assert SameButDisabled(toggled, users);
    UserByEmailIgnoresDisabled(toggled, users, body.email);
    var u, v := UserByEmail(toggled, body.email), UserByEmail(users, body.email);
    if u.Some? {
      assert u.value.(isDisabled := 0).password == u.value.password;
      assert v.value.(isDisabled := 0).password == v.value.password;
    }
  }

  /** After the webhook promotes an e-mail, that user's login reports plan PRO. */
  lemma WebhookThenLogin(users: seq<User>, i: nat, subId: string, password: string, o: Oracles)
    requires UniqueEmails(users)
    requires i < |users|
    requires o.compare(password, users[i].password)
    ensures var r := Login(Promote(users, users[i].email, subId), LoginBody(users[i].email, password), o);
            r.status == 200 && r.body.AuthBody? && r.body.user.planType == "PRO" && r.body.user.id == users[i].id
  {
    var promoted := Promote(users, users[i].email, subId);
    assert UniqueEmails(promoted) by {
      forall a, b | 0 <= a < b < |promoted| ensures promoted[a].email != promoted[b].email {
        assert promoted[a].email == users[a].email && promoted[b].email == users[b].email;
      }
    }
    assert promoted[i] == PromoteRow(users[i], subId);
    UserByEmailFindsRow(promoted, i);
  }
}
