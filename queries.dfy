/**
 * The SQL statements of server.ts as functions on the table contents.
 * Tables are sequences in insertion (rowid) order; `created_at` never
 * decreases along them, so `ORDER BY created_at DESC` is `Seqs.Newest`.
 */
module Queries {
  import opened Wrappers
  import opened Seqs
  import opened Records

  // ---------------------------------------------------------------- moods

  /** `WHERE user_id = ?` on `moods`, keeping table order. */
  function OfUser(moods: seq<Mood>, uid: nat): (r: seq<Mood>)
    ensures |r| <= |moods|
    ensures forall m :: m in r <==> m in moods && m.userId == uid
  {
    if |moods| == 0 then []
    else
      var init, last := moods[..|moods| - 1], moods[|moods| - 1];
      assert moods == init + [last];
      if last.userId == uid then OfUser(init, uid) + [last] else OfUser(init, uid)
  }

  /** The filter keeps each of the user's rows as often as the table holds it, and drops all others. */
  lemma {:induction false} OfUserCounts(moods: seq<Mood>, uid: nat)
    ensures forall m :: multiset(OfUser(moods, uid))[m] == if m.userId == uid then multiset(moods)[m] else 0
  {
    if |moods| > 0 {
      var init, last := moods[..|moods| - 1], moods[|moods| - 1];
      assert moods == init + [last];
      assert multiset(moods) == multiset(init) + multiset{last};
      OfUserCounts(init, uid);
    }
  }

  /** `SELECT * FROM moods WHERE user_id = ? ORDER BY created_at DESC LIMIT n`. */
  function History(moods: seq<Mood>, uid: nat, limit: nat): (r: seq<Mood>)
    ensures |r| <= limit
    ensures |r| == Min(limit, |OfUser(moods, uid)|)
    ensures forall m :: m in r ==> m in moods && m.userId == uid
    ensures forall k :: 0 <= k < |r| ==> r[k] == OfUser(moods, uid)[|OfUser(moods, uid)| - 1 - k]
  {
    Newest(OfUser(moods, uid), limit)
  }

  /** Filtering keeps a chronological table chronological. */
  lemma {:induction false} OfUserAscending(moods: seq<Mood>, uid: nat)
    requires Ascending(moods, CreatedAtOfMood)
    ensures Ascending(OfUser(moods, uid), CreatedAtOfMood)
  {
    if |moods| > 0 {
      var init, last := moods[..|moods| - 1], moods[|moods| - 1];
      assert Ascending(init, CreatedAtOfMood) by {
        forall i, j | 0 <= i < j < |init| ensures init[i].createdAt <= init[j].createdAt {
          assert init[i] == moods[i] && init[j] == moods[j];
        }
      }
      OfUserAscending(init, uid);
      var r := OfUser(init, uid);
      if last.userId == uid {
        forall k | 0 <= k < |r| ensures r[k].createdAt <= last.createdAt {
          assert r[k] in init;
          var j :| 0 <= j < |init| && init[j] == r[k];
          assert moods[j] == init[j];
        }
        assert OfUser(moods, uid) == r + [last];
      }
    }
  }

  /** History rows come newest first. */
  lemma HistoryNewestFirst(moods: seq<Mood>, uid: nat, limit: nat)
    requires Ascending(moods, CreatedAtOfMood)
    ensures Descending(History(moods, uid, limit), CreatedAtOfMood)
  {
    OfUserAscending(moods, uid);
    NewestIsDescending(OfUser(moods, uid), limit, CreatedAtOfMood);
  }

  /** No row of the user that History leaves out is newer than one it returns. */
  lemma HistoryKeepsNewest(moods: seq<Mood>, uid: nat, limit: nat)
    requires Ascending(moods, CreatedAtOfMood)
    ensures forall m :: m in moods && m.userId == uid && m !in History(moods, uid, limit) ==>
              forall k :: 0 <= k < |History(moods, uid, limit)| ==>
                m.createdAt <= History(moods, uid, limit)[k].createdAt
  {
    OfUserAscending(moods, uid);
    NewestKeepsNewest(OfUser(moods, uid), limit, CreatedAtOfMood);
  }

  /** A user with at most `limit` moods gets all of them. */
  lemma HistoryIsComplete(moods: seq<Mood>, uid: nat, limit: nat)
    requires |OfUser(moods, uid)| <= limit
    ensures forall m :: m in moods && m.userId == uid ==> m in History(moods, uid, limit)
  {
    NewestIsComplete(OfUser(moods, uid), limit);
  }

  /** Another user's mood does not change a user's history. */
  lemma HistoryIgnoresOthers(moods: seq<Mood>, m: Mood, uid: nat, limit: nat)
    requires m.userId != uid
    ensures History(moods + [m], uid, limit) == History(moods, uid, limit)
  {
    assert (moods + [m])[..|moods|] == moods;
  }

  /**
   * A mood strictly newer than the user's earlier ones is the first row of
   * their history, and every other row returned is older, so no order of
   * ties can put another row first.
   */
  lemma HistoryStartsWithLatest(moods: seq<Mood>, m: Mood, limit: nat)
    requires limit >= 1
    requires forall k :: 0 <= k < |moods| && moods[k].userId == m.userId ==> moods[k].createdAt < m.createdAt
    ensures History(moods + [m], m.userId, limit)[0] == m
    ensures var h := History(moods + [m], m.userId, limit);
            forall k :: 1 <= k < |h| ==> h[k].createdAt < m.createdAt
  {
    assert (moods + [m])[..|moods|] == moods;
    var earlier := OfUser(moods, m.userId);
    forall y | y in earlier ensures CreatedAtOfMood(y) < CreatedAtOfMood(m) {
      var k :| 0 <= k < |moods| && moods[k] == y;
    }
    NewestAfterAppend(earlier, m, limit, CreatedAtOfMood);
  }

  // ---------------------------------------------------------------- users

  predicate EmailTaken(users: seq<User>, email: string) {
    exists i :: 0 <= i < |users| && users[i].email == email
  }

  /** `SELECT * FROM users WHERE email = ?` with `.get()`: the first match. */
  function UserByEmail(users: seq<User>, email: string): (r: Option<User>)
    ensures r.Some? ==> r.value in users && r.value.email == email
    ensures r.None? <==> !EmailTaken(users, email)
  {
    if |users| == 0 then None
    else if users[0].email == email then Some(users[0])
    else
      var r := UserByEmail(users[1..], email);
      assert EmailTaken(users, email) ==> EmailTaken(users[1..], email) by {
        if EmailTaken(users, email) {
          var i :| 0 <= i < |users| && users[i].email == email;
          assert users[1..][i - 1] == users[i];
        }
      }
      r
  }

  /** A row appended with an unused e-mail is what a lookup of that e-mail finds. */
  lemma {:induction false} UserByEmailAfterInsert(users: seq<User>, u: User)
    requires !EmailTaken(users, u.email)
    ensures UserByEmail(users + [u], u.email) == Some(u)
  {
    if |users| > 0 {
      assert (users + [u])[1..] == users[1..] + [u];
      forall i | 0 <= i < |users[1..]| ensures users[1..][i].email != u.email {
        assert users[1..][i] == users[i + 1];
      }
      UserByEmailAfterInsert(users[1..], u);
    }
  }

  /** Some row of `users` has this id: what `REFERENCES users(id)` demands of a mood. */
  predicate HasUser(users: seq<User>, id: nat) {
    exists i :: 0 <= i < |users| && users[i].id == id
  }

  /** Inserting a user keeps every existing id present. */
  lemma HasUserAfterAppend(users: seq<User>, u: User, id: nat)
    requires HasUser(users, id)
    ensures HasUser(users + [u], id)
  {
    var i :| 0 <= i < |users| && users[i].id == id;
    assert (users + [u])[i] == users[i];
  }

  /** E-mails are unique (the UNIQUE constraint on `users.email`). */
  ghost predicate UniqueEmails(users: seq<User>) {
    forall i, j :: 0 <= i < j < |users| ==> users[i].email != users[j].email
  }

  /** With unique e-mails the lookup finds the one row holding the e-mail. */
  lemma {:induction false} UserByEmailFindsRow(users: seq<User>, i: nat)
    requires UniqueEmails(users)
    requires i < |users|
    ensures UserByEmail(users, users[i].email) == Some(users[i])
  {
    if i > 0 {
      assert users[0].email != users[i].email;
      assert UniqueEmails(users[1..]) by {
        forall a, b | 0 <= a < b < |users[1..]| ensures users[1..][a].email != users[1..][b].email {
          assert users[1..][a] == users[a + 1] && users[1..][b] == users[b + 1];
        }
      }
      UserByEmailFindsRow(users[1..], i - 1);
    }
  }

  /** `SELECT COUNT(*) FROM users WHERE plan_type = 'PRO'`. */
  function ProCount(users: seq<User>): (r: nat)
    ensures r <= |users|
    ensures r == |set i | 0 <= i < |users| && users[i].planType == "PRO"|
  {
    if |users| == 0 then 0
    else
      var init, last := users[..|users| - 1], users[|users| - 1];
      assert forall i :: 0 <= i < |init| ==> init[i] == users[i];
      assert (set i | 0 <= i < |users| && users[i].planType == "PRO")
          == (set i | 0 <= i < |init| && init[i].planType == "PRO") + (if last.planType == "PRO" then {|init|} else {});
      ProCount(init) + (if last.planType == "PRO" then 1 else 0)
  }

  /** A signup row (plan FREE) leaves the PRO count unchanged. */
  lemma ProCountAfterSignup(users: seq<User>, id: nat, email: string, hashed: string, name: string, now: nat)
    ensures ProCount(users + [NewUser(id, email, hashed, name, now)]) == ProCount(users)
    ensures |users + [NewUser(id, email, hashed, name, now)]| == |users| + 1
  {
    assert (users + [NewUser(id, email, hashed, name, now)])[..|users|] == users;
  }

  /** The row `UPDATE users SET plan_type = 'PRO', subscription_status = 'active', razorpay_subscription_id = ?` makes. */
  function PromoteRow(u: User, subId: string): (v: User)
    ensures v.id == u.id && v.email == u.email && v.createdAt == u.createdAt && v.isDisabled == u.isDisabled
    ensures v.planType == "PRO" && v.subscriptionStatus == "active" && v.razorpaySubscriptionId == Some(subId)
    ensures v.(planType := u.planType, subscriptionStatus := u.subscriptionStatus, razorpaySubscriptionId := u.razorpaySubscriptionId) == u
  {
    u.(planType := "PRO", subscriptionStatus := "active", razorpaySubscriptionId := Some(subId))
  }

  /** That UPDATE `WHERE email = ?`: every row with the e-mail, and no other. */
  function Promote(users: seq<User>, email: string, subId: string): (r: seq<User>)
    ensures |r| == |users|
    ensures forall i :: 0 <= i < |r| && users[i].email == email ==>
              r[i].planType == "PRO" && r[i].subscriptionStatus == "active" && r[i].razorpaySubscriptionId == Some(subId) &&
              r[i].id == users[i].id && r[i].email == email && r[i].createdAt == users[i].createdAt &&
              r[i].(planType := users[i].planType, subscriptionStatus := users[i].subscriptionStatus,
                    razorpaySubscriptionId := users[i].razorpaySubscriptionId) == users[i]
    ensures forall i :: 0 <= i < |r| && users[i].email != email ==> r[i] == users[i]
  {
    seq(|users|, i requires 0 <= i < |users| => if users[i].email == email then PromoteRow(users[i], subId) else users[i])
  }

  /** Repeating the same promotion changes nothing more. */
  lemma PromoteIdempotent(users: seq<User>, email: string, subId: string)
    ensures Promote(Promote(users, email, subId), email, subId) == Promote(users, email, subId)
  {
  }

  /** After promotion the PRO rows are exactly the rows that were PRO or carry the e-mail. */
  lemma PromoteProCount(users: seq<User>, email: string, subId: string)
    ensures ProCount(Promote(users, email, subId))
         == |set i | 0 <= i < |users| && (users[i].planType == "PRO" || users[i].email == email)|
  {
    var r := Promote(users, email, subId);
    assert (set i | 0 <= i < |r| && r[i].planType == "PRO")
        == (set i | 0 <= i < |users| && (users[i].planType == "PRO" || users[i].email == email));
  }

  /** Promotion never demotes: the PRO count does not decrease. */
  lemma {:induction false} PromoteKeepsPro(users: seq<User>, email: string, subId: string)
    ensures ProCount(Promote(users, email, subId)) >= ProCount(users)
  {
    if |users| > 0 {
      var init := users[..|users| - 1];
      assert Promote(users, email, subId)[..|users| - 1] == Promote(init, email, subId);
      PromoteKeepsPro(init, email, subId);
    }
  }

  /** `UPDATE users SET is_disabled = ? WHERE id = ?`. */
  function SetDisabled(users: seq<User>, id: int, flag: int): (r: seq<User>)
    ensures |r| == |users|
    ensures forall i :: 0 <= i < |r| && users[i].id == id ==> r[i].isDisabled == flag && r[i].(isDisabled := 0) == users[i].(isDisabled := 0)
    ensures forall i :: 0 <= i < |r| && users[i].id != id ==> r[i] == users[i]
  {
    seq(|users|, i requires 0 <= i < |users| => if users[i].id == id then users[i].(isDisabled := flag) else users[i])
  }

  /** Setting the same value twice is setting it once. */
  lemma SetDisabledIdempotent(users: seq<User>, id: int, flag: int)
    ensures SetDisabled(SetDisabled(users, id, flag), id, flag) == SetDisabled(users, id, flag)
  {
  }

  /** Ids are unique (the primary key). */
  ghost predicate UniqueIds(users: seq<User>) {
    forall i, j :: 0 <= i < j < |users| ==> users[i].id != users[j].id
  }

  /**
   * The admin panel's toggle sends the negation of the row's flag; doing so
   * twice restores the table (the flag of an existing row is 0 or 1).
   */
  lemma ToggleTwiceRestores(users: seq<User>, i: nat)
    requires UniqueIds(users)
    requires i < |users| && (users[i].isDisabled == 0 || users[i].isDisabled == 1)
    ensures SetDisabled(SetDisabled(users, users[i].id, 1 - users[i].isDisabled), users[i].id, users[i].isDisabled) == users
  {
    var once := SetDisabled(users, users[i].id, 1 - users[i].isDisabled);
    var twice := SetDisabled(once, users[i].id, users[i].isDisabled);
    forall k | 0 <= k < |users| ensures twice[k] == users[k] {
      if k != i {
        assert users[k].id != users[i].id;
      }
    }
  }

  /** The columns `SELECT id, name, email, plan_type, created_at, is_disabled` projects: no password. */
  datatype UserSummary = UserSummary(id: nat, name: string, email: string, planType: string, createdAt: nat, isDisabled: int)

  function Summary(u: User): (s: UserSummary)
    ensures s.id == u.id && s.email == u.email && s.createdAt == u.createdAt
    ensures s.name == u.name && s.planType == u.planType && s.isDisabled == u.isDisabled
  {
    UserSummary(u.id, u.name, u.email, u.planType, u.createdAt, u.isDisabled)
  }

  function CreatedAtOfSummary(s: UserSummary): int { s.createdAt }

  /** `... FROM users ORDER BY created_at DESC LIMIT 10`. */
  function RecentUsers(users: seq<User>): (r: seq<UserSummary>)
    ensures |r| == Min(10, |users|)
    ensures forall k :: 0 <= k < |r| ==> r[k] == Summary(users[|users| - 1 - k])
  {
    var newest := Newest(users, 10);
    seq(|newest|, i requires 0 <= i < |newest| => Summary(newest[i]))
  }

  /** The admin listing is newest first and omits nobody newer than a listed user. */
  lemma RecentUsersNewestFirst(users: seq<User>)
    requires Ascending(users, CreatedAtOfUser)
    ensures Descending(RecentUsers(users), CreatedAtOfSummary)
    ensures forall u :: u in users && Summary(u) !in RecentUsers(users) ==>
              forall k :: 0 <= k < |RecentUsers(users)| ==> u.createdAt <= RecentUsers(users)[k].createdAt
  {
    var newest := Newest(users, 10);
    var r := RecentUsers(users);
    NewestIsDescending(users, 10, CreatedAtOfUser);
    NewestKeepsNewest(users, 10, CreatedAtOfUser);
    forall u | u in users && Summary(u) !in r
      ensures forall k :: 0 <= k < |r| ==> u.createdAt <= r[k].createdAt
    {
      forall k | 0 <= k < |newest| ensures newest[k] != u {
        assert r[k] == Summary(newest[k]);
      }
    }
  }

  // --------------------------------------------------------------- chants

  /** The four chants inserted when the table is empty (server.ts:72-75). */
  function SeedRows(firstId: nat, now: nat): (r: seq<Chant>)
    ensures |r| == 4
    ensures forall i :: 0 <= i < 4 ==> r[i].id == firstId + i && r[i].createdAt == now
    ensures forall i :: 0 <= i < 4 ==> r[i].isPremium == (if i < 2 then 0 else 1)
  {
    [ Chant(firstId, "Morning OM", "Start your day with universal vibration.", "432Hz",
            "https://www.soundhelix.com/examples/mp3/SoundHelix-Song-1.mp3", "Morning", 0, now),
      Chant(firstId + 1, "Deep Sleep Delta", "Enter deep restorative sleep.", "3.5Hz",
            "https://www.soundhelix.com/examples/mp3/SoundHelix-Song-2.mp3", "Sleep", 0, now),
      Chant(firstId + 2, "Anxiety Release", "Calm your nervous system.", "528Hz",
            "https://www.soundhelix.com/examples/mp3/SoundHelix-Song-3.mp3", "Calm", 1, now),
      Chant(firstId + 3, "Third Eye Opening", "Enhance intuition and clarity.", "852Hz",
            "https://www.soundhelix.com/examples/mp3/SoundHelix-Song-4.mp3", "Spiritual", 1, now) ]
  }
}
