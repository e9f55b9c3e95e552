/** The application handlers' logic: finding the submitting user, the initial
    application, the seller's own view, and the admin listing. */
module ApplicationRoutes {
  import opened Common
  import opened Records

  predicate HasId(id: Id, u: User) { u.id == id }
  predicate HasEmail(email: string, u: User) { u.email == email }

  /** The user a submission is filed under: with a session, the user with the
      session's id; without one, the user with the submitted email. */
  function SubmittingUser(users: seq<User>, session: Session, email: string): (r: Option<User>)
    ensures r.Some? ==> r.value in users
    ensures session.Some? ==> (r.Some? <==> exists k :: 0 <= k < |users| && users[k].id == session.value.userId)
    ensures session.Some? && r.Some? ==> r.value.id == session.value.userId
    ensures session.None? ==> (r.Some? <==> exists k :: 0 <= k < |users| && users[k].email == email)
    ensures session.None? && r.Some? ==> r.value.email == email
  {
    if session.Some? then
      var r := FirstWith((u: User) => HasId(session.value.userId, u), users);
      assert r.None? <==> forall k :: 0 <= k < |users| ==> !HasId(session.value.userId, users[k]);
      r
    else
      var r := FirstWith((u: User) => HasEmail(email, u), users);
      assert r.None? <==> forall k :: 0 <= k < |users| ==> !HasEmail(email, users[k]);
      r
  }

  /** Looking a user up by email after a user with that email was appended:
      an earlier match still wins, otherwise the new user is found. */
  lemma EmailLookupSnoc(users: seq<User>, email: string, u: User)
    requires u.email == email
    ensures var before := SubmittingUser(users, None, email);
      SubmittingUser(users + [u], None, email) == if before.Some? then before else Some(u)
  {
    var s := users + [u];
    var p := (v: User) => HasEmail(email, v);
    var before := FirstWith(p, users);
    var after := FirstWith(p, s);
    assert p(s[|users|]);
    var k2 :| 0 <= k2 < |s| && s[k2] == after.value && p(s[k2]) && forall j :: 0 <= j < k2 ==> !p(s[j]);
    assert forall j :: 0 <= j < |users| ==> s[j] == users[j];
    if before.Some? {
      var k1 :| 0 <= k1 < |users| && users[k1] == before.value && p(users[k1]) && forall j :: 0 <= j < k1 ==> !p(users[j]);
      assert k2 == k1;
    } else {
      assert k2 == |users|;
    }
  }

  /** The application a submission starts: status "submitted" and a one-entry
      timeline. */
  function NewApplication(id: Id, owner: Id, profileId: Id, now: int): Application {
    Application(id, owner, profileId, "submitted", None,
                [TimelineEntry("submitted", now, "Application submitted")], now)
  }

  /** A new application is submitted, unreviewed, and its timeline has exactly
      one entry, "submitted" with the message "Application submitted". */
  lemma NewApplicationShape(id: Id, owner: Id, profileId: Id, now: int)
    ensures var a := NewApplication(id, owner, profileId, now);
      && a.id == id && a.userId == owner && a.profileId == profileId
      && a.status == "submitted" && a.reviewerId.None?
      && |a.timeline| == 1
      && a.timeline[0].status == a.status
      && a.timeline[0].message == "Application submitted"
      && a.timeline[0].timestamp == now
  {
  }

  predicate OwnedBy(owner: Id, a: Application) { a.userId == owner }
  predicate OfApplication(appId: Id, m: AppMessage) { m.applicationId == appId }
  predicate ProfileWithId(id: Id, p: Profile) { p.id == id }

  /** `GET /api/applications`: the application with its profile and its
      messages, newest first. */
  datatype ApplicationView = ApplicationView(application: Application, profile: Option<Profile>, messages: seq<AppMessage>)

  /** The messages of one application, newest first. */
  function Thread(messages: seq<AppMessage>, appId: Id): (r: seq<AppMessage>)
    ensures SortedDesc(MessageTime, r)
    ensures forall k :: 0 <= k < |r| ==> r[k] in messages && r[k].applicationId == appId
    ensures forall k :: 0 <= k < |messages| && messages[k].applicationId == appId ==> messages[k] in r
  {
    var mine := Filter((m: AppMessage) => OfApplication(appId, m), messages);
    var sorted := SortDesc(MessageTime, mine);
    forall k | 0 <= k < |sorted| ensures sorted[k] in mine {
      assert sorted[k] in multiset(mine);
    }
    forall k | 0 <= k < |messages| && messages[k].applicationId == appId ensures messages[k] in sorted {
      assert OfApplication(appId, messages[k]);
      assert messages[k] in multiset(mine);
    }
    sorted
  }

  function OwnApplication(apps: seq<Application>, profiles: seq<Profile>, messages: seq<AppMessage>, owner: Id): (r: Option<ApplicationView>)
    ensures r.None? <==> forall k :: 0 <= k < |apps| ==> apps[k].userId != owner
    ensures r.Some? ==> r.value.application in apps && r.value.application.userId == owner
    ensures r.Some? ==> r.value.messages == Thread(messages, r.value.application.id)
    ensures r.Some? && r.value.profile.Some? ==>
      r.value.profile.value.id == r.value.application.profileId && r.value.profile.value in profiles
    ensures r.Some? ==>
      (r.value.profile.None? <==> forall k :: 0 <= k < |profiles| ==> profiles[k].id != r.value.application.profileId)
  {
    var a := FirstWith((x: Application) => OwnedBy(owner, x), apps);
    assert a.None? <==> forall k :: 0 <= k < |apps| ==> !OwnedBy(owner, apps[k]);
    if a.None? then None
    else
      var profileId := a.value.profileId;
      var p := FirstWith((x: Profile) => ProfileWithId(profileId, x), profiles);
      assert p.None? <==> forall k :: 0 <= k < |profiles| ==> !ProfileWithId(profileId, profiles[k]);
      Some(ApplicationView(a.value, p, Thread(messages, a.value.id)))
  }

  /** A row of the admin listing: the application, its profile and its
      owner's email. */
  datatype AdminRow = AdminRow(application: Application, profile: Option<Profile>, email: Option<string>)

  predicate IsAdmin(session: Session) { session.Some? && session.value.role == "admin" }

  function AdminRowOf(a: Application, profiles: seq<Profile>, users: seq<User>): (row: AdminRow)
    ensures row.application == a
    ensures row.profile.Some? ==> row.profile.value.id == a.profileId && row.profile.value in profiles
    ensures row.profile.None? <==> forall k :: 0 <= k < |profiles| ==> profiles[k].id != a.profileId
    ensures row.email.Some? ==> exists u :: u in users && u.id == a.userId && u.email == row.email.value
    ensures row.email.None? <==> forall k :: 0 <= k < |users| ==> users[k].id != a.userId
  {
    var u := FirstWith((x: User) => HasId(a.userId, x), users);
    assert u.None? <==> forall k :: 0 <= k < |users| ==> !HasId(a.userId, users[k]);
    var p := FirstWith((x: Profile) => ProfileWithId(a.profileId, x), profiles);
    assert p.None? <==> forall k :: 0 <= k < |profiles| ==> !ProfileWithId(a.profileId, profiles[k]);
    assert u.Some? ==> exists v :: v in users && v.id == a.userId && v.email == u.value.email by {
      if u.Some? {
        var m :| 0 <= m < |users| && users[m] == u.value && HasId(a.userId, users[m]);
        assert users[m] in users;
      }
    }
    AdminRow(a, p, if u.Some? then Some(u.value.email) else None)
  }

  /** `GET /api/admin/applications`: 401 unless the caller is an admin;
      otherwise every application, newest first, with profile and email. */
  function AdminListing(session: Session, apps: seq<Application>, profiles: seq<Profile>, users: seq<User>): Reply<seq<AdminRow>> {
    if !IsAdmin(session) then Fail(401, "Unauthorized")
    else Ok(MapSeq((a: Application) => AdminRowOf(a, profiles, users), SortDesc(ApplicationTime, apps)))
  }

  /** Only an admin is answered, and an admin gets every application whoever
      owns it, newest first, each with its own profile and its owner's
      email. */
  lemma AdminListingSpec(session: Session, apps: seq<Application>, profiles: seq<Profile>, users: seq<User>)
    ensures AdminListing(session, apps, profiles, users).Ok? <==> IsAdmin(session)
    ensures !IsAdmin(session) ==> AdminListing(session, apps, profiles, users).code == 401
    ensures IsAdmin(session) ==>
      var rows := AdminListing(session, apps, profiles, users).value;
      var s := SortDesc(ApplicationTime, apps);
      && |rows| == |apps|
      && multiset(s) == multiset(apps)
      && (forall k :: 0 <= k < |rows| ==> rows[k].application == s[k])
      && (forall i, j :: 0 <= i < j < |rows| ==> rows[i].application.createdAt >= rows[j].application.createdAt)
      && (forall k :: 0 <= k < |rows| && rows[k].profile.Some? ==>
            rows[k].profile.value.id == rows[k].application.profileId && rows[k].profile.value in profiles)
      && (forall k :: 0 <= k < |rows| ==>
            (rows[k].profile.None? <==> forall m :: 0 <= m < |profiles| ==> profiles[m].id != rows[k].application.profileId))
      && (forall k :: 0 <= k < |rows| && rows[k].email.Some? ==>
            exists u :: u in users && u.id == rows[k].application.userId && u.email == rows[k].email.value)
      && (forall k :: 0 <= k < |rows| ==>
            (rows[k].email.None? <==> forall m :: 0 <= m < |users| ==> users[m].id != rows[k].application.userId))
  {
    if IsAdmin(session) {
      var rows := AdminListing(session, apps, profiles, users).value;
      var s := SortDesc(ApplicationTime, apps);
      forall i, j | 0 <= i < j < |rows| ensures rows[i].application.createdAt >= rows[j].application.createdAt {
        assert ApplicationTime(s[i]) >= ApplicationTime(s[j]);
      }
      forall k | 0 <= k < |rows|
        ensures rows[k].profile.None? <==> forall m :: 0 <= m < |profiles| ==> profiles[m].id != rows[k].application.profileId
        ensures rows[k].email.None? <==> forall m :: 0 <= m < |users| ==> users[m].id != rows[k].application.userId
      {
        assert rows[k] == AdminRowOf(s[k], profiles, users);
      }
    }
  }
}
