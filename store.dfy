/** The seller store: the database tables as fields of one object, and the
    request handlers as its methods. Each handler takes the caller's session
    and the current time explicitly; its answer and the new contents of every
    table are stated against the route logic of the other modules. */
module Store {
  import opened Common
  import opened Records
  import opened Checklist
  import opened ApplicationValidation
  import opened ProductValidation
  import opened ProductRoutes
  import opened AddressRoutes
  import opened ApplicationRoutes
  import opened SettingsRoutes

  // The texts the handlers answer with and the events they record.
  const Unauthorized: string := "Unauthorized"
  const ChecklistNotFound: string := "Checklist not found"
  const ItemNotFound: string := "Item not found"
  const ProductsRequired: string := "Products array is required"
  const SubmitFailed: string := "Failed to submit application"
  const ApplicationNotFound: string := "Application not found"
  const AccountNotFound: string := "Account not found"
  const ProductDrafted: string := "product_drafted"
  const AddressAdded: string := "address_added"
  const FinanceAdded: string := "finance_added"
  const ApplicationSubmitted: string := "application_submitted"

  /** The database: every table at one moment, and the next row id. */
  datatype Tables = Tables(
    users: seq<User>,
    profiles: seq<Profile>,
    applications: seq<Application>,
    messages: seq<AppMessage>,
    accounts: map<Id, SellerAccount>,
    checklists: map<Id, seq<Item>>,
    products: seq<Product>,
    addresses: seq<Address>,
    payoutMethods: seq<PayoutMethod>,
    notificationPrefs: map<Id, NotificationPrefs>,
    apiKeys: seq<ApiKey>,
    events: seq<Event>,
    nextId: Id)

  /** What the bulk handler answers: the number created, and the skipped
      inputs when there are any. */
  datatype BulkResult = BulkResult(count: nat, errors: Option<seq<BulkError>>)

  function Denied<T>(): Reply<T> { Fail(401, Unauthorized) }

  predicate UserHasApplication(apps: seq<Application>, owner: Id) {
    exists k :: 0 <= k < |apps| && apps[k].userId == owner
  }

  predicate EmailTaken(users: seq<User>, email: string) {
    exists k :: 0 <= k < |users| && users[k].email == email
  }

  predicate MethodOwnedBy(owner: Id, m: PayoutMethod) { m.userId == owner }

  /** User ids and emails are unique and every id is below `next`. */
  ghost predicate UsersValid(users: seq<User>, next: Id) {
    && (forall i, j :: 0 <= i < j < |users| ==> users[i].id != users[j].id && users[i].email != users[j].email)
    && (forall i :: 0 <= i < |users| ==> users[i].id < next)
  }

  /** A user has at most one application and every id is below `next`. */
  ghost predicate ApplicationsValid(apps: seq<Application>, next: Id) {
    && (forall i, j :: 0 <= i < j < |apps| ==> apps[i].userId != apps[j].userId)
    && (forall i :: 0 <= i < |apps| ==> apps[i].id < next)
  }

  predicate UserHasProfile(profiles: seq<Profile>, owner: Id) {
    exists k :: 0 <= k < |profiles| && profiles[k].userId == owner
  }

  /** A user has at most one seller profile (`userId` is unique in the
      profile table) and every id is below `next`. */
  ghost predicate ProfilesValid(profiles: seq<Profile>, next: Id) {
    && (forall i, j :: 0 <= i < j < |profiles| ==> profiles[i].userId != profiles[j].userId)
    && (forall i :: 0 <= i < |profiles| ==> profiles[i].id < next)
  }

  /** The database's constraints: user ids and emails are unique, a user has
      at most one profile and at most one application, ids handed out so far
      are below `nextId`, and each (user, type) has at most one default
      address. */
  ghost predicate TablesValid(t: Tables) {
    && UsersValid(t.users, t.nextId)
    && ProfilesValid(t.profiles, t.nextId)
    && ApplicationsValid(t.applications, t.nextId)
    && AtMostOneDefault(t.addresses)
  }

  /** Handing out more ids keeps the user, profile and application tables
      valid. */
  lemma NextIdGrows(users: seq<User>, profiles: seq<Profile>, apps: seq<Application>, next: Id, later: Id)
    requires UsersValid(users, next) && ProfilesValid(profiles, next) && ApplicationsValid(apps, next) && next <= later
    ensures UsersValid(users, later) && ProfilesValid(profiles, later) && ApplicationsValid(apps, later)
  {
  }

  /** A new user with a fresh id and an unused email keeps the users valid. */
  lemma AddUserKeepsValid(users: seq<User>, profiles: seq<Profile>, apps: seq<Application>, next: Id, u: User)
    requires UsersValid(users, next) && ProfilesValid(profiles, next) && ApplicationsValid(apps, next)
    requires u.id == next && !EmailTaken(users, u.email)
    ensures UsersValid(users + [u], next + 1) && ProfilesValid(profiles, next + 1) && ApplicationsValid(apps, next + 1)
  {
    var r := users + [u];
    forall i, j | 0 <= i < j < |r| ensures r[i].id != r[j].id && r[i].email != r[j].email {
      if j == |users| {
        assert r[i] == users[i];
      }
    }
  }

  /** A new profile with a fresh id, for a user who has none, keeps the
      profiles valid. */
  lemma AddProfileKeepsValid(users: seq<User>, profiles: seq<Profile>, apps: seq<Application>, next: Id, p: Profile)
    requires UsersValid(users, next) && ProfilesValid(profiles, next) && ApplicationsValid(apps, next)
    requires p.id == next && !UserHasProfile(profiles, p.userId)
    ensures UsersValid(users, next + 1) && ProfilesValid(profiles + [p], next + 1) && ApplicationsValid(apps, next + 1)
  {
    var q := profiles + [p];
    forall i, j | 0 <= i < j < |q| ensures q[i].userId != q[j].userId {
      if j == |profiles| {
        assert q[i] == profiles[i];
      }
    }
  }

  /** A new application with a fresh id, for a user who has none, keeps the
      applications valid. */
  lemma AddApplicationKeepsValid(users: seq<User>, profiles: seq<Profile>, apps: seq<Application>, next: Id, a: Application)
    requires UsersValid(users, next) && ProfilesValid(profiles, next) && ApplicationsValid(apps, next)
    requires a.id == next && !UserHasApplication(apps, a.userId)
    ensures UsersValid(users, next + 1) && ProfilesValid(profiles, next + 1) && ApplicationsValid(apps + [a], next + 1)
  {
    var r := apps + [a];
    forall i, j | 0 <= i < j < |r| ensures r[i].userId != r[j].userId {
      if j == |apps| {
        assert r[i] == apps[i];
      }
    }
  }

  /** A handler's answer together with the tables it leaves. */
  datatype Outcome<T> = Outcome(reply: Reply<T>, after: Tables)

  /** The first step of `POST /api/applications`: the user a submission is
      filed under, created as a seller with the submitted email and name when
      none is found; it fails (500) without writing when that email is
      already taken. */
  function FileUser(t: Tables, session: Session, body: ApplicationForm): Outcome<User> {
    var found := SubmittingUser(t.users, session, body.email);
    if found.Some? then Outcome(Ok(found.value), t)
    else if EmailTaken(t.users, body.email) then Outcome(Fail(500, SubmitFailed), t)
    else
      var user := User(t.nextId, body.email, body.fullName, "seller");
      Outcome(Ok(user), t.(users := t.users + [user], nextId := t.nextId + 1))
  }

  /** The second step of `POST /api/applications`: insert the profile, then
      the application with its one-entry timeline. The profile's `userId` is
      unique, so a user who already has a profile fails (500) before anything
      is written; the two inserts are not one transaction, so a user with an
      application but no profile fails (500) after the profile is written. */
  function FileApplication(t: Tables, user: User, body: ApplicationForm, attachments: Option<seq<string>>, now: int): Outcome<Id> {
    if UserHasProfile(t.profiles, user.id) then Outcome(Fail(500, SubmitFailed), t)
    else
      var profile := Profile(t.nextId, user.id, body, attachments);
      var t2 := t.(profiles := t.profiles + [profile], nextId := t.nextId + 1);
      if UserHasApplication(t2.applications, user.id) then Outcome(Fail(500, SubmitFailed), t2)
      else
        var app := NewApplication(t2.nextId, user.id, profile.id, now);
        Outcome(Ok(app.id), t2.(applications := t2.applications + [app], nextId := t2.nextId + 1,
                                events := t2.events + [Event(ApplicationSubmitted, user.id)]))
  }

  /** `POST /api/applications`: file the user, then the profile and the
      application. */
  function Submit(t: Tables, session: Session, body: ApplicationForm, attachments: Option<seq<string>>, now: int): Outcome<Id> {
    var filed := FileUser(t, session, body);
    if filed.reply.Fail? then Outcome(Fail(500, SubmitFailed), t)
    else FileApplication(filed.after, filed.reply.value, body, attachments, now)
  }

  /** Without a session the user is found by email or created, so filing
      never fails; with a session it fails exactly when the session's user is
      missing and the submitted email belongs to someone else. */
  lemma FileUserFails(t: Tables, session: Session, body: ApplicationForm)
    ensures session.None? ==> FileUser(t, session, body).reply.Ok?
    ensures session.Some? ==>
      (FileUser(t, session, body).reply.Fail? <==>
         (forall k :: 0 <= k < |t.users| ==> t.users[k].id != session.value.userId) && EmailTaken(t.users, body.email))
  {
  }

  /** A successful submission appends one application, filed under the
      session's user when there is one and otherwise under a user with the
      submitted email; it is "submitted" with a one-entry timeline, its
      profile is the one just written with the submitted form, and its user
      had no application before. */
  lemma SubmitOkEffect(t: Tables, session: Session, body: ApplicationForm, attachments: Option<seq<string>>, now: int)
    requires Submit(t, session, body, attachments, now).reply.Ok?
    ensures var o := Submit(t, session, body, attachments, now);
      var n := |t.applications|;
      && |o.after.applications| == n + 1
      && o.after.applications[..n] == t.applications
      && o.after.applications[n].id == o.reply.value
      && o.after.applications[n].status == "submitted"
      && |o.after.applications[n].timeline| == 1
      && !UserHasApplication(t.applications, o.after.applications[n].userId)
      && |o.after.profiles| == |t.profiles| + 1
      && o.after.profiles[|t.profiles|].id == o.after.applications[n].profileId
      && o.after.profiles[|t.profiles|].userId == o.after.applications[n].userId
      && o.after.profiles[|t.profiles|].form == body
      && (session.Some? && (exists k :: 0 <= k < |t.users| && t.users[k].id == session.value.userId) ==>
            o.after.applications[n].userId == session.value.userId)
      && (session.None? ==>
            exists k :: 0 <= k < |o.after.users| && o.after.users[k].id == o.after.applications[n].userId
                        && o.after.users[k].email == body.email)
  {
    var filed := FileUser(t, session, body);
    var user := filed.reply.value;
    var o := Submit(t, session, body, attachments, now);
    var n := |t.applications|;
    assert o.after.applications[n].userId == user.id;
    if session.None? {
      var found := SubmittingUser(t.users, session, body.email);
      if found.Some? {
        var k :| 0 <= k < |t.users| && t.users[k] == found.value;
        assert o.after.users[k] == t.users[k];
      } else {
        assert o.after.users[|t.users|] == user;
      }
    }
  }

  /** A user cannot apply twice: once a submission under an existing session
      user succeeds, every later submission under that session fails (500)
      and writes nothing, since that user now has a profile. */
  lemma ResubmitWithSessionFails(t: Tables, session: Session, body: ApplicationForm, attachments: Option<seq<string>>, now: int,
                                 body2: ApplicationForm, attachments2: Option<seq<string>>, now2: int)
    requires session.Some? && exists k :: 0 <= k < |t.users| && t.users[k].id == session.value.userId
    requires Submit(t, session, body, attachments, now).reply.Ok?
    ensures var o := Submit(t, session, body, attachments, now);
      Submit(o.after, session, body2, attachments2, now2) == Outcome(Fail(500, SubmitFailed), o.after)
  {
    var o := Submit(t, session, body, attachments, now);
    SubmitOkEffect(t, session, body, attachments, now);
    assert o.after.profiles[|t.profiles|].userId == session.value.userId;
    assert UserHasProfile(o.after.profiles, session.value.userId);
  }

  /** Without a session, a second submission with the same email fails (500)
      and writes nothing: it is filed under the same user, who now has a
      profile. */
  lemma ResubmitSameEmailFails(t: Tables, body: ApplicationForm, attachments: Option<seq<string>>, now: int,
                               body2: ApplicationForm, attachments2: Option<seq<string>>, now2: int)
    requires body2.email == body.email
    requires Submit(t, None, body, attachments, now).reply.Ok?
    ensures var o := Submit(t, None, body, attachments, now);
      Submit(o.after, None, body2, attachments2, now2) == Outcome(Fail(500, SubmitFailed), o.after)
  {
    var o := Submit(t, None, body, attachments, now);
    var user := FileUser(t, None, body).reply.value;
    AnonUserFoundAgain(t, body, attachments, now);
    assert o.after.profiles[|t.profiles|].userId == user.id;
    assert UserHasProfile(o.after.profiles, user.id);
  }

  /** After an anonymous submission, looking its email up again finds the
      user it was filed under. */
  lemma AnonUserFoundAgain(t: Tables, body: ApplicationForm, attachments: Option<seq<string>>, now: int)
    requires Submit(t, None, body, attachments, now).reply.Ok?
    ensures SubmittingUser(Submit(t, None, body, attachments, now).after.users, None, body.email)
      == Some(FileUser(t, None, body).reply.value)
  {
    var filed := FileUser(t, None, body);
    assert Submit(t, None, body, attachments, now).after.users == filed.after.users;
    if SubmittingUser(t.users, None, body.email).None? {
      EmailLookupSnoc(t.users, body.email, filed.reply.value);
    }
  }


  /** The database as the handlers share it. */
  class Store {
    var db: Tables

    ghost predicate Valid()
      reads this
    {
      TablesValid(db)
    }

    constructor ()
      ensures Valid()
      ensures db == Tables([], [], [], [], map[], map[], [], [], [], map[], [], [], 1)
    {
      db := Tables([], [], [], [], map[], map[], [], [], [], map[], [], [], 1);
    }

    // -------------------------------------------------------------------
    // GET and PATCH /api/checklist

    /** Answers the caller's checklist, creating the six pending items first
        if the caller has none; an existing checklist is returned unchanged. */
    method GetChecklist(session: Session) returns (r: Reply<seq<Item>>)
      requires Valid()
      modifies this
      ensures Valid()
      ensures session.None? ==> r == Denied() && db == old(db)
      ensures session.Some? ==>
        var owner := session.value.userId;
        var items := if owner in old(db).checklists then old(db).checklists[owner] else InitialItems();
        && r == Ok(items)
        && db == old(db).(checklists := old(db).checklists[owner := items])
    {
      if session.None? {
        return Denied();
      }
      var owner := session.value.userId;
      if owner !in db.checklists {
        db := db.(checklists := db.checklists[owner := InitialItems()]);
      }
      r := Ok(db.checklists[owner]);
    }

    /** Sets the status of the caller's item with `key`: 404 without a
        checklist or without such an item, and then nothing changes. */
    method PatchChecklist(session: Session, key: string, status: string, now: int) returns (r: Reply<bool>)
      requires Valid()
      modifies this
      ensures Valid()
      ensures session.None? ==> r == Denied() && db == old(db)
      ensures session.Some? && session.value.userId !in old(db).checklists ==>
        r == Fail(404, ChecklistNotFound) && db == old(db)
      ensures session.Some? && session.value.userId in old(db).checklists ==>
        var owner := session.value.userId;
        var s := SetItem(old(db).checklists[owner], key, status, now);
        && (s.None? ==> r == Fail(404, ItemNotFound) && db == old(db))
        && (s.Some? ==> r == Ok(true) && db == old(db).(checklists := old(db).checklists[owner := s.value]))
    {
      if session.None? {
        return Denied();
      }
      var owner := session.value.userId;
      if owner !in db.checklists {
        return Fail(404, ChecklistNotFound);
      }
      var s := SetItem(db.checklists[owner], key, status, now);
      if s.None? {
        return Fail(404, ItemNotFound);
      }
      db := db.(checklists := db.checklists[owner := s.value]);
      r := Ok(true);
    }

    // -------------------------------------------------------------------
    // GET and POST /api/products

    /** The caller's products, newest first. */
    method GetProducts(session: Session) returns (r: Reply<seq<Product>>)
      ensures session.None? ==> r == Denied()
      ensures session.Some? ==> r == Ok(OwnerListing(db.products, session.value.userId))
    {
      if session.None? {
        return Denied();
      }
      r := Ok(OwnerListing(db.products, session.value.userId));
    }

    /** Inserts the caller's draft, records the event, and latches
        `add_product` on the caller's checklist if there is one. */
    method CreateProduct(session: Session, body: ProductInput, now: int) returns (r: Reply<Product>)
      requires Valid()
      modifies this
      ensures Valid()
      ensures session.None? ==> r == Denied() && db == old(db)
      ensures session.Some? ==>
        var owner := session.value.userId;
        var p := DraftProduct(old(db).nextId, owner, body, now);
        && r == Ok(p)
        && db == old(db).(
             products := old(db).products + [p],
             nextId := old(db).nextId + 1,
             events := old(db).events + [Event(ProductDrafted, owner)],
             checklists := LatchFor(old(db).checklists, owner, KeyAddProduct, now))
    {
      if session.None? {
        return Denied();
      }
      var owner := session.value.userId;
      var p := DraftProduct(db.nextId, owner, body, now);
      NextIdGrows(db.users, db.profiles, db.applications, db.nextId, db.nextId + 1);
      db := db.(products := db.products + [p], nextId := db.nextId + 1,
                events := db.events + [Event(ProductDrafted, owner)],
                checklists := LatchFor(db.checklists, owner, KeyAddProduct, now));
      r := Ok(p);
    }

    // -------------------------------------------------------------------
    // POST /api/products/bulk

    /** The insert loop of the bulk upload, proved against `BulkRun`: only the
        products and the next id change. */
    method BulkInsert(owner: Id, inputs: seq<ProductInput>, faults: set<nat>, now: int)
      returns (created: seq<Product>, errors: seq<BulkError>)
      requires Valid()
      modifies this
      ensures Valid()
      ensures var st := BulkRun(BulkState(old(db).products, old(db).nextId, [], []), owner, inputs, faults, now);
        && BulkState(db.products, db.nextId, created, errors) == st
        && db == old(db).(products := st.rows, nextId := st.nextId)
    {
      ghost var st0 := BulkState(db.products, db.nextId, [], []);
      created, errors := [], [];
      var i := 0;
      while i < |inputs|
        invariant 0 <= i <= |inputs|
        invariant BulkState(db.products, db.nextId, created, errors) == BulkRun(st0, owner, inputs[..i], faults, now)
        invariant db == old(db).(products := db.products, nextId := db.nextId)
        invariant old(db).nextId <= db.nextId
      {
        assert inputs[..i + 1][..i] == inputs[..i];
        var b := inputs[i];
        if HasSku(db.products, owner, b.sku) {
          errors := errors + [BulkError(b.sku, SkuExists)];
        } else if i in faults {
          errors := errors + [BulkError(b.sku, CreateFailed)];
        } else {
          var p := BulkDraftProduct(db.nextId, owner, b, now);
          db := db.(products := db.products + [p], nextId := db.nextId + 1);
          created := created + [p];
        }
        i := i + 1;
      }
      assert inputs[..|inputs|] == inputs;
      NextIdGrows(db.users, db.profiles, db.applications, old(db).nextId, db.nextId);
    }

    /** Creates the caller's products one by one, skipping SKUs the caller
        already has; `faults` are the positions whose insert the database
        refuses. `add_product` is latched only on the caller's first upload. */
    method BulkCreate(session: Session, input: Option<seq<ProductInput>>, faults: set<nat>, now: int)
      returns (r: Reply<BulkResult>)
      requires Valid()
      modifies this
      ensures Valid()
      ensures session.None? ==> r == Denied() && db == old(db)
      ensures session.Some? && (input.None? || input.value == []) ==>
        r == Fail(400, ProductsRequired) && db == old(db)
      ensures session.Some? && input.Some? && input.value != [] ==>
        var owner := session.value.userId;
        var st := BulkRun(BulkState(old(db).products, old(db).nextId, [], []), owner, input.value, faults, now);
        var first := |st.created| > 0 && |ProductsOf(st.rows, owner)| == |st.created|;
        && r == Ok(BulkResult(|st.created|, if |st.errors| > 0 then Some(st.errors) else None))
        && r.value.count + |st.errors| == |input.value|
        && (first <==> |st.created| > 0 && |ProductsOf(old(db).products, owner)| == 0)
        && db == old(db).(
             products := st.rows,
             nextId := st.nextId,
             events := if |st.created| > 0 then old(db).events + [Event(ProductDrafted, owner)] else old(db).events,
             checklists := if first then LatchFor(old(db).checklists, owner, KeyAddProduct, now) else old(db).checklists)
    {
      if session.None? {
        return Denied();
      }
      if input.None? || input.value == [] {
        return Fail(400, ProductsRequired);
      }
      var owner := session.value.userId;
      ghost var st0 := BulkState(db.products, db.nextId, [], []);
      var created, errors := BulkInsert(owner, input.value, faults, now);
      BulkRunInvariant(st0, owner, input.value, faults, now);
      FirstUploadDetected(old(db).products, created, owner);
      if |created| > 0 {
        db := db.(events := db.events + [Event(ProductDrafted, owner)]);
        if |ProductsOf(db.products, owner)| == |created| {
          db := db.(checklists := LatchFor(db.checklists, owner, KeyAddProduct, now));
        }
      }
      r := Ok(BulkResult(|created|, if |errors| > 0 then Some(errors) else None));
    }

    // -------------------------------------------------------------------
    // GET and POST /api/addresses

    /** The caller's addresses, defaults first, then newest first. */
    method GetAddresses(session: Session) returns (r: Reply<seq<Address>>)
      ensures session.None? ==> r == Denied()
      ensures session.Some? ==> r == Ok(AddressListing(db.addresses, session.value.userId))
    {
      if session.None? {
        return Denied();
      }
      r := Ok(AddressListing(db.addresses, session.value.userId));
    }

    /** Validates pincode then phone (400, nothing changes); otherwise clears
        the caller's defaults of the type when the new address is a default,
        inserts it, records the event and latches `add_address`. */
    method CreateAddress(session: Session, body: AddressInput, now: int) returns (r: Reply<Address>)
      requires Valid()
      modifies this
      ensures Valid()
      ensures session.None? ==> r == Denied() && db == old(db)
      ensures session.Some? && AddressError(body).Some? ==>
        r == Fail(400, AddressError(body).value) && db == old(db)
      ensures session.Some? && AddressError(body).None? ==>
        var owner := session.value.userId;
        && r == Ok(NewAddress(old(db).nextId, owner, body, now))
        && db == old(db).(
             addresses := AddAddress(old(db).addresses, old(db).nextId, owner, body, now),
             nextId := old(db).nextId + 1,
             events := old(db).events + [Event(AddressAdded, owner)],
             checklists := LatchFor(old(db).checklists, owner, KeyAddAddress, now))
    {
      if session.None? {
        return Denied();
      }
      var error := AddressError(body);
      if error.Some? {
        return Fail(400, error.value);
      }
      var owner := session.value.userId;
      AddAddressKeepsOneDefault(db.addresses, db.nextId, owner, body, now);
      NextIdGrows(db.users, db.profiles, db.applications, db.nextId, db.nextId + 1);
      var rows := db.addresses;
      if body.isDefault {
        rows := ClearDefaults(rows, owner, body.addressType);
      }
      var a := NewAddress(db.nextId, owner, body, now);
      db := db.(addresses := rows + [a], nextId := db.nextId + 1,
                events := db.events + [Event(AddressAdded, owner)],
                checklists := LatchFor(db.checklists, owner, KeyAddAddress, now));
      r := Ok(a);
    }

    // -------------------------------------------------------------------
    // GET and POST /api/finance/bank

    /** The caller's first payout method, or null. */
    method GetBank(session: Session) returns (r: Reply<Option<PayoutMethod>>)
      ensures session.None? ==> r == Denied()
      ensures session.Some? ==> r.Ok?
      ensures session.Some? && r.value.Some? ==> r.value.value in db.payoutMethods && r.value.value.userId == session.value.userId
      ensures session.Some? ==> (r.value.None? <==> forall k :: 0 <= k < |db.payoutMethods| ==> db.payoutMethods[k].userId != session.value.userId)
    {
      if session.None? {
        return Denied();
      }
      var owner := session.value.userId;
      var m := FirstWith((x: PayoutMethod) => MethodOwnedBy(owner, x), db.payoutMethods);
      assert m.None? <==> forall k :: 0 <= k < |db.payoutMethods| ==> !MethodOwnedBy(owner, db.payoutMethods[k]);
      r := Ok(m);
    }

    /** Always inserts a new verified bank payout method with the four
        submitted fields (none of them checked), records the event and latches
        `add_finance`. */
    method CreateBank(session: Session, details: BankDetails, now: int) returns (r: Reply<PayoutMethod>)
      requires Valid()
      modifies this
      ensures Valid()
      ensures session.None? ==> r == Denied() && db == old(db)
      ensures session.Some? ==>
        var owner := session.value.userId;
        var m := PayoutMethod(old(db).nextId, owner, "bank", details, true, now);
        && r == Ok(m)
        && db == old(db).(
             payoutMethods := old(db).payoutMethods + [m],
             nextId := old(db).nextId + 1,
             events := old(db).events + [Event(FinanceAdded, owner)],
             checklists := LatchFor(old(db).checklists, owner, KeyAddFinance, now))
    {
      if session.None? {
        return Denied();
      }
      var owner := session.value.userId;
      var m := PayoutMethod(db.nextId, owner, "bank", details, true, now);
      NextIdGrows(db.users, db.profiles, db.applications, db.nextId, db.nextId + 1);
      db := db.(payoutMethods := db.payoutMethods + [m], nextId := db.nextId + 1,
                events := db.events + [Event(FinanceAdded, owner)],
                checklists := LatchFor(db.checklists, owner, KeyAddFinance, now));
      r := Ok(m);
    }

    // -------------------------------------------------------------------
    // POST and GET /api/applications

    /** The first step of `POST /api/applications`, proved against
        `FileUser`. */
    method RegisterUser(session: Session, body: ApplicationForm) returns (r: Reply<User>)
      requires Valid()
      modifies this
      ensures Valid()
      ensures Outcome(r, db) == FileUser(old(db), session, body)
      ensures r.Ok? ==> r.value.id < db.nextId
    {
      var found := SubmittingUser(db.users, session, body.email);
      if found.Some? {
        return Ok(found.value);
      }
      if EmailTaken(db.users, body.email) {
        return Fail(500, SubmitFailed);
      }
      var user := User(db.nextId, body.email, body.fullName, "seller");
      AddUserKeepsValid(db.users, db.profiles, db.applications, db.nextId, user);
      db := db.(users := db.users + [user], nextId := db.nextId + 1);
      r := Ok(user);
    }

    /** The second step of `POST /api/applications`, proved against
        `FileApplication`. */
    method InsertApplication(user: User, body: ApplicationForm, attachments: Option<seq<string>>, now: int)
      returns (r: Reply<Id>)
      requires Valid() && user.id < db.nextId
      modifies this
      ensures Valid()
      ensures Outcome(r, db) == FileApplication(old(db), user, body, attachments, now)
    {
      if UserHasProfile(db.profiles, user.id) {
        return Fail(500, SubmitFailed);
      }
      var profile := Profile(db.nextId, user.id, body, attachments);
      AddProfileKeepsValid(db.users, db.profiles, db.applications, db.nextId, profile);
      db := db.(profiles := db.profiles + [profile], nextId := db.nextId + 1);
      if UserHasApplication(db.applications, user.id) {
        return Fail(500, SubmitFailed);
      }
      var app := NewApplication(db.nextId, user.id, profile.id, now);
      AddApplicationKeepsValid(db.users, db.profiles, db.applications, db.nextId, app);
      db := db.(applications := db.applications + [app], nextId := db.nextId + 1,
                events := db.events + [Event(ApplicationSubmitted, user.id)]);
      r := Ok(app.id);
    }

    /** `POST /api/applications`, proved against `Submit`. */
    method SubmitApplication(session: Session, body: ApplicationForm, attachments: Option<seq<string>>, now: int)
      returns (r: Reply<Id>)
      requires Valid()
      modifies this
      ensures Valid()
      ensures Outcome(r, db) == Submit(old(db), session, body, attachments, now)
    {
      var filed := RegisterUser(session, body);
      if filed.Fail? {
        return Fail(500, SubmitFailed);
      }
      r := InsertApplication(filed.value, body, attachments, now);
    }

    /** The caller's own application with its profile and its messages,
        newest first; 404 when the caller has none. */
    method GetApplication(session: Session) returns (r: Reply<ApplicationView>)
      ensures session.None? ==> r == Denied()
      ensures session.Some? ==>
        var v := OwnApplication(db.applications, db.profiles, db.messages, session.value.userId);
        && (v.None? ==> r == Fail(404, ApplicationNotFound))
        && (v.Some? ==> r == Ok(v.value))
    {
      if session.None? {
        return Denied();
      }
      var v := OwnApplication(db.applications, db.profiles, db.messages, session.value.userId);
      if v.None? {
        return Fail(404, ApplicationNotFound);
      }
      r := Ok(v.value);
    }

    // -------------------------------------------------------------------
    // GET /api/admin/applications

    method AdminListApplications(session: Session) returns (r: Reply<seq<AdminRow>>)
      ensures r == AdminListing(session, db.applications, db.profiles, db.users)
    {
      r := AdminListing(session, db.applications, db.profiles, db.users);
    }

    // -------------------------------------------------------------------
    // GET /api/settings, PATCH /api/settings/rto-shield and
    // PATCH /api/settings/notifications

    /** 404 without a seller account, before anything is created; otherwise
        the RTO Shield flags (all on by default), the notification
        preferences (created all on if missing) and the newest API key. */
    method GetSettings(session: Session) returns (r: Reply<SettingsView>)
      requires Valid()
      modifies this
      ensures Valid()
      ensures session.None? ==> r == Denied() && db == old(db)
      ensures session.Some? && session.value.userId !in old(db).accounts ==>
        r == Fail(404, AccountNotFound) && db == old(db)
      ensures session.Some? && session.value.userId in old(db).accounts ==>
        var owner := session.value.userId;
        var prefs := if owner in old(db).notificationPrefs then old(db).notificationPrefs[owner] else DefaultPrefs();
        && r == Ok(SettingsView(RtoShieldOf(old(db).accounts[owner].features), prefs, LatestApiKey(old(db).apiKeys, owner)))
        && db == old(db).(notificationPrefs := old(db).notificationPrefs[owner := prefs])
    {
      if session.None? {
        return Denied();
      }
      var owner := session.value.userId;
      if owner !in db.accounts {
        return Fail(404, AccountNotFound);
      }
      var rto := RtoShieldOf(db.accounts[owner].features);
      var prefs := if owner in db.notificationPrefs then db.notificationPrefs[owner] else DefaultPrefs();
      r := Ok(SettingsView(rto, prefs, LatestApiKey(db.apiKeys, owner)));
      db := db.(notificationPrefs := db.notificationPrefs[owner := prefs]);
    }

    /** Replaces `features.rtoShield` of the caller's account with the body,
        keeping the other feature keys. */
    method PatchRtoShield(session: Session, body: Json) returns (r: Reply<bool>)
      requires Valid()
      modifies this
      ensures Valid()
      ensures session.None? ==> r == Denied() && db == old(db)
      ensures session.Some? && session.value.userId !in old(db).accounts ==>
        r == Fail(404, AccountNotFound) && db == old(db)
      ensures session.Some? && session.value.userId in old(db).accounts ==>
        var owner := session.value.userId;
        var acc := old(db).accounts[owner];
        && r == Ok(true)
        && db == old(db).(accounts := old(db).accounts[owner := acc.(features := Some(SetRtoShield(acc.features, body)))])
    {
      if session.None? {
        return Denied();
      }
      var owner := session.value.userId;
      if owner !in db.accounts {
        return Fail(404, AccountNotFound);
      }
      var acc := db.accounts[owner];
      db := db.(accounts := db.accounts[owner := acc.(features := Some(SetRtoShield(acc.features, body)))]);
      r := Ok(true);
    }

    /** Upserts the caller's notification preferences. */
    method PatchNotifications(session: Session, body: NotificationPrefs) returns (r: Reply<bool>)
      requires Valid()
      modifies this
      ensures Valid()
      ensures session.None? ==> r == Denied() && db == old(db)
      ensures session.Some? ==>
        && r == Ok(true)
        && db == old(db).(notificationPrefs := old(db).notificationPrefs[session.value.userId := body])
    {
      if session.None? {
        return Denied();
      }
      db := db.(notificationPrefs := db.notificationPrefs[session.value.userId := body]);
      r := Ok(true);
    }
  }
}
