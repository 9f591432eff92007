/**
 * The account registration and verification workflow of the backend
 * (backend/routes/emailRoutes.js, with the link format of backend/utils/mailer.js).
 *
 * The three stores the handlers write to are the fields of one class:
 *   - `pending`    the rows of the `pending_users` table,
 *   - `identities` the identity provider's users, keyed by provider id,
 *   - `users`      the rows of the application's `users` table,
 * and `outbox` records the verification mails that were sent.
 * Every call into a provider that can fail takes its outcome as a parameter,
 * so each method is verified against every combination of failures.
 */
module Registration {
  import opened Wrappers
  import opened Text

  /**
   * An identity's id. The provider assigns UUIDs; here the provider's users
   * are a list in creation order (the order `listUsers` reports them in) and
   * an identity's id is its position in that list.
   */
  type Id = nat

  /** A row of `pending_users`: a registration waiting for its token to be used. */
  datatype PendingRow = PendingRow(
    email: string,
    password: string,
    fullName: Option<string>,
    university: Option<string>,
    token: string)

  /** The profile metadata kept on an identity (`user_metadata`). */
  datatype Metadata = Metadata(fullName: Option<string>, university: Option<string>)

  /** An identity held by the identity provider. */
  datatype Identity = Identity(email: string, password: string, emailConfirmed: bool, metadata: Metadata)

  /** A row of the application's `users` table; `None` is SQL `null`. */
  datatype UserRow = UserRow(
    id: Id,
    email: string,
    fullName: Option<string>,
    university: Option<string>,
    isVerified: bool)

  /** A verification mail handed to the mail transport. */
  datatype Mail = Mail(to: string, link: string)

  /** The JSON body of `POST /register`; an absent or `null` field is `None`. */
  datatype RegisterRequest = RegisterRequest(
    email: Option<string>,
    password: Option<string>,
    fullName: Option<string>,
    university: Option<string>)

  const MissingFieldsMessage := "Email dan password wajib diisi."
  const RegisteredMessage := "Registrasi berhasil! Silakan verifikasi lewat email."
  const RegisterErrorMessage := "Terjadi kesalahan saat mendaftar."
  const InvalidTokenMessage := "Token tidak valid atau sudah digunakan."
  const VerifiedMessage := "Akun berhasil diverifikasi dan disinkronkan!"
  const VerifyErrorMessage := "Terjadi kesalahan saat verifikasi."
  /** The message the row store gives when an insert hits the primary key of `users`. */
  const DuplicateKeyMessage := "duplicate" + " key value violates unique constraint \"users_pkey\""
  const LocalFrontendUrl := "http://localhost:5173"

  /** The reply of `POST /register`. */
  datatype RegisterReply =
    | Registered               // 200 {message: RegisteredMessage}
    | BadRequest(error: string) // 400 {error}
    | RegisterCrashed          // 500 {error: RegisterErrorMessage}
  {
    function Status(): (code: int)
      ensures code == 200 <==> Registered?
      ensures code == 400 <==> BadRequest?
    {
      match this
      case Registered => 200
      case BadRequest(_) => 400
      case RegisterCrashed => 500
    }
  }

  /** The reply of `GET /verify/:token`. */
  datatype VerifyReply =
    | Verified       // 200 {success: true, message: VerifiedMessage}
    | InvalidToken   // 400 {success: false, message: InvalidTokenMessage}
    | VerifyCrashed  // 500 {success: false, message: VerifyErrorMessage}
  {
    function Status(): (code: int)
      ensures code == 200 <==> Verified?
      ensures code == 400 <==> InvalidToken?
      ensures code == 500 <==> VerifyCrashed?
    {
      match this
      case Verified => 200
      case InvalidToken => 400
      case VerifyCrashed => 500
    }

    function Success(): (ok: bool)
      ensures ok <==> Status() == 200
    {
      Verified?
    }

    function Message(): string
    {
      match this
      case Verified => VerifiedMessage
      case InvalidToken => InvalidTokenMessage
      case VerifyCrashed => VerifyErrorMessage
    }
  }

  /**
   * How each provider call of one verification pass turns out. The errors of
   * `listUsers`, of `updateUserById` and of the final delete are ignored by
   * the handler: a failed listing shows no identity at all, and the other two
   * only decide whether that write took effect.
   */
  datatype VerifyFaults = VerifyFaults(
    lookupFails: bool,               // the `pending_users` select returns an error
    listFails: bool,                 // `listUsers` returns an error, which the handler drops
    createFails: bool,               // `createUser` returns an error
    metadataUpdateFails: bool,       // `updateUserById` does not take effect
    usersInsertFault: Option<string>, // the `users` insert fails with this message
    deleteFails: bool)               // the `pending_users` delete does not take effect

  const NoFaults := VerifyFaults(false, false, false, false, None, false)

  /** `x || null`: an absent or empty profile field is stored as `null`. */
  function OrNull(s: Option<string>): (r: Option<string>)
    ensures r.Some? <==> Truthy(s)
    ensures r.Some? ==> r == s
  {
    if Truthy(s) then s else None
  }

  /** The link mailed for `token`: the configured front-end URL, or the local one, then `/verify/<token>`. */
  function VerificationLink(frontendUrl: Option<string>, token: string): (link: string)
    ensures Truthy(frontendUrl) ==> StartsWith(link, frontendUrl.value)
    ensures !Truthy(frontendUrl) ==> StartsWith(link, LocalFrontendUrl)
    ensures |link| >= |token| + 8
    ensures link[|link| - |token| - 8..] == "/verify/" + token
    ensures |link| == |if Truthy(frontendUrl) then frontendUrl.value else LocalFrontendUrl| + 8 + |token|
  {
    var base := if Truthy(frontendUrl) then frontendUrl.value else LocalFrontendUrl;
    assert (base + "/verify/" + token)[..|base|] == base;
    base + "/verify/" + token
  }

  /** The rows that `.eq("verify_token", token)` selects, in table order. */
  function RowsWithToken(rows: seq<PendingRow>, token: string): (r: seq<PendingRow>)
    ensures |r| <= |rows|
    ensures forall x :: x in r <==> x in rows && x.token == token
  {
    if rows == [] then []
    else
      var rest := RowsWithToken(rows[..|rows| - 1], token);
      assert rows == rows[..|rows| - 1] + [rows[|rows| - 1]];
      if rows[|rows| - 1].token == token then rest + [rows[|rows| - 1]] else rest
  }

  /**
   * `.maybeSingle()` on that selection: the row when exactly one matches;
   * `None` when none matches (no data) or several do (an error).
   */
  function PendingFor(rows: seq<PendingRow>, token: string): (r: Option<PendingRow>)
    ensures r.Some? ==> r.value in rows && r.value.token == token
    ensures r.Some? ==> forall x :: x in rows && x.token == token ==> x == r.value
    ensures r.None? <==> |RowsWithToken(rows, token)| != 1
  {
    var m := RowsWithToken(rows, token);
    if |m| == 1 then
      assert m[0] in m;
      assert forall x :: x in m ==> x == m[0];
      Some(m[0])
    else
      None
  }

  /** The table after `.delete().eq("email", email)`: every row with exactly that email is gone, the rest keep their order. */
  function WithoutEmail(rows: seq<PendingRow>, email: string): (r: seq<PendingRow>)
    ensures |r| <= |rows|
    ensures forall x :: x in r <==> x in rows && x.email != email
  {
    if rows == [] then []
    else
      var rest := WithoutEmail(rows[..|rows| - 1], email);
      assert rows == rows[..|rows| - 1] + [rows[|rows| - 1]];
      if rows[|rows| - 1].email != email then rest + [rows[|rows| - 1]] else rest
  }

  /**
   * Single use: once the rows with the email of the row a token resolved to
   * are deleted, that token resolves to nothing.
   */
  lemma ConsumedTokenIsGone(rows: seq<PendingRow>, token: string)
    requires PendingFor(rows, token).Some?
    ensures PendingFor(WithoutEmail(rows, PendingFor(rows, token).value.email), token).None?
  {
  }

  /** The `users` row the verification writes for identity `id`. */
  function ProfileRow(id: Id, p: PendingRow): (row: UserRow)
    ensures row.id == id && row.email == p.email && row.isVerified
    ensures row.fullName == OrNull(p.fullName) && row.university == OrNull(p.university)
  {
    UserRow(id, p.email, OrNull(p.fullName), OrNull(p.university), true)
  }

  /**
   * `listUsers().users.find(u => u.email.toLowerCase() === email.toLowerCase())`:
   * the first identity whose email equals `email` ignoring case.
   */
  function FindIdentity(ids: seq<Identity>, email: string): (r: Option<Id>)
    ensures r.Some? ==> r.value < |ids| && EqualsIgnoreCase(ids[r.value].email, email)
    ensures r.Some? ==> forall j :: 0 <= j < r.value ==> !EqualsIgnoreCase(ids[j].email, email)
    ensures r.None? ==> forall j :: 0 <= j < |ids| ==> !EqualsIgnoreCase(ids[j].email, email)
  {
    if ids == [] then None
    else
      var earlier := FindIdentity(ids[..|ids| - 1], email);
      if earlier.Some? then earlier
      else if EqualsIgnoreCase(ids[|ids| - 1].email, email) then Some(|ids| - 1)
      else None
  }

  /** A new identity and the provider's list after its creation. */
  datatype Created = Created(identities: seq<Identity>, id: Id)

  /**
   * The provider's `createUser` with `email_confirm: true`: refused when it
   * fails or when an identity with that email (ignoring case) exists;
   * otherwise the new identity is appended and gets the next id.
   */
  function CreateUser(ids: seq<Identity>, email: string, password: string, metadata: Metadata, fails: bool)
    : (r: Option<Created>)
    ensures r.None? <==> fails || FindIdentity(ids, email).Some?
    ensures r.Some? ==> r.value.id == |ids| && r.value.identities == ids + [Identity(email, password, true, metadata)]
  {
    if fails || FindIdentity(ids, email).Some? then None
    else Some(Created(ids + [Identity(email, password, true, metadata)], |ids|))
  }

  predicate HasUserId(users: seq<UserRow>, id: Id)
  {
    exists k :: 0 <= k < |users| && users[k].id == id
  }

  /** The rows of `users` have distinct ids (its primary key). */
  predicate UniqueUserIds(users: seq<UserRow>)
  {
    forall i, j :: 0 <= i < j < |users| ==> users[i].id != users[j].id
  }

  /** The outcome of one insert into `users`: the table afterwards and the error, if any. */
  datatype InsertOutcome = InsertOutcome(rows: seq<UserRow>, error: Option<string>)

  /**
   * The row store's insert into `users`: a row whose id is already present is
   * refused with the duplicate-key message; otherwise the insert fails with
   * `fault` when there is one, and appends the row when there is not.
   */
  function InsertUser(users: seq<UserRow>, row: UserRow, fault: Option<string>): (r: InsertOutcome)
    ensures r.error.None? <==> !HasUserId(users, row.id) && fault.None?
    ensures r.error.None? ==> r.rows == users + [row]
    ensures r.error.Some? ==> r.rows == users
    ensures HasUserId(users, row.id) ==> r.error == Some(DuplicateKeyMessage)
    ensures UniqueUserIds(users) ==> UniqueUserIds(r.rows)
  {
    if HasUserId(users, row.id) then InsertOutcome(users, Some(DuplicateKeyMessage))
    else if fault.Some? then InsertOutcome(users, fault)
    else InsertOutcome(users + [row], None)
  }

  /** The duplicate-key refusal is one the handler tolerates: its message includes "duplicate". */
  lemma DuplicateKeyIsTolerated()
    ensures Contains(DuplicateKeyMessage, "duplicate")
  {
    assert DuplicateKeyMessage[0..9] == "duplicate";
    assert OccursAt(DuplicateKeyMessage, "duplicate", 0);
  }

  /** The state of the three stores. */
  datatype Stores = Stores(pending: seq<PendingRow>, identities: seq<Identity>, users: seq<UserRow>)

  const EmptyStores := Stores([], [], [])

  /**
   * The invariants the workflow keeps: at most one identity per email
   * (ignoring case), `users` keyed by id, and every `users` row verified and
   * joined to an identity whose email it carries (ignoring case).
   */
  predicate ValidStores(s: Stores)
  {
    UniqueEmails(s.identities) && UniqueUserIds(s.users) && UsersJoined(s.users, s.identities)
  }

  /** No two identities share an email, ignoring case. */
  predicate UniqueEmails(ids: seq<Identity>)
  {
    forall i, j :: 0 <= i < j < |ids| ==> !EqualsIgnoreCase(ids[i].email, ids[j].email)
  }

  /** Every `users` row is verified and names an identity whose email it carries, ignoring case. */
  predicate UsersJoined(users: seq<UserRow>, ids: seq<Identity>)
  {
    forall k :: 0 <= k < |users| ==>
      && users[k].isVerified
      && users[k].id < |ids|
      && EqualsIgnoreCase(users[k].email, ids[users[k].id].email)
  }

  /** `later` keeps every identity of `ids` at its place with its email (it may add some at the end). */
  predicate KeepsEmails(ids: seq<Identity>, later: seq<Identity>)
  {
    |ids| <= |later| && forall i :: 0 <= i < |ids| ==> later[i].email == ids[i].email
  }

  lemma KeepsEmailsKeepsJoin(users: seq<UserRow>, ids: seq<Identity>, later: seq<Identity>)
    requires UsersJoined(users, ids) && KeepsEmails(ids, later)
    ensures UsersJoined(users, later)
  {
  }

  /** What `POST /register` leaves behind: the stores, the reply, and the mail sent, if any. */
  datatype RegisterResult = RegisterResult(stores: Stores, reply: RegisterReply, mail: Option<Mail>)

  /**
   * `POST /register` with the token the handler mints: a pending row on
   * success, then the verification mail. `storeFault` is the insert's error;
   * `mailFails` is the transport throwing, after the row is written.
   */
  function RegisterStep(s: Stores, frontendUrl: Option<string>, req: RegisterRequest, token: string,
                        storeFault: Option<string>, mailFails: bool): (r: RegisterResult)
    // Missing email or password: 400, nothing written, nothing mailed.
    ensures !Truthy(req.email) || !Truthy(req.password) ==>
              r.reply == BadRequest(MissingFieldsMessage) && r.stores == s && r.mail.None?
    // The store refuses the row: 400 with its message, nothing mailed.
    ensures Truthy(req.email) && Truthy(req.password) && storeFault.Some? ==>
              r.reply == BadRequest(storeFault.value) && r.stores == s && r.mail.None?
    // Otherwise exactly one pending row is added, carrying the token and the request's fields.
    ensures Truthy(req.email) && Truthy(req.password) && storeFault.None? ==>
              && r.stores.pending == s.pending
                   + [PendingRow(req.email.value, req.password.value, req.fullName, req.university, token)]
              && r.reply == (if mailFails then RegisterCrashed else Registered)
    ensures r.stores.identities == s.identities && r.stores.users == s.users
    // A mail goes out only with a 200, to the registered address, with a link ending in the token.
    ensures r.mail.Some? <==> r.reply == Registered
    ensures r.mail.Some? ==> r.mail.value.to == req.email.value
                               && r.mail.value.link == VerificationLink(frontendUrl, token)
    ensures ValidStores(s) ==> ValidStores(r.stores)
  {
    if !Truthy(req.email) || !Truthy(req.password) then
      RegisterResult(s, BadRequest(MissingFieldsMessage), None)
    else if storeFault.Some? then
      RegisterResult(s, BadRequest(storeFault.value), None)
    else
      var row := PendingRow(req.email.value, req.password.value, req.fullName, req.university, token);
      var s' := s.(pending := s.pending + [row]);
      if mailFails then RegisterResult(s', RegisterCrashed, None)
      else RegisterResult(s', Registered, Some(Mail(req.email.value, VerificationLink(frontendUrl, token))))
  }

  /**
   * Whether step 2 settles on an identity: an existing one is found only when
   * the listing succeeds (otherwise `createUser` refuses the taken email), and
   * a missing one is created unless creation fails.
   */
  predicate IdentityResolves(ids: seq<Identity>, email: string, listFails: bool, createFails: bool)
  {
    if FindIdentity(ids, email).Some? then !listFails else !createFails
  }

  /** The identity a verification for `email` settles on: the one found, or else the next one created. */
  function ResolvedId(ids: seq<Identity>, email: string): (id: Id)
    ensures FindIdentity(ids, email).Some? ==> id == FindIdentity(ids, email).value
    ensures FindIdentity(ids, email).None? ==> id == |ids|
  {
    var existing := FindIdentity(ids, email);
    if existing.Some? then existing.value else |ids|
  }

  /**
   * Steps 2 and 3 of `GET /verify/:token` on the provider's list: reuse the
   * identity found for the pending email or create one (`createUser`), then
   * overwrite its metadata (`updateUserById`, whose failure is ignored).
   * `None` when creation failed.
   */
  function SyncIdentity(ids: seq<Identity>, p: PendingRow, listFails: bool, createFails: bool, metadataUpdateFails: bool)
    : (r: Option<Created>)
    ensures r.None? <==> !IdentityResolves(ids, p.email, listFails, createFails)
    ensures r.Some? ==>
              var id := r.value.id; var ids' := r.value.identities;
              && id == ResolvedId(ids, p.email)
              && KeepsEmails(ids, ids')
              && |ids'| == |ids| + (if FindIdentity(ids, p.email).Some? then 0 else 1)
              && id < |ids'| && EqualsIgnoreCase(ids'[id].email, p.email)
              && (forall i :: 0 <= i < |ids| && i != id ==> ids'[i] == ids[i])
              // an identity found is reused with its credentials
              && (id < |ids| ==> ids'[id].email == ids[id].email && ids'[id].password == ids[id].password
                                 && ids'[id].emailConfirmed == ids[id].emailConfirmed)
              // an identity created is confirmed and has the pending email and password
              && (id == |ids| ==> ids'[id].email == p.email && ids'[id].password == p.password && ids'[id].emailConfirmed)
              // either way its metadata is the pending profile, unless an ignored update failed on a found one
              && (!metadataUpdateFails || id == |ids| ==> ids'[id].metadata == Metadata(p.fullName, p.university))
    ensures r.Some? && UniqueEmails(ids) ==> UniqueEmails(r.value.identities)
  {
    var metadata := Metadata(p.fullName, p.university);
    var existing := if listFails then None else FindIdentity(ids, p.email);
    var created := if existing.Some? then Some(Created(ids, existing.value))
                   else CreateUser(ids, p.email, p.password, metadata, createFails);
    if created.None? then None
    else
      var id := created.value.id;
      var ids1 := created.value.identities;
      assert existing.None? ==> forall i :: 0 <= i < |ids| ==> !EqualsIgnoreCase(ids1[i].email, ids1[id].email);
      Some(Created(if metadataUpdateFails then ids1 else ids1[id := ids1[id].(metadata := metadata)], id))
  }

  /** What `GET /verify/:token` leaves behind. */
  datatype VerifyResult = VerifyResult(stores: Stores, reply: VerifyReply)

  /**
   * `GET /verify/:token`, step by step: resolve the pending row; find the
   * identity for its email or create one, and overwrite its metadata; insert
   * the `users` row, tolerating a duplicate; delete the pending rows of that
   * email. A thrown provider error is a 500 that keeps whatever was written
   * before it.
   */
  function VerifyStep(s: Stores, token: string, f: VerifyFaults): (r: VerifyResult)
    // Step 1: an unknown, ambiguous or unreadable token is a 400 that changes nothing.
    ensures r.reply == InvalidToken <==> f.lookupFails || PendingFor(s.pending, token).None?
    ensures r.reply == InvalidToken ==> r.stores == s
    // Any later failure leaves the pending rows as they were.
    ensures r.reply == VerifyCrashed ==> r.stores.pending == s.pending
    // At most one identity and at most one users row are added; identities are never removed.
    ensures |s.identities| <= |r.stores.identities| <= |s.identities| + 1
    ensures r.stores.users == s.users
            || (|r.stores.users| == |s.users| + 1 && r.stores.users[..|s.users|] == s.users)
  {
    var found := PendingFor(s.pending, token);
    if f.lookupFails || found.None? then VerifyResult(s, InvalidToken)
    else
      var p := found.value;
      var synced := SyncIdentity(s.identities, p, f.listFails, f.createFails, f.metadataUpdateFails);
      if synced.None? then VerifyResult(s, VerifyCrashed)
      else
        var ins := InsertUser(s.users, ProfileRow(synced.value.id, p), f.usersInsertFault);
        if ins.error.Some? && !Contains(ins.error.value, "duplicate") then
          VerifyResult(Stores(s.pending, synced.value.identities, ins.rows), VerifyCrashed)
        else
          var pending' := if f.deleteFails then s.pending else WithoutEmail(s.pending, p.email);
          VerifyResult(Stores(pending', synced.value.identities, ins.rows), Verified)
  }

  /** Verification keeps every invariant of the stores; in particular it never duplicates an identity. */
  lemma VerifyKeepsInvariant(s: Stores, token: string, f: VerifyFaults)
    requires ValidStores(s)
    ensures ValidStores(VerifyStep(s, token, f).stores)
  {
    var found := PendingFor(s.pending, token);
    if !f.lookupFails && found.Some? {
      var synced := SyncIdentity(s.identities, found.value, f.listFails, f.createFails, f.metadataUpdateFails);
      if synced.Some? {
        KeepsEmailsKeepsJoin(s.users, s.identities, synced.value.identities);
      }
    }
  }

  /**
   * Step 2, reuse: when an identity exists for the pending email and the
   * listing succeeds, no identity is created and its id is the one used; when
   * the listing fails the reply is a 500 and no store changes.
   */
  lemma ExistingIdentityIsReused(s: Stores, token: string, f: VerifyFaults)
    requires !f.lookupFails && PendingFor(s.pending, token).Some?
    requires FindIdentity(s.identities, PendingFor(s.pending, token).value.email).Some?
    ensures var p := PendingFor(s.pending, token).value;
            var id := FindIdentity(s.identities, p.email).value;
            var r := VerifyStep(s, token, f);
            // a failed listing hides the identity, and `createUser` then refuses its email
            && (f.listFails ==> r == VerifyResult(s, VerifyCrashed))
            && (!f.listFails ==>
                  && |r.stores.identities| == |s.identities|
                  && r.stores.users == InsertUser(s.users, ProfileRow(id, p), f.usersInsertFault).rows
                  && (forall i :: 0 <= i < |s.identities| && i != id ==> r.stores.identities[i] == s.identities[i]))
  {
  }

  /**
   * Step 2, creation: when no identity exists for the pending email, exactly
   * one is created, confirmed, with the pending email and password; if
   * creation fails the reply is a 500 and no store changes.
   */
  lemma MissingIdentityIsCreatedOnce(s: Stores, token: string, f: VerifyFaults)
    requires !f.lookupFails && PendingFor(s.pending, token).Some?
    requires FindIdentity(s.identities, PendingFor(s.pending, token).value.email).None?
    ensures var p := PendingFor(s.pending, token).value;
            var r := VerifyStep(s, token, f);
            if f.createFails then
              r == VerifyResult(s, VerifyCrashed)
            else
              && |r.stores.identities| == |s.identities| + 1
              && r.stores.identities[..|s.identities|] == s.identities
              && var created := r.stores.identities[|s.identities|];
              && created.email == p.email && created.password == p.password && created.emailConfirmed
              && created.metadata == Metadata(p.fullName, p.university)
  {
  }

  /**
   * Step 3: once an identity is resolved its metadata carries the pending
   * `full_name` and `university`, whether it was created now or existed
   * before, unless the ignored metadata update failed on an existing one.
   */
  lemma MetadataIsOverwritten(s: Stores, token: string, f: VerifyFaults)
    requires ValidStores(s)
    requires !f.lookupFails && PendingFor(s.pending, token).Some?
    requires IdentityResolves(s.identities, PendingFor(s.pending, token).value.email, f.listFails, f.createFails)
    ensures var p := PendingFor(s.pending, token).value;
            var id := ResolvedId(s.identities, p.email);
            var r := VerifyStep(s, token, f);
            && FindIdentity(r.stores.identities, p.email) == Some(id)
            && (!f.metadataUpdateFails || id == |s.identities| ==>
                  r.stores.identities[id].metadata == Metadata(p.fullName, p.university))
  {
    var p := PendingFor(s.pending, token).value;
    var id := ResolvedId(s.identities, p.email);
    var ids := VerifyStep(s, token, f).stores.identities;
    assert forall i :: 0 <= i < |s.identities| ==> ids[i].email == s.identities[i].email;
    assert id < |ids| && EqualsIgnoreCase(ids[id].email, p.email);
    VerifyKeepsInvariant(s, token, f);
  }

  /**
   * Step 4: the `users` row carries the resolved id, the pending email,
   * `null` for empty names and `is_verified = true`; a row already present
   * for that id is kept as it is and counts as success.
   */
  lemma ProfileRowIsWritten(s: Stores, token: string, f: VerifyFaults)
    requires !f.lookupFails && PendingFor(s.pending, token).Some?
    requires IdentityResolves(s.identities, PendingFor(s.pending, token).value.email, f.listFails, f.createFails)
    ensures var p := PendingFor(s.pending, token).value;
            var id := ResolvedId(s.identities, p.email);
            var r := VerifyStep(s, token, f);
            && (HasUserId(s.users, id) ==> r.reply == Verified && r.stores.users == s.users)
            && (!HasUserId(s.users, id) && f.usersInsertFault.None? ==>
                  r.reply == Verified && r.stores.users == s.users + [ProfileRow(id, p)])
            && (!HasUserId(s.users, id) && f.usersInsertFault.Some? ==>
                  r.stores.users == s.users
                  && (r.reply == Verified <==> Contains(f.usersInsertFault.value, "duplicate")))
  {
    DuplicateKeyIsTolerated();
  }

  /** Step 5 and single use: after a success whose delete took effect, the same token is rejected and changes nothing. */
  lemma TokenIsSingleUse(s: Stores, token: string, f: VerifyFaults, g: VerifyFaults)
    requires VerifyStep(s, token, f).reply == Verified && !f.deleteFails
    ensures var after := VerifyStep(s, token, f).stores;
            && (forall x :: x in after.pending ==> x.email != PendingFor(s.pending, token).value.email)
            && VerifyStep(after, token, g) == VerifyResult(after, InvalidToken)
  {
    ConsumedTokenIsGone(s.pending, token);
  }

  /**
   * Partial failures are recoverable: after a 500 the token still resolves to
   * the same pending row, and a retry on which no provider call fails succeeds
   * without creating a second identity for the email.
   */
  lemma {:induction false} CrashIsRecoverable(s: Stores, token: string, f: VerifyFaults)
    requires ValidStores(s)
    requires VerifyStep(s, token, f).reply == VerifyCrashed
    ensures var after := VerifyStep(s, token, f).stores;
            var p := PendingFor(s.pending, token).value;
            && PendingFor(after.pending, token) == PendingFor(s.pending, token)
            && VerifyStep(after, token, NoFaults).reply == Verified
            && (FindIdentity(after.identities, p.email).Some? ==>
                  |VerifyStep(after, token, NoFaults).stores.identities| == |after.identities|)
  {
    var after := VerifyStep(s, token, f).stores;
    var p := PendingFor(s.pending, token).value;
    VerifyKeepsInvariant(s, token, f);
    DuplicateKeyIsTolerated();
    if IdentityResolves(s.identities, p.email, f.listFails, f.createFails) {
      MetadataIsOverwritten(s, token, f);
      ProfileRowIsWritten(s, token, f);
      var id := ResolvedId(s.identities, p.email);
      assert !HasUserId(s.users, id);
      assert after.users == s.users;
      assert ResolvedId(after.identities, p.email) == id;
      ProfileRowIsWritten(after, token, NoFaults);
    } else {
      assert after == s;
      ProfileRowIsWritten(s, token, NoFaults);
    }
  }

  /**
   * Round trip: registering a fresh address and verifying its token leaves
   * exactly one confirmed identity, one verified `users` row with that
   * identity's id and the registered fields, and no pending row.
   */
  lemma RoundTrip(frontendUrl: Option<string>, token: string)
    ensures var req := RegisterRequest(Some("a@x.com"), Some("p"), Some("A"), Some("U"));
            var reg := RegisterStep(EmptyStores, frontendUrl, req, token, None, false);
            var ver := VerifyStep(reg.stores, token, NoFaults);
            && reg.reply == Registered && ver.reply == Verified
            && ver.stores.identities == [Identity("a@x.com", "p", true, Metadata(Some("A"), Some("U")))]
            && ver.stores.users == [UserRow(0, "a@x.com", Some("A"), Some("U"), true)]
            && ver.stores.pending == []
  {
    var row := PendingRow("a@x.com", "p", Some("A"), Some("U"), token);
    assert [row][..0] == [];
    assert RowsWithToken([row], token) == [row];
    assert WithoutEmail([row], "a@x.com") == [];
  }

  /**
   * Two registrations for one address get two tokens; verifying the later
   * one creates one identity and one `users` row and also retires the
   * earlier token, which is then rejected without any write.
   */
  lemma TwoRegistrationsOneAccount(frontendUrl: Option<string>, req: RegisterRequest, t1: string, t2: string)
    requires Truthy(req.email) && Truthy(req.password) && t1 != t2
    ensures var reg1 := RegisterStep(EmptyStores, frontendUrl, req, t1, None, false);
            var reg2 := RegisterStep(reg1.stores, frontendUrl, req, t2, None, false);
            var ver2 := VerifyStep(reg2.stores, t2, NoFaults);
            && ver2.reply == Verified
            && |ver2.stores.identities| == 1 && |ver2.stores.users| == 1
            && VerifyStep(ver2.stores, t1, NoFaults) == VerifyResult(ver2.stores, InvalidToken)
  {
    var p1 := PendingRow(req.email.value, req.password.value, req.fullName, req.university, t1);
    var p2 := p1.(token := t2);
    var reg1 := RegisterStep(EmptyStores, frontendUrl, req, t1, None, false);
    assert reg1.stores == Stores([p1], [], []);
    var reg2 := RegisterStep(reg1.stores, frontendUrl, req, t2, None, false);
    assert reg2.stores == Stores([p1, p2], [], []);
    VerifyLaterOfTwo(p1, p2);
  }

  lemma VerifyLaterOfTwo(p1: PendingRow, p2: PendingRow)
    requires p1.email == p2.email && p1.token != p2.token
    ensures var ver := VerifyStep(Stores([p1, p2], [], []), p2.token, NoFaults);
            && ver.reply == Verified && ver.stores.pending == []
            && |ver.stores.identities| == 1 && |ver.stores.users| == 1
  {
    assert [p1, p2][..1] == [p1];
    assert [p1][..0] == [];
    assert RowsWithToken([p1, p2], p2.token) == [p2];
    assert WithoutEmail([p1, p2], p1.email) == [];
  }

  /** The three stores of the workflow and the mails sent, updated in place by the two handlers. */
  class EmailService {
    /** `FRONTEND_URL` from the environment, if set. */
    const frontendUrl: Option<string>
    var pending: seq<PendingRow>
    var identities: seq<Identity>
    var users: seq<UserRow>
    var outbox: seq<Mail>

    function State(): Stores
      reads this
    {
      Stores.Stores(pending, identities, users)
    }

    ghost predicate Valid()
      reads this
    {
      ValidStores(State())
    }

    constructor (frontendUrl: Option<string>)
      ensures Valid()
      ensures this.frontendUrl == frontendUrl && State() == EmptyStores && outbox == []
    {
      this.frontendUrl := frontendUrl;
      pending, identities, users, outbox := [], [], [], [];
    }

    /** `POST /register`: writes at most one pending row and sends at most one mail, as `RegisterStep` says. */
    method Register(req: RegisterRequest, token: string, storeFault: Option<string>, mailFails: bool)
      returns (reply: RegisterReply)
      requires Valid()
      modifies this
      ensures Valid()
      ensures var r := RegisterStep(old(State()), frontendUrl, req, token, storeFault, mailFails);
              && State() == r.stores && reply == r.reply
              && outbox == old(outbox) + (if r.mail.Some? then [r.mail.value] else [])
    {
      if !Truthy(req.email) || !Truthy(req.password) {
        return BadRequest(MissingFieldsMessage);
      }
      if storeFault.Some? {
        return BadRequest(storeFault.value);
      }
      pending := pending + [PendingRow(req.email.value, req.password.value, req.fullName, req.university, token)];
      if mailFails {
        return RegisterCrashed;
      }
      outbox := outbox + [Mail(req.email.value, VerificationLink(frontendUrl, token))];
      reply := Registered;
    }

    /** `GET /verify/:token`: the writes of `VerifyStep`, one store at a time, with its early returns. */
    method Verify(token: string, faults: VerifyFaults) returns (reply: VerifyReply)
      requires Valid()
      modifies this
      ensures Valid()
      ensures outbox == old(outbox)
      ensures var r := VerifyStep(old(State()), token, faults);
              State() == r.stores && reply == r.reply
    {
      VerifyKeepsInvariant(State(), token, faults);
      var found := PendingFor(pending, token);
      if faults.lookupFails || found.None? {
        return InvalidToken;
      }
      var p := found.value;
      var metadata := Metadata(p.fullName, p.university);

      var userId: Id;
      // `list?.users?.find(...)`: a failed listing finds nothing
      var existing := if faults.listFails then None else FindIdentity(identities, p.email);
      if existing.Some? {
        userId := existing.value;
      } else {
        var created := CreateUser(identities, p.email, p.password, metadata, faults.createFails);
        if created.None? {
          return VerifyCrashed;
        }
        identities, userId := created.value.identities, created.value.id;
      }

      if !faults.metadataUpdateFails {
        identities := identities[userId := identities[userId].(metadata := metadata)];
      }

      var ins := InsertUser(users, ProfileRow(userId, p), faults.usersInsertFault);
      users := ins.rows;
      if ins.error.Some? && !Contains(ins.error.value, "duplicate") {
        return VerifyCrashed;
      }

      if !faults.deleteFails {
        pending := WithoutEmail(pending, p.email);
      }
      reply := Verified;
    }
  }
}
