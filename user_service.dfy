/**
 * The profile service: look-ups by identifier and by e-mail, the sanitised
 * partial update, and the create-user orchestration (identity first, then the
 * profile row, then a best-effort welcome e-mail).
 *
 * The hosted backend is abstracted as the class `Backend`: a profiles table
 * keyed by identifier, a log of every request sent to it, and a fixed `Faults`
 * value saying which kinds of request fail and with what message.
 */
module UserService {
  import opened Wrappers
  import opened Text
  import opened Records

  // ---------------------------------------------------------------------------
  // Identifier shape accepted by getUserById
  // ---------------------------------------------------------------------------

  predicate AllHex(s: string) {
    forall i :: 0 <= i < |s| ==> IsHexDigit(s[i])
  }

  /** The 8-4-4-4-12 hexadecimal shape of a UUID, in either case. */
  predicate IsUuid(id: string) {
    && |id| == 36
    && AllHex(id[..8]) && id[8] == '-'
    && AllHex(id[9..13]) && id[13] == '-'
    && AllHex(id[14..18]) && id[18] == '-'
    && AllHex(id[19..23]) && id[23] == '-'
    && AllHex(id[24..])
  }

  /** The legacy identifiers of seed data: anything starting with a role name. */
  predicate HasLegacyPrefix(id: string) {
    StartsWith(id, "admin") || StartsWith(id, "builder") || StartsWith(id, "homeowner")
  }

  /** The identifiers getUserById looks up; every other one is answered locally with null. */
  predicate AcceptsId(id: string) {
    IsUuid(id) || HasLegacyPrefix(id)
  }

  predicate IsHyphenPosition(i: int) {
    i == 8 || i == 13 || i == 18 || i == 23
  }

  /** Position by position: hyphens exactly at 8, 13, 18 and 23, hexadecimal digits elsewhere. */
  lemma UuidPositions(id: string)
    ensures IsUuid(id) <==>
      |id| == 36 && forall i :: 0 <= i < 36 ==> if IsHyphenPosition(i) then id[i] == '-' else IsHexDigit(id[i])
  {
    if |id| == 36 {
      assert forall i :: 0 <= i < 8 ==> id[..8][i] == id[i];
      assert forall i :: 9 <= i < 13 ==> id[9..13][i - 9] == id[i];
      assert forall i :: 14 <= i < 18 ==> id[14..18][i - 14] == id[i];
      assert forall i :: 19 <= i < 23 ==> id[19..23][i - 19] == id[i];
      assert forall i :: 24 <= i < 36 ==> id[24..][i - 24] == id[i];
    }
  }

  /** The shape test ignores case (the regular expression carries the `i` flag). */
  lemma UuidIgnoresCase(id: string)
    ensures IsUuid(id) <==> IsUuid(Lower(id))
  {
    UuidPositions(id);
    UuidPositions(Lower(id));
    var low := Lower(id);
    forall i | 0 <= i < |id|
      ensures (id[i] == '-' <==> low[i] == '-') && (IsHexDigit(id[i]) <==> IsHexDigit(low[i]))
    {
      assert low[i] == LowerChar(id[i]);
    }
  }

  /** Five hexadecimal groups of 8, 4, 4, 4 and 12 digits joined by hyphens form a UUID. */
  lemma UuidFromGroups(a: string, b: string, c: string, d: string, e: string)
    requires |a| == 8 && |b| == 4 && |c| == 4 && |d| == 4 && |e| == 12
    requires AllHex(a) && AllHex(b) && AllHex(c) && AllHex(d) && AllHex(e)
    ensures IsUuid(a + "-" + b + "-" + c + "-" + d + "-" + e)
  {
    var id := a + "-" + b + "-" + c + "-" + d + "-" + e;
    assert id[..8] == a;
    assert id[9..13] == b;
    assert id[14..18] == c;
    assert id[19..23] == d;
    assert id[24..] == e;
  }

  /** Seed identifiers pass on their prefix alone, whatever follows it. */
  lemma LegacyExamples()
    ensures AcceptsId("homeowner-42") && AcceptsId("administrator")
  {
  }

  /** Other shapes are rejected, a UUID without its hyphens included. */
  lemma RejectedExamples()
    ensures !AcceptsId("user-42")
    ensures !AcceptsId("123e4567e89b12d3a456426614174000")
  {
    assert "user-42"[0] == 'u';
    var v := "123e4567e89b12d3a456426614174000";
    assert |v| == 32 && v[0] == '1';
  }

  // ---------------------------------------------------------------------------
  // The abstract backend
  // ---------------------------------------------------------------------------

  /** Kinds of backend request, for saying which of them fail. */
  datatype Op = Auth | Select | Update | Insert | Email

  /** An error as the backend reports it, or as the service rethrows it. */
  datatype Error = Error(message: string)

  /**
   * How the backend fails: the kinds of request that are down, each with the
   * message its error carries; the message `.single()` gives when no row (or
   * more than one) matches; the message of an insert that breaks a constraint.
   */
  datatype Faults = Faults(outage: map<Op, string>, notSingleMessage: string, constraintMessage: string)

  /** The profiles table, keyed by identifier. */
  type Table = map<string, Fields>

  /** A request sent to the backend. */
  datatype Call =
    | CreateAuthUser(email: string, password: string, emailConfirm: bool, name: string, role: string)
    | SelectWhere(column: string, value: string)
    | UpdateWhereId(id: string, fields: Fields)
    | InsertRow(row: Fields)
    | WelcomeEmail(id: string, email: string, name: string, role: string, createdAt: string)

  /** A write's answer together with the table after it. */
  datatype Written = Written(result: Result<Fields, Error>, table: Table)

  /** The table once the database trigger has (or has not) created a row for a new identity. */
  function Materialise(t: Table, id: string, triggerRow: Option<Fields>): Table {
    match triggerRow
    case Some(row) => t[id := row]
    case None => t
  }

  /** `select('*').eq('id', id).single()`. */
  function ReadRow(t: Table, f: Faults, id: string): Result<Fields, Error> {
    if Select in f.outage then Err(Error(f.outage[Select]))
    else if id in t then Ok(t[id])
    else Err(Error(f.notSingleMessage))
  }

  /** `update(fields).eq('id', id).select().single()`. */
  function UpdateInTable(t: Table, f: Faults, id: string, fields: Fields): Written {
    if Update in f.outage then Written(Err(Error(f.outage[Update])), t)
    else if id !in t then Written(Err(Error(f.notSingleMessage)), t)
    else Written(Ok(t[id] + fields), t[id := t[id] + fields])
  }

  /** `insert(row).select().single()`: the row needs a string `id` not yet in the table. */
  function InsertIntoTable(t: Table, f: Faults, row: Fields): Written {
    if Insert in f.outage then Written(Err(Error(f.outage[Insert])), t)
    else if "id" !in row || !row["id"].Str? || row["id"].s in t then Written(Err(Error(f.constraintMessage)), t)
    else Written(Ok(row), t[row["id"].s := row])
  }

  /** The identifiers of the rows whose `email` column holds `email`. */
  function EmailMatches(t: Table, email: string): set<string> {
    set k | k in t && "email" in t[k] && t[k]["email"] == Str(email)
  }

  /** The hosted backend: the profiles table, the identity provider and the mailer. */
  class Backend {
    var table: Table
    var calls: seq<Call>
    const faults: Faults

    constructor (table: Table, faults: Faults)
      ensures this.table == table && this.faults == faults && calls == []
    {
      this.table := table;
      this.faults := faults;
      calls := [];
    }

    /**
     * `auth.admin.createUser`. On success the provider issues `issuedId`, and
     * the database trigger may already have created `triggerRow` for it.
     */
    method CreateIdentity(email: string, password: string, emailConfirm: bool, name: string, role: string,
                         issuedId: string, triggerRow: Option<Fields>)
      returns (r: Result<string, Error>)
      modifies this
      ensures calls == old(calls) + [CreateAuthUser(email, password, emailConfirm, name, role)]
      ensures r == if Auth in faults.outage then Err(Error(faults.outage[Auth])) else Ok(issuedId)
      ensures table == if r.Ok? then Materialise(old(table), issuedId, triggerRow) else old(table)
    {
      calls := calls + [CreateAuthUser(email, password, emailConfirm, name, role)];
      if Auth in faults.outage {
        r := Err(Error(faults.outage[Auth]));
      } else {
        table := Materialise(table, issuedId, triggerRow);
        r := Ok(issuedId);
      }
    }

    method SelectById(id: string) returns (r: Result<Fields, Error>)
      modifies this
      ensures calls == old(calls) + [SelectWhere("id", id)]
      ensures table == old(table)
      ensures r == ReadRow(table, faults, id)
    {
      calls := calls + [SelectWhere("id", id)];
      r := ReadRow(table, faults, id);
    }

    /** `select('*').eq('email', email).single()`: exactly one row must match. */
    method SelectByEmail(email: string) returns (r: Result<Fields, Error>)
      modifies this
      ensures calls == old(calls) + [SelectWhere("email", email)]
      ensures table == old(table)
      ensures r.Ok? <==> Select !in faults.outage && |EmailMatches(table, email)| == 1
      ensures r.Ok? ==> exists k :: k in EmailMatches(table, email) && r.value == table[k]
      ensures r.Err? ==> r.error == Error(if Select in faults.outage then faults.outage[Select] else faults.notSingleMessage)
    {
      calls := calls + [SelectWhere("email", email)];
      var matches := EmailMatches(table, email);
      if Select in faults.outage {
        r := Err(Error(faults.outage[Select]));
      } else if |matches| == 1 {
        var k :| k in matches;
        r := Ok(table[k]);
      } else {
        r := Err(Error(faults.notSingleMessage));
      }
    }

    method UpdateById(id: string, fields: Fields) returns (r: Result<Fields, Error>)
      modifies this
      ensures calls == old(calls) + [UpdateWhereId(id, fields)]
      ensures Written(r, table) == UpdateInTable(old(table), faults, id, fields)
    {
      calls := calls + [UpdateWhereId(id, fields)];
      var w := UpdateInTable(table, faults, id, fields);
      r, table := w.result, w.table;
    }

    method Insert(row: Fields) returns (r: Result<Fields, Error>)
      modifies this
      ensures calls == old(calls) + [InsertRow(row)]
      ensures Written(r, table) == InsertIntoTable(old(table), faults, row)
    {
      calls := calls + [InsertRow(row)];
      var w := InsertIntoTable(table, faults, row);
      r, table := w.result, w.table;
    }

    /** `sendWelcomeEmail`: an opaque effect that may fail. */
    method SendWelcomeEmail(id: string, email: string, name: string, role: string, createdAt: string)
      returns (delivered: bool)
      modifies this
      ensures calls == old(calls) + [WelcomeEmail(id, email, name, role, createdAt)]
      ensures table == old(table)
      ensures delivered <==> Email !in faults.outage
    {
      calls := calls + [WelcomeEmail(id, email, name, role, createdAt)];
      delivered := Email !in faults.outage;
    }
  }

  // ---------------------------------------------------------------------------
  // getUserById and getUserByEmail
  // ---------------------------------------------------------------------------

  /** The requests getUserById sends: one select, or none for a rejected identifier. */
  function LookupCalls(id: string): seq<Call> {
    if AcceptsId(id) then [SelectWhere("id", id)] else []
  }

  /** What getUserById answers: the stored row, or null for a rejected identifier or any error. */
  function LookupAnswer(t: Table, f: Faults, id: string): (r: Option<Fields>)
    ensures !AcceptsId(id) ==> r == None
    ensures AcceptsId(id) && ReadRow(t, f, id).Err? ==> r == None
    ensures r.Some? <==> AcceptsId(id) && Select !in f.outage && id in t
    ensures r.Some? ==> r.value == t[id]
  {
    if !AcceptsId(id) then None
    else match ReadRow(t, f, id)
      case Ok(row) => Some(row)
      case Err(_) => None
  }

  method GetUserById(db: Backend, id: string) returns (r: Option<Fields>)
    modifies db
    ensures db.table == old(db.table)
    ensures db.calls == old(db.calls) + LookupCalls(id)
    ensures r == LookupAnswer(old(db.table), db.faults, id)
  {
    if !AcceptsId(id) {
      return None;
    }
    var read := db.SelectById(id);
    match read {
      case Ok(row) => r := Some(row);
      case Err(_) => r := None;
    }
  }

  const FetchByEmailPrefix := "Failed to fetch user by email: "

  /** getUserByEmail: the look-up always uses the lower-cased address. */
  method GetUserByEmail(db: Backend, email: string) returns (r: Result<Fields, Error>)
    modifies db
    ensures db.table == old(db.table)
    ensures db.calls == old(db.calls) + [SelectWhere("email", Lower(email))]
    ensures r.Ok? <==> Select !in db.faults.outage && |EmailMatches(db.table, Lower(email))| == 1
    ensures r.Ok? ==> exists k :: k in EmailMatches(db.table, Lower(email)) && r.value == db.table[k]
    ensures r.Err? ==> r.error == Error(FetchByEmailPrefix +
      if Select in db.faults.outage then db.faults.outage[Select] else db.faults.notSingleMessage)
  {
    var read := db.SelectByEmail(Lower(email));
    match read {
      case Ok(row) => r := Ok(row);
      case Err(e) => r := Err(Error(FetchByEmailPrefix + e.message));
    }
  }

  // ---------------------------------------------------------------------------
  // createUser
  // ---------------------------------------------------------------------------

  /** The caller's new user: a User without `id` and `createdAt`. */
  datatype NewUser = NewUser(email: string, name: string, role: string, phone: Value, builderId: Value)

  const TempPassword := "Temp123!"
  const NoRowsFound := "No rows found"
  const AuthFailedPrefix := "Failed to create auth user: "
  const FetchProfilePrefix := "Failed to fetch profile: "
  const UpdateProfilePrefix := "Failed to update profile: "
  const CreateProfilePrefix := "Failed to create profile: "

  /** A read error that createUser takes to mean "the trigger has not created the row". */
  function IsMissingRow(e: Error): (b: bool)
    ensures b <==> exists i :: OccursAt(e.message, NoRowsFound, i)
  {
    IncludesAt(e.message, NoRowsFound);
    Includes(e.message, NoRowsFound)
  }

  /** The identity request: lower-cased e-mail, the temporary password, pre-confirmed. */
  function AuthRequest(user: NewUser): Call {
    CreateAuthUser(Lower(user.email), TempPassword, true, user.name, user.role)
  }

  /** The update createUser applies to a row that already exists. */
  function ProfileFields(user: NewUser): (p: Fields)
    ensures p.Keys == {"name", "role", "phone"} + (if Truthy(user.builderId) then {"builderId"} else {})
    ensures p["name"] == Str(user.name) && p["role"] == Str(user.role) && p["phone"] == user.phone
    ensures "builderId" in p ==> p["builderId"] == user.builderId
  {
    var base := map["name" := Str(user.name), "role" := Str(user.role), "phone" := user.phone];
    if Truthy(user.builderId) then base["builderId" := user.builderId] else base
  }

  /** The row createUser inserts when none exists. */
  function NewProfile(user: NewUser, id: string, now: string): (p: Fields)
    ensures p.Keys == {"id", "email", "name", "role", "phone", "createdAt"}
                      + (if Truthy(user.builderId) then {"builderId"} else {})
    ensures p["id"] == Str(id) && p["email"] == Str(Lower(user.email)) && p["createdAt"] == Str(now)
  {
    var base := map["id" := Str(id), "email" := Str(Lower(user.email)), "name" := Str(user.name),
                    "role" := Str(user.role), "phone" := user.phone, "createdAt" := Str(now)];
    if Truthy(user.builderId) then base["builderId" := user.builderId] else base
  }

  /** The inserted row carries exactly the update's fields plus identifier, e-mail and timestamp. */
  lemma NewProfileExtendsUpdate(user: NewUser, id: string, now: string)
    ensures NewProfile(user, id, now)
         == ProfileFields(user) + map["id" := Str(id), "email" := Str(Lower(user.email)), "createdAt" := Str(now)]
  {
  }

  function WelcomeRequest(user: NewUser, id: string, now: string): Call {
    WelcomeEmail(id, Lower(user.email), user.name, user.role, now)
  }

  /** The answer of one createUser, the table after it, and the requests it sent in order. */
  datatype Run = Run(result: Result<Fields, Error>, table: Table, calls: seq<Call>)

  /** createUser as a function of the table before it and of the backend's behaviour. */
  function CreateUserRun(t: Table, f: Faults, user: NewUser, issuedId: string, triggerRow: Option<Fields>,
                         now: string): Run
  {
    if Auth in f.outage then
      Run(Err(Error(AuthFailedPrefix + f.outage[Auth])), t, [AuthRequest(user)])
    else
      var t1 := Materialise(t, issuedId, triggerRow);
      var read := ReadRow(t1, f, issuedId);
      var sent := [AuthRequest(user), SelectWhere("id", issuedId)];
      if read.Err? && !IsMissingRow(read.error) then
        Run(Err(Error(FetchProfilePrefix + read.error.message)), t1, sent)
      else
        var write := if read.Ok? then UpdateWhereId(issuedId, ProfileFields(user))
                     else InsertRow(NewProfile(user, issuedId, now));
        var w := if read.Ok? then UpdateInTable(t1, f, issuedId, ProfileFields(user))
                 else InsertIntoTable(t1, f, NewProfile(user, issuedId, now));
        match w.result
        case Err(e) =>
          Run(Err(Error((if read.Ok? then UpdateProfilePrefix else CreateProfilePrefix) + e.message)),
              w.table, sent + [write])
        case Ok(row) =>
          Run(Ok(row), w.table, sent + [write, WelcomeRequest(user, issuedId, now)])
  }

  method CreateUser(db: Backend, user: NewUser, issuedId: string, triggerRow: Option<Fields>, now: string)
    returns (r: Result<Fields, Error>)
    modifies db
    ensures var run := CreateUserRun(old(db.table), db.faults, user, issuedId, triggerRow, now);
      r == run.result && db.table == run.table && db.calls == old(db.calls) + run.calls
  {
    var auth := db.CreateIdentity(Lower(user.email), TempPassword, true, user.name, user.role, issuedId, triggerRow);
    if auth.Err? {
      return Err(Error(AuthFailedPrefix + auth.error.message));
    }
    var userId := auth.value;

    var existing := db.SelectById(userId);
    if existing.Err? && !IsMissingRow(existing.error) {
      return Err(Error(FetchProfilePrefix + existing.error.message));
    }

    var profileData: Fields;
    if existing.Ok? {
      var updated := db.UpdateById(userId, ProfileFields(user));
      if updated.Err? {
        return Err(Error(UpdateProfilePrefix + updated.error.message));
      }
      profileData := updated.value;
    } else {
      var created := db.Insert(NewProfile(user, userId, now));
      if created.Err? {
        return Err(Error(CreateProfilePrefix + created.error.message));
      }
      profileData := created.value;
    }

    // The outcome of the welcome e-mail is deliberately ignored.
    var delivered := db.SendWelcomeEmail(userId, Lower(user.email), user.name, user.role, now);
    r := Ok(profileData);
  }

  /** A failed identity creation sends nothing else and writes nothing. */
  lemma NoProfileWithoutIdentity(t: Table, f: Faults, user: NewUser, issuedId: string,
                                 triggerRow: Option<Fields>, now: string)
    requires Auth in f.outage
    ensures var run := CreateUserRun(t, f, user, issuedId, triggerRow, now);
      && run.result == Err(Error(AuthFailedPrefix + f.outage[Auth]))
      && run.calls == [AuthRequest(user)]
      && run.table == t
  {
  }

  /** A read error other than "no rows" aborts before any write. */
  lemma ReadErrorAborts(t: Table, f: Faults, user: NewUser, issuedId: string,
                        triggerRow: Option<Fields>, now: string)
    requires Auth !in f.outage
    requires var read := ReadRow(Materialise(t, issuedId, triggerRow), f, issuedId);
      read.Err? && !IsMissingRow(read.error)
    ensures var run := CreateUserRun(t, f, user, issuedId, triggerRow, now);
      && run.result == Err(Error(FetchProfilePrefix + ReadRow(Materialise(t, issuedId, triggerRow), f, issuedId).error.message))
      && run.calls == [AuthRequest(user), SelectWhere("id", issuedId)]
      && run.table == Materialise(t, issuedId, triggerRow)
  {
  }

  /** Every request createUser sends starts with the identity request, then the profile read. */
  lemma IdentityFirst(t: Table, f: Faults, user: NewUser, issuedId: string,
                      triggerRow: Option<Fields>, now: string)
    ensures var run := CreateUserRun(t, f, user, issuedId, triggerRow, now);
      && 1 <= |run.calls| <= 4
      && run.calls[0] == AuthRequest(user)
      && (|run.calls| > 1 <==> Auth !in f.outage)
      && (|run.calls| > 1 ==> run.calls[1] == SelectWhere("id", issuedId))
  {
  }

  /** A row found by the read is updated, never inserted over. */
  lemma ExistingProfileIsUpdated(t: Table, f: Faults, user: NewUser, issuedId: string,
                                 triggerRow: Option<Fields>, now: string)
    requires Auth !in f.outage
    requires ReadRow(Materialise(t, issuedId, triggerRow), f, issuedId).Ok?
    ensures var run := CreateUserRun(t, f, user, issuedId, triggerRow, now);
      && |run.calls| >= 3
      && run.calls[2] == UpdateWhereId(issuedId, ProfileFields(user))
      && forall i :: 0 <= i < |run.calls| ==> !run.calls[i].InsertRow?
  {
  }

  /** A "no rows" read falls back to inserting a complete row. */
  lemma MissingProfileIsInserted(t: Table, f: Faults, user: NewUser, issuedId: string,
                                 triggerRow: Option<Fields>, now: string)
    requires Auth !in f.outage
    requires var read := ReadRow(Materialise(t, issuedId, triggerRow), f, issuedId);
      read.Err? && IsMissingRow(read.error)
    ensures var run := CreateUserRun(t, f, user, issuedId, triggerRow, now);
      && |run.calls| >= 3
      && run.calls[2] == InsertRow(NewProfile(user, issuedId, now))
      && forall i :: 0 <= i < |run.calls| ==> !run.calls[i].UpdateWhereId?
  {
  }

  /** A failed update of the existing row is rethrown with its own message, and nothing follows it. */
  lemma UpdateErrorThrows(t: Table, f: Faults, user: NewUser, issuedId: string,
                          triggerRow: Option<Fields>, now: string)
    requires Auth !in f.outage
    requires var t1 := Materialise(t, issuedId, triggerRow);
      ReadRow(t1, f, issuedId).Ok? && UpdateInTable(t1, f, issuedId, ProfileFields(user)).result.Err?
    ensures var t1 := Materialise(t, issuedId, triggerRow);
      var run := CreateUserRun(t, f, user, issuedId, triggerRow, now);
      && run.result == Err(Error(UpdateProfilePrefix
                                 + UpdateInTable(t1, f, issuedId, ProfileFields(user)).result.error.message))
      && run.calls == [AuthRequest(user), SelectWhere("id", issuedId), UpdateWhereId(issuedId, ProfileFields(user))]
      && run.table == t1
  {
  }

  /** A failed insert of the missing row is rethrown with its own message, and nothing follows it. */
  lemma InsertErrorThrows(t: Table, f: Faults, user: NewUser, issuedId: string,
                          triggerRow: Option<Fields>, now: string)
    requires Auth !in f.outage
    requires var t1 := Materialise(t, issuedId, triggerRow);
      var read := ReadRow(t1, f, issuedId);
      && read.Err? && IsMissingRow(read.error)
      && InsertIntoTable(t1, f, NewProfile(user, issuedId, now)).result.Err?
    ensures var t1 := Materialise(t, issuedId, triggerRow);
      var run := CreateUserRun(t, f, user, issuedId, triggerRow, now);
      && run.result == Err(Error(CreateProfilePrefix
                                 + InsertIntoTable(t1, f, NewProfile(user, issuedId, now)).result.error.message))
      && run.calls == [AuthRequest(user), SelectWhere("id", issuedId), InsertRow(NewProfile(user, issuedId, now))]
      && run.table == t1
  {
  }

  /**
   * A successful creation ends with exactly one welcome e-mail, as the fourth
   * request, addressed to the new identifier and the lower-cased address and
   * stamped `now`; a failed one sends no welcome e-mail at all.
   */
  lemma SuccessSendsWelcome(t: Table, f: Faults, user: NewUser, issuedId: string,
                            triggerRow: Option<Fields>, now: string)
    ensures var run := CreateUserRun(t, f, user, issuedId, triggerRow, now);
      && (run.result.Ok? <==> |run.calls| == 4)
      && (run.result.Ok? ==> run.calls[3] == WelcomeEmail(issuedId, Lower(user.email), user.name, user.role, now))
      && (run.result.Ok? <==> exists i :: 0 <= i < |run.calls| && run.calls[i].WelcomeEmail?)
  {
  }

  /** Whether the welcome e-mail fails makes no difference to the answer, the table or the requests. */
  lemma WelcomeFailureIgnored(t: Table, f: Faults, user: NewUser, issuedId: string,
                              triggerRow: Option<Fields>, now: string, msg: string)
    ensures var down := f.(outage := f.outage[Email := msg]);
      var up := f.(outage := f.outage - {Email});
      CreateUserRun(t, down, user, issuedId, triggerRow, now) == CreateUserRun(t, up, user, issuedId, triggerRow, now)
  {
  }

  /** A successful write stores its answer under `id`, and the answer holds every field of `fields`. */
  predicate WroteFields(w: Written, id: string, fields: Fields) {
    w.result.Ok? ==>
      && id in w.table && w.table[id] == w.result.value
      && forall k :: k in fields ==> k in w.result.value && w.result.value[k] == fields[k]
  }

  lemma UpdateWritesFields(t: Table, f: Faults, id: string, fields: Fields)
    ensures WroteFields(UpdateInTable(t, f, id, fields), id, fields)
  {
  }

  lemma InsertWritesFields(t: Table, f: Faults, user: NewUser, id: string, now: string)
    ensures WroteFields(InsertIntoTable(t, f, NewProfile(user, id, now)), id, ProfileFields(user))
  {
    NewProfileExtendsUpdate(user, id, now);
  }

  /**
   * A created profile is the row now stored under the new identifier, and it
   * carries the caller's name, role and phone (and builderId when truthy),
   * whichever branch wrote it.
   */
  lemma CreatedProfileCarriesFields(t: Table, f: Faults, user: NewUser, issuedId: string,
                                    triggerRow: Option<Fields>, now: string)
    ensures var run := CreateUserRun(t, f, user, issuedId, triggerRow, now);
      run.result.Ok? ==>
        && issuedId in run.table && run.table[issuedId] == run.result.value
        && forall k :: k in ProfileFields(user) ==> k in run.result.value && run.result.value[k] == ProfileFields(user)[k]
  {
    var t1 := Materialise(t, issuedId, triggerRow);
    if Auth !in f.outage {
      var read := ReadRow(t1, f, issuedId);
      var w := if read.Ok? then UpdateInTable(t1, f, issuedId, ProfileFields(user))
               else InsertIntoTable(t1, f, NewProfile(user, issuedId, now));
      if read.Ok? {
        UpdateWritesFields(t1, f, issuedId, ProfileFields(user));
      } else {
        InsertWritesFields(t1, f, user, issuedId, now);
      }
      assert WroteFields(w, issuedId, ProfileFields(user));
      var run := CreateUserRun(t, f, user, issuedId, triggerRow, now);
      assert run.result.Ok? ==> run.result == w.result && run.table == w.table;
    }
  }

  // ---------------------------------------------------------------------------
  // updateUser
  // ---------------------------------------------------------------------------

  /** Fields the destructuring of the update drops unconditionally. */
  const StrippedKeys: set<string> := {"id", "role", "email_confirmed_at", "last_sign_in_at", "projects", "builderName"}

  /** Fields never sent to the store, however they are set. */
  const NeverSent: set<string> := StrippedKeys + {"createdAt"}

  /** Whether updateUser passes a field with value `v` on to the store. */
  predicate Kept(key: string, v: Value) {
    key !in NeverSent && !(key == "email" && Truthy(v))
  }

  /** The payload updateUser sends for a partial update. */
  function Sanitized(updates: Fields): (p: Fields)
    ensures forall k :: k in NeverSent ==> k !in p
    ensures "email" in p <==> "email" in updates && !Truthy(updates["email"])
    ensures forall k :: k in updates && k !in NeverSent && k != "email" ==> k in p
    ensures forall k :: k in p ==> k in updates && p[k] == updates[k]
  {
    map k | k in updates && Kept(k, updates[k]) :: updates[k]
  }

  /** Sanitising an already sanitised payload changes nothing. */
  lemma SanitizedIdempotent(updates: Fields)
    ensures Sanitized(Sanitized(updates)) == Sanitized(updates)
  {
  }

  const UpdateUserPrefix := "Failed to update user profile: "

  method UpdateUser(db: Backend, userId: string, updates: Fields) returns (r: Result<Option<Fields>, Error>)
    modifies db
    ensures var p := Sanitized(updates);
      if p == map[] then
        && r == Ok(LookupAnswer(old(db.table), db.faults, userId))
        && db.table == old(db.table)
        && db.calls == old(db.calls) + LookupCalls(userId)
      else
        var w := UpdateInTable(old(db.table), db.faults, userId, p);
        && db.calls == old(db.calls) + [UpdateWhereId(userId, p)]
        && db.table == w.table
        && r == match w.result
                case Ok(row) => Ok(Some(row))
                case Err(e) => Err(Error(UpdateUserPrefix + e.message))
  {
    var validUpdates := updates - StrippedKeys;
    if "email" in validUpdates && Truthy(validUpdates["email"]) {
      validUpdates := validUpdates - {"email"};
    }
    if "createdAt" in validUpdates {
      validUpdates := validUpdates - {"createdAt"};
    }
    assert validUpdates == Sanitized(updates);

    if validUpdates.Keys == {} {
      assert validUpdates == map[];
      var current := GetUserById(db, userId);
      return Ok(current);
    }

    var updated := db.UpdateById(userId, validUpdates);
    match updated {
      case Ok(row) => r := Ok(Some(row));
      case Err(e) => r := Err(Error(UpdateUserPrefix + e.message));
    }
  }
}
