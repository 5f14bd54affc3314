/** The server's in-memory document `db.data` with its three lists `users`,
    `attempts` and `questions`, and the route handlers that read and update it.
    Generated values are parameters: `freshId` stands for `shortid.generate()`,
    `now` for the current time as an integer timestamp, `hashed` for the
    salted hash `bcrypt.hashSync` produced, `compare` for `bcrypt.compareSync`
    and a token is represented by the claims it was signed over. */
module Store {
  import opened Wrappers
  import opened Domain
  import opened Recommender
  import opened Gates

  const AdminEmail: string := "admin@prepper.test"

  datatype User = User(id: string, name: string, email: string, password: string, role: string, createdAt: int)

  /** The user summary `{ id, name, email, role }` sent to clients: it has no password field. */
  datatype Summary = Summary(id: string, name: string, email: string, role: string)

  datatype Attempt = Attempt(id: string, userId: string, answers: seq<Answer>, result: Career, completedAt: int)

  /** Body of a successful signup or login: the token (by its claims) and the user summary. */
  datatype Session = Session(token: Claims, user: Summary)

  datatype Submission = Submission(result: Career, attemptId: string)

  datatype StatsReport = StatsReport(totalUsers: nat, totalAttempts: nat, recentAttempts: seq<Attempt>,
                                     adminId: string, adminEmail: string)

  /** An HTTP answer: an error status with its `{ error }` message, or a success status with a body. */
  datatype Response<T> = Fail(status: int, message: string) | Ok(status: int, body: T)

  /** The `answers` field of a `/quiz/submit` body: falsy, a non-array value, or an array whose
      entries may be `null`. */
  datatype AnswersField = Missing | NotArray | Entries(items: seq<Option<Answer>>)

  function SummaryOf(u: User): Summary { Summary(u.id, u.name, u.email, u.role) }

  function ClaimsOf(u: User): Claims { Claims(u.id, u.email, u.role) }

  /** The index `Array.prototype.find` stops at: the first element satisfying `p`. */
  function FindFirst<T>(s: seq<T>, p: T -> bool): (r: Option<nat>)
    ensures r.Some? ==> r.value < |s| && p(s[r.value]) && forall j :: 0 <= j < r.value ==> !p(s[j])
    ensures r.None? ==> forall j :: 0 <= j < |s| ==> !p(s[j])
  {
    if s == [] then None
    else if p(s[0]) then Some(0)
    else match FindFirst(s[1..], p)
      case None => None
      case Some(i) => Some(i + 1)
  }

  /** The test `user => user.email === email` of the scans. */
  function WithEmail(email: string): User -> bool { (u: User) => u.email == email }

  /** The test `user => user.id === id` of the scans. */
  function WithId(id: string): User -> bool { (u: User) => u.id == id }

  predicate HasEmail(users: seq<User>, email: string)
  {
    exists i :: 0 <= i < |users| && users[i].email == email
  }

  predicate EmailsDistinct(users: seq<User>)
  {
    forall i, j :: 0 <= i < j < |users| ==> users[i].email != users[j].email
  }

  /** Number of users registered under `email`. */
  function CountEmail(users: seq<User>, email: string): nat
  {
    if users == [] then 0
    else CountEmail(users[..|users| - 1], email) + (if users[|users| - 1].email == email then 1 else 0)
  }

  // ---------------------------------------------------------------- seeding

  /** The account the seed step creates; `hashed` is the hash of its fixed default password. */
  function AdminAccount(id: string, hashed: string, now: int): User
  {
    User(id, "Admin User", AdminEmail, hashed, "admin", now)
  }

  /** Users after seeding: the admin account is appended only when no user has its email. */
  function SeedUsers(users: seq<User>, admin: User): seq<User>
  {
    if HasEmail(users, AdminEmail) then users else users + [admin]
  }

  /** Questions after seeding: the question file replaces the list only when it is empty. */
  function SeedQuestions(questions: seq<Question>, file: seq<Question>): seq<Question>
  {
    if |questions| == 0 then file else questions
  }

  lemma {:induction false} CountZeroIffAbsent(users: seq<User>, email: string)
    ensures CountEmail(users, email) == 0 <==> !HasEmail(users, email)
  {
    if users != [] {
      var init := users[..|users| - 1];
      CountZeroIffAbsent(init, email);
      if HasEmail(init, email) {
        var i :| 0 <= i < |init| && init[i].email == email;
        assert users[i].email == email;
      }
      if HasEmail(users, email) && users[|users| - 1].email != email {
        var i :| 0 <= i < |users| && users[i].email == email;
        assert init[i].email == email;
      }
    }
  }

  /** Seeding never registers the admin email twice: afterwards it occurs once if it was absent,
      and as often as before otherwise. */
  lemma SeedRegistersAdminOnce(users: seq<User>, id: string, hashed: string, now: int)
    ensures CountEmail(SeedUsers(users, AdminAccount(id, hashed, now)), AdminEmail) ==
              if CountEmail(users, AdminEmail) == 0 then 1 else CountEmail(users, AdminEmail)
  {
    CountZeroIffAbsent(users, AdminEmail);
    var after := users + [AdminAccount(id, hashed, now)];
    assert after[..|after| - 1] == users;
  }

  /** Seeding twice, even with a second admin record, gives the state of seeding once. */
  lemma SeedIdempotent(users: seq<User>, questions: seq<Question>, file: seq<Question>, first: User, second: User)
    requires first.email == AdminEmail
    ensures SeedUsers(SeedUsers(users, first), second) == SeedUsers(users, first)
    ensures SeedQuestions(SeedQuestions(questions, file), file) == SeedQuestions(questions, file)
  {
    if !HasEmail(users, AdminEmail) {
      var once := users + [first];
      assert once[|users|].email == AdminEmail;
    }
  }

  /** Appending a user whose email is not yet registered keeps the emails pairwise distinct. */
  lemma AppendKeepsEmailsDistinct(users: seq<User>, u: User)
    requires EmailsDistinct(users) && !HasEmail(users, u.email)
    ensures EmailsDistinct(users + [u])
  {
  }

  // ---------------------------------------------------------------- login, me

  /** `/auth/login`: 400 on a missing field; the same 401 for an unknown email and for a wrong
      password of the first user with that email; otherwise that user's token and summary. */
  function LoginResult(users: seq<User>, email: string, password: string, compare: (string, string) -> bool)
    : (r: Response<Session>)
    ensures r.Fail? && r.status == 400 <==> email == "" || password == ""
    ensures r.Fail? && r.status != 400 ==> r == Fail(401, "Invalid credentials")
    ensures !HasEmail(users, email) ==> r.Fail?
    ensures email != "" && password != "" && FindFirst(users, WithEmail(email)).Some? ==>
              var u := users[FindFirst(users, WithEmail(email)).value];
              (compare(password, u.password) ==> r.Ok?) &&
              (!compare(password, u.password) ==> r == Fail(401, "Invalid credentials"))
    ensures r.Ok? ==> r.status == 200 && FindFirst(users, WithEmail(email)).Some? &&
                      var u := users[FindFirst(users, WithEmail(email)).value];
                      u.email == email && compare(password, u.password) &&
                      r.body == Session(ClaimsOf(u), SummaryOf(u))
  {
    if email == "" || password == "" then Fail(400, "Email and password are required")
    else
      match FindFirst(users, WithEmail(email))
      case None => Fail(401, "Invalid credentials")
      case Some(i) =>
        if !compare(password, users[i].password) then Fail(401, "Invalid credentials")
        else Ok(200, Session(ClaimsOf(users[i]), SummaryOf(users[i])))
  }

  /** `/auth/me`: the summary of the first user with the caller's id, or 404. */
  function MeResult(users: seq<User>, id: string): (r: Response<Summary>)
    ensures r.Fail? <==> forall i :: 0 <= i < |users| ==> users[i].id != id
    ensures r.Fail? ==> r == Fail(404, "User not found")
    ensures r.Ok? ==> r.status == 200 && r.body.id == id && FindFirst(users, WithId(id)).Some? &&
                      r.body == SummaryOf(users[FindFirst(users, WithId(id)).value])
  {
    match FindFirst(users, WithId(id))
    case None => Fail(404, "User not found")
    case Some(i) => Ok(200, SummaryOf(users[i]))
  }

  /** After a successful signup the new account can log in with its password and gets its own token. */
  lemma SignupThenLogin(users: seq<User>, u: User, password: string, compare: (string, string) -> bool)
    requires !HasEmail(users, u.email)
    requires u.email != "" && password != ""
    requires compare(password, u.password)
    ensures LoginResult(users + [u], u.email, password, compare) == Ok(200, Session(ClaimsOf(u), SummaryOf(u)))
  {
    var after := users + [u];
    assert after[|users|].email == u.email;
  }

  // ---------------------------------------------------------------- statistics

  predicate NewestFirst(s: seq<Attempt>)
  {
    forall i, j :: 0 <= i < j < |s| ==> s[i].completedAt >= s[j].completedAt
  }

  /** No element of `s` is newer than `x`. */
  predicate NotNewerThan(s: seq<Attempt>, x: Attempt)
  {
    forall i :: 0 <= i < |s| ==> s[i].completedAt <= x.completedAt
  }

  lemma PrependKeepsNewestFirst(x: Attempt, s: seq<Attempt>)
    requires NewestFirst(s) && NotNewerThan(s, x)
    ensures NewestFirst([x] + s)
  {
  }

  /** A sequence holding the elements of the tail of a newest-first `s` plus one element older than
      its head is not newer than that head. */
  lemma TailBelowHead(a: Attempt, s: seq<Attempt>, t: seq<Attempt>)
    requires NewestFirst(s) && s != [] && a.completedAt < s[0].completedAt
    requires multiset(t) == multiset(s[1..]) + multiset{a}
    ensures NotNewerThan(t, s[0])
  {
    forall i | 0 <= i < |t| ensures t[i].completedAt <= s[0].completedAt {
      assert t[i] in multiset(t);
      if t[i] != a {
        assert t[i] in multiset(s[1..]);
        var k :| 0 <= k < |s[1..]| && s[1..][k] == t[i];
        assert s[k + 1] == t[i];
      }
    }
  }

  /** Inserts `a` before the first element that is not newer than it (so equal times keep their order). */
  function Insert(a: Attempt, s: seq<Attempt>): (r: seq<Attempt>)
    requires NewestFirst(s)
    ensures NewestFirst(r)
    ensures multiset(r) == multiset(s) + multiset{a}
    ensures |r| == |s| + 1
  {
    if s == [] || s[0].completedAt <= a.completedAt then
      PrependKeepsNewestFirst(a, s);
      [a] + s
    else
      var t := Insert(a, s[1..]);
      TailBelowHead(a, s, t);
      PrependKeepsNewestFirst(s[0], t);
      assert s == [s[0]] + s[1..];
      [s[0]] + t
  }

  /** `sort((a, b) => b.completedAt - a.completedAt)`: newest first, a permutation of `s`. */
  function SortNewestFirst(s: seq<Attempt>): (r: seq<Attempt>)
    ensures NewestFirst(r)
    ensures multiset(r) == multiset(s)
    ensures |r| == |s|
  {
    if s == [] then []
    else
      assert s == [s[0]] + s[1..];
      Insert(s[0], SortNewestFirst(s[1..]))
  }

  /** `filter(a => a.userId === id)`, keeping order and multiplicity. */
  function OwnedBy(s: seq<Attempt>, id: string): (r: seq<Attempt>)
    ensures forall a :: multiset(r)[a] == if a.userId == id then multiset(s)[a] else 0
  {
    if s == [] then []
    else
      assert s == [s[0]] + s[1..];
      if s[0].userId == id then [s[0]] + OwnedBy(s[1..], id) else OwnedBy(s[1..], id)
  }

  /** What a newest-first prefix leaves out is not newer than its last element. */
  lemma PrefixIsNewest(sorted: seq<Attempt>, k: nat)
    requires NewestFirst(sorted) && k <= |sorted|
    ensures k > 0 ==> forall a :: a in multiset(sorted) - multiset(sorted[..k]) ==> a.completedAt <= sorted[k - 1].completedAt
  {
    assert sorted == sorted[..k] + sorted[k..];
    assert multiset(sorted) == multiset(sorted[..k]) + multiset(sorted[k..]);
    forall a | k > 0 && a in multiset(sorted) - multiset(sorted[..k]) ensures a.completedAt <= sorted[k - 1].completedAt {
      assert a in multiset(sorted[k..]);
      var j :| 0 <= j < |sorted[k..]| && sorted[k..][j] == a;
      assert sorted[k + j] == a;
    }
  }

  /** An element of a sub-multiset of the caller's attempts is one of the caller's attempts. */
  lemma OwnedMembers(attempts: seq<Attempt>, id: string, r: seq<Attempt>)
    requires multiset(r) <= multiset(OwnedBy(attempts, id))
    ensures forall i :: 0 <= i < |r| ==> r[i].userId == id && r[i] in attempts
  {
  }

  /** A newest-first prefix of at most five of the caller's attempts, sorted, with nothing newer left out. */
  lemma NewestPrefix(attempts: seq<Attempt>, id: string, sorted: seq<Attempt>, k: nat)
    requires NewestFirst(sorted) && multiset(sorted) == multiset(OwnedBy(attempts, id)) && k <= |sorted|
    ensures NewestFirst(sorted[..k])
    ensures multiset(sorted[..k]) <= multiset(OwnedBy(attempts, id))
    ensures forall i :: 0 <= i < k ==> sorted[..k][i].userId == id && sorted[..k][i] in attempts
    ensures k > 0 ==> forall a :: a in multiset(OwnedBy(attempts, id)) - multiset(sorted[..k]) ==>
                                    a.completedAt <= sorted[k - 1].completedAt
  {
    PrefixNewestFirst(sorted, k);
    PrefixSubMultiset(sorted, k);
    OwnedMembers(attempts, id, sorted[..k]);
    PrefixIsNewest(sorted, k);
  }

  lemma PrefixNewestFirst(sorted: seq<Attempt>, k: nat)
    requires NewestFirst(sorted) && k <= |sorted|
    ensures NewestFirst(sorted[..k])
  {
  }

  lemma PrefixSubMultiset(s: seq<Attempt>, k: nat)
    requires k <= |s|
    ensures multiset(s[..k]) <= multiset(s)
  {
    assert s == s[..k] + s[k..];
  }

  /** `recentAttempts`: the caller's own attempts, newest first, at most five, drawn from `attempts`,
      and no omitted attempt of the caller is newer than the last one shown. */
  function Recent(attempts: seq<Attempt>, id: string): (r: seq<Attempt>)
    ensures |r| <= 5
    ensures |r| == MinNat(5, |OwnedBy(attempts, id)|)
    ensures forall i :: 0 <= i < |r| ==> r[i].userId == id && r[i] in attempts
    ensures NewestFirst(r)
    ensures multiset(r) <= multiset(OwnedBy(attempts, id))
    ensures r != [] ==> forall a :: a in multiset(OwnedBy(attempts, id)) - multiset(r) ==>
                          a.completedAt <= r[|r| - 1].completedAt
  {
    var sorted := SortNewestFirst(OwnedBy(attempts, id));
    var k := MinNat(5, |sorted|);
    NewestPrefix(attempts, id, sorted, k);
    sorted[..k]
  }

  // ---------------------------------------------------------------- submit

  predicate AllPresent(items: seq<Option<Answer>>)
  {
    forall i :: 0 <= i < |items| ==> items[i].Some?
  }

  function Unwrap(items: seq<Option<Answer>>): (r: seq<Answer>)
    requires AllPresent(items)
    ensures |r| == |items|
    ensures forall i :: 0 <= i < |items| ==> items[i] == Some(r[i])
  {
    seq(|items|, i requires 0 <= i < |items| => items[i].value)
  }

  /** The in-memory document and the route handlers. */
  class Db {
    var users: seq<User>
    var attempts: seq<Attempt>
    var questions: seq<Question>

    /** `defaultData`: three empty lists. */
    constructor ()
      ensures users == [] && attempts == [] && questions == []
    {
      users, attempts, questions := [], [], [];
    }

    /** The linear scan of `users.find(p)` / `users.some(p)`. */
    method FindUser(p: User -> bool) returns (r: Option<nat>)
      ensures r == FindFirst(users, p)
    {
      var i := 0;
      while i < |users|
        invariant 0 <= i <= |users|
        invariant forall j :: 0 <= j < i ==> !p(users[j])
      {
        if p(users[i]) {
          return Some(i);
        }
        i := i + 1;
      }
      return None;
    }

    /** `seedDatabase`: add the admin account if its email is absent; load the question file if
        there are no questions. */
    method Seed(adminId: string, adminHash: string, now: int, file: seq<Question>)
      modifies this
      ensures users == SeedUsers(old(users), AdminAccount(adminId, adminHash, now))
      ensures questions == SeedQuestions(old(questions), file)
      ensures attempts == old(attempts)
      ensures EmailsDistinct(old(users)) ==> EmailsDistinct(users)
    {
      var found := FindUser(WithEmail(AdminEmail));
      if found.None? {
        ghost var before := users;
        users := users + [AdminAccount(adminId, adminHash, now)];
        if EmailsDistinct(before) {
          AppendKeepsEmailsDistinct(before, AdminAccount(adminId, adminHash, now));
        }
      }
      if |questions| == 0 {
        questions := file;
      }
    }

    /** `/auth/signup`: 400 on a missing field or an email already registered, leaving `users`
        alone; otherwise one user with role "user" is appended and answered with 201. */
    method Signup(name: string, email: string, password: string, hashed: string, freshId: string, now: int)
      returns (r: Response<Session>)
      modifies this
      ensures attempts == old(attempts) && questions == old(questions)
      ensures r.Fail? <==> name == "" || email == "" || password == "" || HasEmail(old(users), email)
      ensures r.Fail? ==> r.status == 400 && users == old(users)
      ensures name == "" || email == "" || password == "" ==> r == Fail(400, "All fields are required")
      ensures r.Ok? ==>
                var u := User(freshId, name, email, hashed, "user", now);
                users == old(users) + [u] && r == Ok(201, Session(ClaimsOf(u), SummaryOf(u)))
      ensures EmailsDistinct(old(users)) ==> EmailsDistinct(users)
    {
      if name == "" || email == "" || password == "" {
        return Fail(400, "All fields are required");
      }
      var existing := FindUser(WithEmail(email));
      if existing.Some? {
        return Fail(400, "User already exists");
      }
      var u := User(freshId, name, email, hashed, "user", now);
      ghost var before := users;
      users := users + [u];
      if EmailsDistinct(before) {
        AppendKeepsEmailsDistinct(before, u);
      }
      r := Ok(201, Session(ClaimsOf(u), SummaryOf(u)));
    }

    /** `/auth/login`. */
    method Login(email: string, password: string, compare: (string, string) -> bool)
      returns (r: Response<Session>)
      ensures r == LoginResult(users, email, password, compare)
    {
      if email == "" || password == "" {
        return Fail(400, "Email and password are required");
      }
      var found := FindUser(WithEmail(email));
      if found.None? {
        return Fail(401, "Invalid credentials");
      }
      var u := users[found.value];
      if !compare(password, u.password) {
        return Fail(401, "Invalid credentials");
      }
      r := Ok(200, Session(ClaimsOf(u), SummaryOf(u)));
    }

    /** `/auth/me` behind `authenticateToken`. */
    method Me(header: Option<string>, verify: string -> Option<Claims>) returns (r: Response<Summary>)
      ensures Authenticate(header, verify).Reject? ==>
                r == Fail(Authenticate(header, verify).status, Authenticate(header, verify).message)
      ensures Authenticate(header, verify).Pass? ==> r == MeResult(users, Authenticate(header, verify).claims.id)
    {
      var gate := Authenticate(header, verify);
      if gate.Reject? {
        return Fail(gate.status, gate.message);
      }
      var id := gate.claims.id;
      var found := FindUser(WithId(id));
      if found.None? {
        return Fail(404, "User not found");
      }
      r := Ok(200, SummaryOf(users[found.value]));
    }

    /** `/quiz/submit` behind `authenticateToken`: 400 when `answers` is not an array, 500 when an
        entry is null (reading its `answer` throws), otherwise exactly one attempt carrying the
        caller's id and the recommendation is appended. */
    method Submit(header: Option<string>, verify: string -> Option<Claims>, field: AnswersField,
                  freshId: string, now: int)
      returns (r: Response<Submission>)
      modifies this
      ensures users == old(users) && questions == old(questions)
      ensures Authenticate(header, verify).Reject? ==>
                r == Fail(Authenticate(header, verify).status, Authenticate(header, verify).message)
      ensures Authenticate(header, verify).Pass? && !field.Entries? ==>
                r == Fail(400, "Answers array is required")
      ensures Authenticate(header, verify).Pass? && field.Entries? && !AllPresent(field.items) ==>
                r == Fail(500, "Server error")
      ensures r.Fail? ==> attempts == old(attempts)
      ensures Authenticate(header, verify).Pass? && field.Entries? && AllPresent(field.items) ==> r.Ok?
      ensures r.Ok? ==>
                Authenticate(header, verify).Pass? && field.Entries? && AllPresent(field.items) &&
                var answers := Unwrap(field.items);
                var a := Attempt(freshId, Authenticate(header, verify).claims.id, answers, Recommend(answers), now);
                attempts == old(attempts) + [a] && r == Ok(200, Submission(Recommend(answers), freshId))
    {
      var gate := Authenticate(header, verify);
      if gate.Reject? {
        return Fail(gate.status, gate.message);
      }
      if !field.Entries? {
        return Fail(400, "Answers array is required");
      }
      if !AllPresent(field.items) {
        return Fail(500, "Server error");
      }
      var answers := Unwrap(field.items);
      var result := Recommend(answers);
      attempts := attempts + [Attempt(freshId, gate.claims.id, answers, result, now)];
      r := Ok(200, Submission(result, freshId));
    }

    /** `/admin/stats` behind `authenticateToken` and `requireAdmin`. */
    method Stats(header: Option<string>, verify: string -> Option<Claims>) returns (r: Response<StatsReport>)
      ensures AdminGate(header, verify).Reject? ==>
                r == Fail(AdminGate(header, verify).status, AdminGate(header, verify).message)
      ensures AdminGate(header, verify).Pass? ==>
                var c := AdminGate(header, verify).claims;
                r == Ok(200, StatsReport(|users|, |attempts|, Recent(attempts, c.id), c.id, c.email))
    {
      var gate := AdminGate(header, verify);
      if gate.Reject? {
        return Fail(gate.status, gate.message);
      }
      var c := gate.claims;
      r := Ok(200, StatsReport(|users|, |attempts|, Recent(attempts, c.id), c.id, c.email));
    }
  }
}
