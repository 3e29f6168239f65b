/** The mock authentication service: a module-level table of users seeded
    with two accounts, a login that accepts two fixed credential pairs, a
    registration that appends to the table, and a token check that only
    looks at a prefix. `now` stands for `Date.now()` (milliseconds) and
    `createdAt` for `new Date().toISOString()`; both are supplied by the
    caller. */
module MockAuth {
  import opened Options
  import opened Seqs

  datatype Tier = Free | Standard | Premium

  datatype Badge = Badge(id: string, title: string, description: string, icon: string, unlockedAt: string)

  /** The progress summary stored with a user. */
  datatype UserStats = UserStats(
    totalWorkouts: nat, totalMinutes: nat, currentStreak: nat, longestStreak: nat,
    favoritePrograms: seq<string>, completedPrograms: seq<string>, achievements: seq<Badge>)

  datatype User = User(
    id: string, name: string, email: string, avatar: Option<string>,
    subscription: Tier, createdAt: string, progress: Option<UserStats>)

  datatype AuthResult = AuthResult(success: bool, user: Option<User>, token: Option<string>, error: Option<string>)

  datatype TokenCheck = TokenCheck(valid: bool, user: Option<User>)

  const DemoEmail := "demo@ana-fitness.com"
  const TestEmail := "test@ana-fitness.com"
  const TokenPrefix := "mock-jwt-token-"
  const InvalidCredentials := "Invalid credentials. Try demo@ana-fitness.com / demo123"
  const UserExists := "User already exists"

  const DemoUser := User("1", "Demo User", DemoEmail, None, Premium, "2024-01-01T00:00:00Z",
    Some(UserStats(45, 1250, 7, 15, ["yoga-basics", "hiit-cardio"], ["beginner-yoga"], [])))

  const TestUser := User("2", "Test User", TestEmail, None, Standard, "2024-01-15T00:00:00Z",
    Some(UserStats(12, 360, 3, 5, ["pilates-core"], [], [])))

  const InitialUsers := [DemoUser, TestUser]

  // ---------------------------------------------------------------- numbers as text

  function DigitChar(d: nat): (c: char)
    requires d < 10
    ensures '0' <= c <= '9'
  {
    (d + 48) as char
  }

  /** `n.toString()` for a natural number: decimal digits, no leading zero. */
  function NatToString(n: nat): (s: string)
    ensures |s| >= 1
    ensures n >= 10 ==> |s| >= 2
    ensures forall i :: 0 <= i < |s| ==> '0' <= s[i] <= '9'
  {
    if n < 10 then [DigitChar(n)] else NatToString(n / 10) + [DigitChar(n % 10)]
  }

  /** Different numbers have different decimal representations. */
  lemma {:induction false} NatToStringInjective(n: nat, m: nat)
    requires NatToString(n) == NatToString(m)
    ensures n == m
  {
    var s := NatToString(n);
    if n >= 10 && m >= 10 {
      assert DigitChar(n % 10) == s[|s| - 1] == DigitChar(m % 10);
      assert NatToString(n / 10) == s[..|s| - 1] == NatToString(m / 10);
      NatToStringInjective(n / 10, m / 10);
    } else if n < 10 && m < 10 {
      assert DigitChar(n) == s[0] == DigitChar(m);
    }
  }

  predicate StartsWith(s: string, prefix: string) {
    |prefix| <= |s| && s[..|prefix|] == prefix
  }

  /** `'mock-jwt-token-' + Date.now()`. */
  function IssueToken(now: nat): (t: string)
    ensures StartsWith(t, TokenPrefix)
    ensures t[|TokenPrefix|..] == NatToString(now)
  {
    TokenPrefix + NatToString(now)
  }

  /** Tokens issued at different times differ. */
  lemma IssueTokenInjective(now: nat, later: nat)
    requires IssueToken(now) == IssueToken(later)
    ensures now == later
  {
    assert IssueToken(now)[|TokenPrefix|..] == IssueToken(later)[|TokenPrefix|..];
    NatToStringInjective(now, later);
  }

  // ---------------------------------------------------------------- the table

  ghost predicate EmailsDistinct(users: seq<User>) {
    forall i, j :: 0 <= i < j < |users| ==> users[i].email != users[j].email
  }

  /** The table as every sequence of registrations leaves it: the two seeded
      accounts first, emails pairwise distinct, and the user at index `i`
      carrying the id `i + 1`. */
  ghost predicate TableValid(users: seq<User>) {
    && |users| >= 2
    && users[0] == DemoUser
    && users[1] == TestUser
    && EmailsDistinct(users)
    && forall i :: 0 <= i < |users| ==> users[i].id == NatToString(i + 1)
  }

  /** Ids in a valid table are pairwise distinct. */
  lemma IdsDistinct(users: seq<User>)
    requires TableValid(users)
    ensures forall i, j :: 0 <= i < j < |users| ==> users[i].id != users[j].id
  {
    forall i, j | 0 <= i < j < |users|
      ensures users[i].id != users[j].id
    {
      if users[i].id == users[j].id {
        NatToStringInjective(i + 1, j + 1);
      }
    }
  }

  lemma InitialTableValid()
    ensures TableValid(InitialUsers)
  {
    assert NatToString(1) == "1" && NatToString(2) == "2";
  }

  /** Whether a user has the given email: the test of `mockUsers.find(u => u.email === email)`. */
  function HasEmail(email: string): User -> bool {
    (u: User) => u.email == email
  }

  /** The user `mockRegister` creates: the free tier and an all-zero,
      all-empty progress summary. */
  function NewUser(id: nat, name: string, email: string, createdAt: string): (u: User)
    ensures u.id == NatToString(id) && u.name == name && u.email == email && u.createdAt == createdAt
    ensures u.subscription == Free && u.avatar.None?
    ensures u.progress.Some? && u.progress.value.totalWorkouts == 0 && u.progress.value.totalMinutes == 0
    ensures u.progress.value.currentStreak == 0 && u.progress.value.longestStreak == 0
    ensures u.progress.value.favoritePrograms == [] && u.progress.value.completedPrograms == []
    ensures u.progress.value.achievements == []
  {
    User(NatToString(id), name, email, None, Free, createdAt, Some(UserStats(0, 0, 0, 0, [], [], [])))
  }

  // ---------------------------------------------------------------- operations

  /** `mockLogin`: exactly the demo and test credential pairs succeed, with
      the first and second table entries; any other pair fails with the
      hint message and neither user nor token. */
  function Login(users: seq<User>, email: string, password: string, now: nat): (r: AuthResult)
    requires |users| >= 2
    ensures r.success <==> (email == DemoEmail && password == "demo123") || (email == TestEmail && password == "test123")
    ensures r.success && email == DemoEmail ==> r.user == Some(users[0])
    ensures r.success && email == TestEmail ==> r.user == Some(users[1])
    ensures r.success ==> r.token == Some(IssueToken(now)) && r.error.None?
    ensures !r.success ==> r.user.None? && r.token.None? && r.error == Some(InvalidCredentials)
  {
    if email == DemoEmail && password == "demo123" then
      AuthResult(true, Some(users[0]), Some(IssueToken(now)), None)
    else if email == TestEmail && password == "test123" then
      AuthResult(true, Some(users[1]), Some(IssueToken(now)), None)
    else
      AuthResult(false, None, None, Some(InvalidCredentials))
  }

  /** `mockVerifyToken`: a non-empty token with the mock prefix is valid and
      always resolves to the first user; anything else is invalid. */
  function VerifyToken(users: seq<User>, token: string): (r: TokenCheck)
    requires |users| >= 1
    ensures r.valid <==> |token| > 0 && StartsWith(token, TokenPrefix)
    ensures r.valid ==> r.user == Some(users[0])
    ensures !r.valid ==> r.user.None?
  {
    if |token| > 0 && StartsWith(token, TokenPrefix) then TokenCheck(true, Some(users[0]))
    else TokenCheck(false, None)
  }

  /** Every token a successful login issues passes the token check. */
  lemma LoginTokensVerify(users: seq<User>, email: string, password: string, now: nat)
    requires |users| >= 2
    ensures var r := Login(users, email, password, now);
      r.success ==> VerifyToken(users, r.token.value).valid
  {
  }

  /** The token check does not remember who logged in: the test account's
      token resolves to the demo account. */
  lemma TestLoginTokenResolvesToDemo(users: seq<User>, now: nat)
    requires TableValid(users)
    ensures var r := Login(users, TestEmail, "test123", now);
      && r.user == Some(TestUser)
      && VerifyToken(users, r.token.value).user == Some(DemoUser)
  {
  }

  /** Accounts created by registration can never log in: their emails
      differ from the two accepted ones. */
  lemma RegisteredUsersCannotLogIn(users: seq<User>, k: nat, password: string, now: nat)
    requires TableValid(users) && 2 <= k < |users|
    ensures !Login(users, users[k].email, password, now).success
  {
    assert users[0].email == DemoEmail && users[1].email == TestEmail;
  }

  class MockUserTable {
    var users: seq<User>

    ghost predicate Valid()
      reads this
    {
      TableValid(users)
    }

    constructor ()
      ensures Valid() && users == InitialUsers
    {
      users := InitialUsers;
      InitialTableValid();
    }

    /** `mockRegister`: a taken email fails with `User already exists` and
        leaves the table alone; a new email appends exactly one free-tier user
        whose id is the old table length plus one, and returns it with a
        fresh token. */
    method Register(name: string, email: string, password: string, now: nat, createdAt: string) returns (r: AuthResult)
      requires Valid()
      modifies this
      ensures Valid()
      ensures Find(old(users), HasEmail(email)).Some? ==>
        && r == AuthResult(false, None, None, Some(UserExists))
        && users == old(users)
      ensures Find(old(users), HasEmail(email)).None? ==>
        && users == old(users) + [NewUser(|old(users)| + 1, name, email, createdAt)]
        && r == AuthResult(true, Some(users[|users| - 1]), Some(IssueToken(now)), None)
    {
      var existingUser := Find(users, HasEmail(email));
      if existingUser.Some? {
        return AuthResult(false, None, None, Some(UserExists));
      }
      var newUser := NewUser(|users| + 1, name, email, createdAt);
      users := users + [newUser];
      var token := IssueToken(now);
      r := AuthResult(true, Some(newUser), Some(token), None);
    }
  }
}
