/** The server side of the banking system: an in-memory store with the three
    tables `users`, `accounts` and `transactions`, the routes that read them and
    the three routes that change them (`/register`, `/customer/deposit`,
    `/customer/withdraw`), each of which commits all of its writes or rolls all
    of them back. Amounts are integer cents; ids and timestamps are abstract. */
module Ledger {
  import opened Wrappers

  /** Row ids; the source draws them from uuid v4, the model from a counter. */
  type Id = nat

  datatype Role = Customer | Banker

  /** The role names as they appear in tokens, request bodies and paths. */
  function RoleName(r: Role): (name: string)
    ensures name == "customer" <==> r == Customer
    ensures name == "banker" <==> r == Banker
  {
    match r
    case Customer => "customer"
    case Banker => "banker"
  }

  datatype TxKind = Deposit | Withdraw

  datatype User = User(id: Id, firstName: string, lastName: string, age: int, dob: string,
                       email: string, passwordHash: string, role: Role, createdAt: nat)

  datatype Account = Account(id: Id, userId: Id, balance: int)

  datatype Transaction = Transaction(id: Id, accountId: Id, kind: TxKind, amount: int, createdAt: nat)

  /** What a route answers on failure: an HTTP status and the `error` text. */
  datatype HttpError = HttpError(status: int, message: string)

  /** The payload of a session token: what `req.user` holds after verification. */
  datatype Claims = Claims(id: Id, email: string, role: Role)

  /** The `user` object the login route returns beside the token. */
  datatype UserView = UserView(id: Id, firstName: string, lastName: string, email: string, role: Role)

  datatype Session = Session(claims: Claims, user: UserView)

  /** One row of the banker's customer list. */
  datatype CustomerSummary = CustomerSummary(id: Id, firstName: string, lastName: string,
                                             email: string, age: int, dob: string, createdAt: nat)

  /** One row of the banker's customer detail query; `balance` is NULL without an account. */
  datatype CustomerDetail = CustomerDetail(summary: CustomerSummary, balance: Option<int>)

  const AdminEmail: string := "admin@example.com"

  // ---------------------------------------------------------------------------
  // Request authentication

  /** The position of the first space in `s`, or `|s|` when there is none. */
  function SpaceIndex(s: string): (k: nat)
    ensures k <= |s|
    ensures forall i :: 0 <= i < k ==> s[i] != ' '
    ensures k < |s| ==> s[k] == ' '
  {
    if |s| == 0 || s[0] == ' ' then 0 else 1 + SpaceIndex(s[1..])
  }

  /** `s.split(' ')`: the pieces of `s` between single spaces, empty pieces kept. */
  function Split(s: string): (parts: seq<string>)
    ensures |parts| >= 1
    ensures forall i :: 0 <= i < |parts| ==> ' ' !in parts[i]
    ensures Join(parts) == s
    decreases |s|
  {
    var k := SpaceIndex(s);
    if k == |s| then
      assert s[..k] == s;
      [s]
    else
      var rest := Split(s[k + 1..]);
      JoinCons(s[..k], rest);
      assert s == s[..k] + " " + s[k + 1..];
      [s[..k]] + rest
  }

  /** The inverse of `Split`: the pieces glued back together with single spaces. */
  function Join(parts: seq<string>): string
    decreases |parts|
  {
    if |parts| == 0 then "" else if |parts| == 1 then parts[0] else parts[0] + " " + Join(parts[1..])
  }

  lemma JoinCons(p: string, rest: seq<string>)
    requires |rest| >= 1
    ensures Join([p] + rest) == p + " " + Join(rest)
  {
    assert ([p] + rest)[1..] == rest;
  }

  /** Joining space-free pieces and splitting again gives back the pieces. */
  lemma {:induction false} SplitJoin(parts: seq<string>)
    requires |parts| >= 1
    requires forall i :: 0 <= i < |parts| ==> ' ' !in parts[i]
    ensures Split(Join(parts)) == parts
    decreases |parts|
  {
    var p := parts[0];
    if |parts| == 1 {
      SplitSpaceFree(p);
    } else {
      SplitJoin(parts[1..]);
      SplitPrefix(p, Join(parts[1..]));
      assert parts == [p] + parts[1..];
    }
  }

  lemma SplitSpaceFree(p: string)
    requires ' ' !in p
    ensures Split(p) == [p]
  {
    assert SpaceIndex(p) == |p|;
  }

  lemma SplitPrefix(p: string, rest: string)
    requires ' ' !in p
    ensures Split(p + " " + rest) == [p] + Split(rest)
  {
    var s := p + " " + rest;
    assert s[|p|] == ' ';
    assert SpaceIndex(s) == |p|;
    assert s[..|p|] == p && s[|p| + 1..] == rest;
  }

  /** `authHeader && authHeader.split(' ')[1]`, keeping only a non-empty token
      (the empty string and `undefined` are both falsy). */
  function BearerToken(header: Option<string>): (token: Option<string>)
    ensures header.None? ==> token.None?
    ensures header.Some? ==>
              (token.Some? <==> |Split(header.value)| > 1 && Split(header.value)[1] != "")
    ensures token.Some? ==> token.value == Split(header.value)[1]
    ensures token.Some? ==> token.value != "" && ' ' !in token.value
    ensures token.Some? ==> exists k :: 0 <= k < |header.value| && header.value[k] == ' '
  {
    match header
    case None => None
    case Some(h) =>
      var parts := Split(h);
      if |parts| > 1 && parts[1] != "" then
        assert ' ' in h by {
          assert Join(parts) == parts[0] + " " + Join(parts[1..]);
          assert h[|parts[0]|] == ' ';
        }
        Some(parts[1])
      else
        None
  }

  /** The header the client sends, `Bearer <token>`, yields that token back. */
  lemma BearerRoundTrip(token: string)
    requires token != "" && ' ' !in token
    ensures BearerToken(Some("Bearer " + token)) == Some(token)
  {
    assert "Bearer " + token == Join(["Bearer", token]);
    SplitJoin(["Bearer", token]);
  }

  /** The `authenticateToken` middleware. Signature checking is a foreign
      library, so `verify` (the token's claims, or None for a bad or expired
      token) is an input. */
  function Authenticate(header: Option<string>, verify: string -> Option<Claims>): (r: Result<Claims, HttpError>)
    ensures BearerToken(header).None? ==> r == Failure(HttpError(401, "Authentication required"))
    ensures BearerToken(header).Some? && verify(BearerToken(header).value).None? ==>
              r == Failure(HttpError(403, "Invalid token"))
    ensures BearerToken(header).Some? && verify(BearerToken(header).value).Some? ==>
              r == Success(verify(BearerToken(header).value).value)
  {
    match BearerToken(header)
    case None => Failure(HttpError(401, "Authentication required"))
    case Some(token) =>
      match verify(token)
      case None => Failure(HttpError(403, "Invalid token"))
      case Some(claims) => Success(claims)
  }

  /** The check at the head of every banker route: any role but banker is refused. */
  function BankerGate(claims: Claims): (r: Option<HttpError>)
    ensures r.None? <==> claims.role == Banker
    ensures r.Some? ==> r.value == HttpError(403, "Access denied")
  {
    if RoleName(claims.role) != "banker" then Some(HttpError(403, "Access denied")) else None
  }

  // ---------------------------------------------------------------------------
  // Queries over the tables

  predicate EmailTaken(users: seq<User>, email: string) {
    exists u :: u in users && u.email == email
  }

  function UserIds(users: seq<User>): set<Id> {
    set u | u in users :: u.id
  }

  function AccountIds(accounts: seq<Account>): set<Id> {
    set a | a in accounts :: a.id
  }

  /** `SELECT ... FROM accounts WHERE user_id = ?`, first row: its index. */
  function FindAccount(accounts: seq<Account>, userId: Id): (k: Option<nat>)
    ensures k.Some? ==> k.value < |accounts| && accounts[k.value].userId == userId
    ensures k.Some? ==> forall j :: 0 <= j < k.value ==> accounts[j].userId != userId
    ensures k.None? <==> forall a :: a in accounts ==> a.userId != userId
  {
    if |accounts| == 0 then
      None
    else if accounts[0].userId == userId then
      Some(0)
    else
      match FindAccount(accounts[1..], userId)
      case None => None
      case Some(k) => Some(k + 1)
  }

  /** The `/customer/balance` route for the authenticated user `userId`. */
  function BalanceOf(accounts: seq<Account>, userId: Id): (r: Result<int, HttpError>)
    ensures r.Success? <==> exists a :: a in accounts && a.userId == userId
    ensures r.Success? ==> exists a :: a in accounts && a.userId == userId && a.balance == r.value
    ensures r.Failure? ==> r.error == HttpError(400, "Account not found")
  {
    match FindAccount(accounts, userId)
    case None => Failure(HttpError(400, "Account not found"))
    case Some(k) => Success(accounts[k].balance)
  }

  /** The transaction belongs to an account of `userId` (the JOIN of the listing query). */
  predicate OwnedBy(accounts: seq<Account>, t: Transaction, userId: Id) {
    exists a :: a in accounts && a.id == t.accountId && a.userId == userId
  }

  /** `SELECT t.* FROM transactions t JOIN accounts a ... WHERE a.user_id = ?
      ORDER BY t.created_at DESC`, over a log kept in creation order: the
      matching entries, last created first. */
  function TransactionsOf(accounts: seq<Account>, log: seq<Transaction>, userId: Id): (r: seq<Transaction>)
    ensures |r| <= |log|
    ensures forall t :: t in r <==> t in log && OwnedBy(accounts, t, userId)
  {
    if |log| == 0 then
      []
    else
      var last := log[|log| - 1];
      var rest := TransactionsOf(accounts, log[..|log| - 1], userId);
      assert forall t :: t in log <==> t in log[..|log| - 1] || t == last;
      if OwnedBy(accounts, last, userId) then [last] + rest else rest
  }

  /** The log is in creation order: timestamps strictly increase. */
  ghost predicate Chronological(log: seq<Transaction>) {
    forall i, j :: 0 <= i < j < |log| ==> log[i].createdAt < log[j].createdAt
  }

  ghost predicate NewestFirst(ts: seq<Transaction>) {
    forall i, j :: 0 <= i < j < |ts| ==> ts[i].createdAt > ts[j].createdAt
  }

  /** Every listing is ordered newest first. */
  lemma {:induction false} TransactionsOfNewestFirst(accounts: seq<Account>, log: seq<Transaction>, userId: Id)
    requires Chronological(log)
    ensures NewestFirst(TransactionsOf(accounts, log, userId))
  {
    if |log| > 0 {
      var init := log[..|log| - 1];
      assert Chronological(init);
      TransactionsOfNewestFirst(accounts, init, userId);
      var rest := TransactionsOf(accounts, init, userId);
      forall t | t in rest ensures t.createdAt < log[|log| - 1].createdAt {
        var i :| 0 <= i < |init| && init[i] == t;
      }
    }
  }

  function Summary(u: User): CustomerSummary {
    CustomerSummary(u.id, u.firstName, u.lastName, u.email, u.age, u.dob, u.createdAt)
  }

  /** `SELECT ... FROM users WHERE role = 'customer'`, mapped to the summary shape. */
  function CustomerSummaries(users: seq<User>): (r: seq<CustomerSummary>)
    ensures |r| <= |users|
    ensures forall u :: u in users && u.role == Customer ==> Summary(u) in r
    ensures forall s :: s in r ==> exists u :: u in users && u.role == Customer && Summary(u) == s
  {
    if |users| == 0 then
      []
    else
      var rest := CustomerSummaries(users[1..]);
      assert forall u :: u in users ==> u == users[0] || u in users[1..];
      if users[0].role == Customer then [Summary(users[0])] + rest else rest
  }

  /** With distinct user ids, the banker's list names each customer once. */
  lemma {:induction false} CustomerSummariesDistinct(users: seq<User>)
    requires DistinctUserIds(users)
    ensures forall i, j :: 0 <= i < j < |CustomerSummaries(users)| ==>
              CustomerSummaries(users)[i].id != CustomerSummaries(users)[j].id
  {
    if |users| > 0 {
      var rest := CustomerSummaries(users[1..]);
      assert DistinctUserIds(users[1..]);
      CustomerSummariesDistinct(users[1..]);
      if users[0].role == Customer {
        forall s | s in rest ensures s.id != users[0].id {
          var u :| u in users[1..] && u.role == Customer && Summary(u) == s;
          var k :| 0 <= k < |users[1..]| && users[1..][k] == u;
          assert u == users[k + 1];
        }
        var r := CustomerSummaries(users);
        assert r == [Summary(users[0])] + rest;
        forall i, j | 0 <= i < j < |r| ensures r[i].id != r[j].id {
          assert r[j] == rest[j - 1];
          if i > 0 {
            assert r[i] == rest[i - 1];
          }
        }
      }
    }
  }

  /** No two user rows share an id. */
  predicate DistinctUserIds(users: seq<User>) {
    forall i, j :: 0 <= i < j < |users| ==> users[i].id != users[j].id
  }

  /** `SELECT ... FROM users WHERE email = ? AND role = ?`, first row: its index. */
  function FindLogin(users: seq<User>, email: string, role: string): (k: Option<nat>)
    ensures k.Some? ==> k.value < |users| && users[k.value].email == email && RoleName(users[k.value].role) == role
    ensures k.Some? ==> forall j :: 0 <= j < k.value ==> !(users[j].email == email && RoleName(users[j].role) == role)
    ensures k.None? <==> forall u :: u in users ==> !(u.email == email && RoleName(u.role) == role)
  {
    if |users| == 0 then
      None
    else if users[0].email == email && RoleName(users[0].role) == role then
      Some(0)
    else
      match FindLogin(users[1..], email, role)
      case None => None
      case Some(k) => Some(k + 1)
  }

  /** The `/login` route. Password hashing is a foreign library, so `matches`
      (does this password hash to that stored value) is an input; token
      signing is left to the caller, which receives the claims to sign. The
      administrator address skips the password comparison. */
  function Login(users: seq<User>, email: string, password: string, role: string,
                 matches: (string, string) -> bool): (r: Result<Session, HttpError>)
    ensures r.Failure? ==> r.error == HttpError(400, "Invalid credentials")
    ensures r.Success? ==> exists u :: u in users && u.email == email && RoleName(u.role) == role
                                     && (email != AdminEmail ==> matches(password, u.passwordHash))
                                     && r.value.claims == Claims(u.id, u.email, u.role)
                                     && r.value.user == UserView(u.id, u.firstName, u.lastName, u.email, u.role)
    ensures (forall u :: u in users ==> !(u.email == email && RoleName(u.role) == role)) ==> r.Failure?
  {
    match FindLogin(users, email, role)
    case None => Failure(HttpError(400, "Invalid credentials"))
    case Some(k) =>
      var u := users[k];
      if email != AdminEmail && !matches(password, u.passwordHash) then
        Failure(HttpError(400, "Invalid credentials"))
      else
        Success(Session(Claims(u.id, u.email, u.role), UserView(u.id, u.firstName, u.lastName, u.email, u.role)))
  }

  /** The administrator address logs in with any password whatsoever. */
  lemma AdminSkipsPassword(users: seq<User>, password: string, role: string, matches: (string, string) -> bool)
    requires exists u :: u in users && u.email == AdminEmail && RoleName(u.role) == role
    ensures Login(users, AdminEmail, password, role, matches).Success?
  {
    var u :| u in users && u.email == AdminEmail && RoleName(u.role) == role;
    assert FindLogin(users, AdminEmail, role).Some?;
  }

  /** With unique emails, any other address logs in exactly when the password
      matches the stored hash of the one user with that email and role. */
  lemma LoginNeedsPassword(users: seq<User>, email: string, password: string, role: string,
                           matches: (string, string) -> bool, u: User)
    requires UniqueEmails(users)
    requires u in users && u.email == email && RoleName(u.role) == role
    requires email != AdminEmail
    ensures Login(users, email, password, role, matches).Success? <==> matches(password, u.passwordHash)
  {
    var k := FindLogin(users, email, role).value;
    var i :| 0 <= i < |users| && users[i] == u;
    assert users[k] == u;
  }

  /** The `/banker/customers/:id` query: the customer row, LEFT JOINed with its account. */
  function CustomerDetailOf(users: seq<User>, accounts: seq<Account>, id: Id): (r: Result<CustomerDetail, HttpError>)
    ensures r.Failure? <==> forall u :: u in users ==> !(u.id == id && u.role == Customer)
    ensures r.Failure? ==> r.error == HttpError(400, "Customer not found")
    ensures r.Success? ==> r.value.summary.id == id &&
                           exists u :: u in users && u.role == Customer && Summary(u) == r.value.summary
    ensures r.Success? ==> (r.value.balance.None? <==> forall a :: a in accounts ==> a.userId != id)
    ensures r.Success? && r.value.balance.Some? ==>
              exists a :: a in accounts && a.userId == id && a.balance == r.value.balance.value
  {
    match FindCustomer(users, id)
    case None => Failure(HttpError(400, "Customer not found"))
    case Some(k) =>
      var balance := match FindAccount(accounts, id)
                     case None => None
                     case Some(j) => Some(accounts[j].balance);
      Success(CustomerDetail(Summary(users[k]), balance))
  }

  function FindCustomer(users: seq<User>, id: Id): (k: Option<nat>)
    ensures k.Some? ==> k.value < |users| && users[k.value].id == id && users[k.value].role == Customer
    ensures k.Some? ==> forall j :: 0 <= j < k.value ==> !(users[j].id == id && users[j].role == Customer)
    ensures k.None? <==> forall u :: u in users ==> !(u.id == id && u.role == Customer)
  {
    if |users| == 0 then
      None
    else if users[0].id == id && users[0].role == Customer then
      Some(0)
    else
      match FindCustomer(users[1..], id)
      case None => None
      case Some(k) => Some(k + 1)
  }

  // ---------------------------------------------------------------------------
  // Ledger arithmetic

  /** The amount an entry adds to its account's balance. */
  function Signed(t: Transaction): int {
    match t.kind
    case Deposit => t.amount
    case Withdraw => -t.amount
  }

  /** The signed sum of the log entries of account `accountId`. */
  function SignedSum(log: seq<Transaction>, accountId: Id): int {
    if |log| == 0 then
      0
    else
      var last := log[|log| - 1];
      SignedSum(log[..|log| - 1], accountId) + (if last.accountId == accountId then Signed(last) else 0)
  }

  /** Appending one entry changes only its own account's sum, by its signed amount. */
  lemma SignedSumAppend(log: seq<Transaction>, t: Transaction, accountId: Id)
    ensures SignedSum(log + [t], accountId) ==
              SignedSum(log, accountId) + (if t.accountId == accountId then Signed(t) else 0)
  {
    assert (log + [t])[..|log|] == log;
  }

  /** An account that no entry mentions sums to zero. */
  lemma {:induction false} SignedSumUnmentioned(log: seq<Transaction>, accountId: Id)
    requires forall t :: t in log ==> t.accountId != accountId
    ensures SignedSum(log, accountId) == 0
  {
    if |log| > 0 {
      SignedSumUnmentioned(log[..|log| - 1], accountId);
    }
  }

  /** The part of an opening amount that no log entry records: the server writes
      the opening balance in all cases but an opening deposit only for a
      positive amount, so a negative amount stays unrecorded. */
  function Unrecorded(initialAmount: int): (u: int)
    ensures u <= 0
    ensures u == 0 <==> initialAmount >= 0
  {
    if initialAmount < 0 then initialAmount else 0
  }

  /** `UPDATE accounts SET balance = ? WHERE id = ?`. */
  function SetBalance(accounts: seq<Account>, accountId: Id, balance: int): (r: seq<Account>)
    ensures |r| == |accounts|
    ensures forall i :: 0 <= i < |r| ==>
              r[i] == if accounts[i].id == accountId then accounts[i].(balance := balance) else accounts[i]
  {
    if |accounts| == 0 then
      []
    else
      var a := accounts[0];
      [if a.id == accountId then a.(balance := balance) else a] + SetBalance(accounts[1..], accountId, balance)
  }

  // ---------------------------------------------------------------------------
  // Table invariants

  ghost predicate UniqueEmails(users: seq<User>) {
    forall i, j :: 0 <= i < j < |users| ==> users[i].email != users[j].email
  }

  /** Users: fresh ids below `nextId`, distinct ids, distinct emails. */
  ghost predicate UsersOk(users: seq<User>, nextId: nat) {
    && (forall u :: u in users ==> u.id < nextId)
    && DistinctUserIds(users)
    && UniqueEmails(users)
  }

  /** Accounts: fresh distinct ids, at most one per user, none orphaned. */
  ghost predicate AccountsOk(users: seq<User>, accounts: seq<Account>, nextId: nat) {
    && (forall a :: a in accounts ==> a.id < nextId && a.userId in UserIds(users))
    && (forall i, j :: 0 <= i < j < |accounts| ==> accounts[i].id != accounts[j].id)
    && (forall i, j :: 0 <= i < j < |accounts| ==> accounts[i].userId != accounts[j].userId)
  }

  /** Log: fresh distinct ids, existing accounts, timestamps below `clock` and increasing. */
  ghost predicate LogOk(accounts: seq<Account>, log: seq<Transaction>, nextId: nat, clock: nat) {
    && (forall t :: t in log ==> t.id < nextId && t.accountId in AccountIds(accounts) && t.createdAt < clock)
    && (forall i, j :: 0 <= i < j < |log| ==> log[i].id != log[j].id)
    && Chronological(log)
  }

  /** Every balance is the signed sum of its log entries plus what its opening left unrecorded. */
  ghost predicate Consistent(accounts: seq<Account>, log: seq<Transaction>, opening: map<Id, int>) {
    forall a :: a in accounts ==>
      a.id in opening && a.balance == SignedSum(log, a.id) + Unrecorded(opening[a.id])
  }

  /** With no negative opening amount, every balance equals the signed sum of its log. */
  lemma BalanceIsSignedSum(accounts: seq<Account>, log: seq<Transaction>, opening: map<Id, int>, a: Account)
    requires Consistent(accounts, log, opening)
    requires a in accounts && opening[a.id] >= 0
    ensures a.balance == SignedSum(log, a.id)
  {
  }

  // ---------------------------------------------------------------------------
  // The store

  class Bank {
    var users: seq<User>
    var accounts: seq<Account>
    var transactions: seq<Transaction>
    /** Ids at or above `nextId` have never been handed out. */
    var nextId: nat
    /** The next `created_at` value; it only grows. */
    var clock: nat
    /** The `initialAmount` each account was opened with. */
    ghost var opening: map<Id, int>

    ghost predicate Valid()
      reads this
    {
      && UsersOk(users, nextId)
      && AccountsOk(users, accounts, nextId)
      && LogOk(accounts, transactions, nextId, clock)
      && Consistent(accounts, transactions, opening)
    }

    constructor ()
      ensures Valid()
      ensures users == [] && accounts == [] && transactions == []
      ensures nextId == 0 && clock == 0 && opening == map[]
    {
      users, accounts, transactions := [], [], [];
      nextId, clock := 0, 0;
      opening := map[];
    }

    /** The `/register` route. `passwordHash` is what the hashing library made
        of the password. */
    method Register(firstName: string, lastName: string, age: int, dob: string, email: string,
                    passwordHash: string, initialAmount: int) returns (r: Result<(), HttpError>)
      requires Valid()
      modifies this
      ensures Valid()
      ensures EmailTaken(old(users), email) ==>
                r == Failure(HttpError(400, "Email already registered")) && unchanged(this)
      ensures !EmailTaken(old(users), email) ==> r.Success?
      ensures r.Success? ==>
                var uid, aid := old(nextId), old(nextId) + 1;
                && uid !in UserIds(old(users)) && aid !in AccountIds(old(accounts))
                && users == old(users) + [User(uid, firstName, lastName, age, dob, email, passwordHash, Customer, old(clock))]
                && accounts == old(accounts) + [Account(aid, uid, initialAmount)]
                && transactions == old(transactions) +
                     (if initialAmount > 0 then [Transaction(old(nextId) + 2, aid, TxKind.Deposit, initialAmount, old(clock))] else [])
                && opening == old(opening)[aid := initialAmount]
    {
      if EmailTaken(users, email) {
        return Failure(HttpError(400, "Email already registered"));
      }
      var userId, accountId := nextId, nextId + 1;
      var user := User(userId, firstName, lastName, age, dob, email, passwordHash, Customer, clock);
      var account := Account(accountId, userId, initialAmount);
      var newLog := transactions;
      if initialAmount > 0 {
        newLog := newLog + [Transaction(nextId + 2, accountId, TxKind.Deposit, initialAmount, clock)];
      }
      RegisterKeepsInvariant(users, accounts, transactions, opening, nextId, clock, user, account, newLog);
      users, accounts, transactions := users + [user], accounts + [account], newLog;
      opening := opening[accountId := initialAmount];
      nextId, clock := nextId + 3, clock + 1;
      r := Success(());
    }

    /** The `/customer/deposit` route for the authenticated user `userId`. */
    method Deposit(userId: Id, amount: int) returns (r: Result<int, HttpError>)
      requires Valid()
      modifies this
      ensures Valid()
      ensures FindAccount(old(accounts), userId).None? ==>
                r == Failure(HttpError(400, "Account not found")) && unchanged(this)
      ensures FindAccount(old(accounts), userId).Some? ==>
                var k := FindAccount(old(accounts), userId).value;
                var acct := old(accounts)[k];
                && r == Success(acct.balance + amount)
                && accounts == old(accounts)[k := acct.(balance := acct.balance + amount)]
                && transactions == old(transactions) + [Transaction(old(nextId), acct.id, TxKind.Deposit, amount, old(clock))]
                && users == old(users) && opening == old(opening)
    {
      var found := FindAccount(accounts, userId);
      if found.None? {
        return Failure(HttpError(400, "Account not found"));
      }
      var acct := accounts[found.value];
      var newBalance := acct.balance + amount;
      Apply(found.value, newBalance, Transaction(nextId, acct.id, TxKind.Deposit, amount, clock));
      r := Success(newBalance);
      assert accounts == old(accounts)[found.value := acct.(balance := newBalance)];
    }

    /** The `/customer/withdraw` route for the authenticated user `userId`. */
    method Withdraw(userId: Id, amount: int) returns (r: Result<int, HttpError>)
      requires Valid()
      modifies this
      ensures Valid()
      ensures FindAccount(old(accounts), userId).None? ==>
                r == Failure(HttpError(400, "Account not found")) && unchanged(this)
      ensures FindAccount(old(accounts), userId).Some? ==>
                var k := FindAccount(old(accounts), userId).value;
                var acct := old(accounts)[k];
                if acct.balance < amount then
                  r == Failure(HttpError(400, "Insufficient funds")) && unchanged(this)
                else
                  && r == Success(acct.balance - amount)
                  && r.value >= 0
                  && accounts == old(accounts)[k := acct.(balance := acct.balance - amount)]
                  && transactions == old(transactions) + [Transaction(old(nextId), acct.id, TxKind.Withdraw, amount, old(clock))]
                  && users == old(users) && opening == old(opening)
    {
      var found := FindAccount(accounts, userId);
      if found.None? {
        return Failure(HttpError(400, "Account not found"));
      }
      var acct := accounts[found.value];
      if acct.balance < amount {
        return Failure(HttpError(400, "Insufficient funds"));
      }
      var newBalance := acct.balance - amount;
      assert newBalance >= 0;
      Apply(found.value, newBalance, Transaction(nextId, acct.id, TxKind.Withdraw, amount, clock));
      r := Success(newBalance);
      assert accounts == old(accounts)[found.value := acct.(balance := newBalance)];
    }

    /** The common commit of deposit and withdraw: one `UPDATE` of account row
        `k` and one `INSERT` of `entry`, which moves the balance by exactly
        the entry's signed amount. */
    method Apply(k: nat, newBalance: int, entry: Transaction)
      requires Valid()
      requires k < |accounts| && entry.accountId == accounts[k].id
      requires entry.id == nextId && entry.createdAt == clock
      requires newBalance == accounts[k].balance + Signed(entry)
      modifies this
      ensures Valid()
      ensures accounts == old(accounts)[k := old(accounts)[k].(balance := newBalance)]
      ensures transactions == old(transactions) + [entry]
      ensures users == old(users) && nextId == old(nextId) + 1 && clock == old(clock) + 1
      ensures opening == old(opening)
    {
      var updated := SetBalance(accounts, entry.accountId, newBalance);
      assert updated == accounts[k := accounts[k].(balance := newBalance)] by {
        forall i | 0 <= i < |accounts| && i != k ensures accounts[i].id != entry.accountId {
          if i < k { assert accounts[i].id != accounts[k].id; } else { assert accounts[k].id != accounts[i].id; }
        }
      }
      ApplyKeepsInvariant(users, accounts, transactions, opening, nextId, clock, k, newBalance, entry);
      accounts, transactions := updated, transactions + [entry];
      nextId, clock := nextId + 1, clock + 1;
    }

    /** The `/customer/balance` route. */
    function CustomerBalance(caller: Claims): (r: Result<int, HttpError>)
      reads this
      ensures r.Success? <==> exists a :: a in accounts && a.userId == caller.id
      ensures r.Success? ==> exists a :: a in accounts && a.userId == caller.id && a.balance == r.value
      ensures r.Failure? ==> r.error == HttpError(400, "Account not found")
    {
      BalanceOf(accounts, caller.id)
    }

    /** The `/customer/transactions` route. */
    function CustomerTransactions(caller: Claims): (r: seq<Transaction>)
      reads this
      ensures forall t :: t in r <==> t in transactions && OwnedBy(accounts, t, caller.id)
    {
      TransactionsOf(accounts, transactions, caller.id)
    }

    /** The `/banker/customers` route. */
    function BankerCustomers(caller: Claims): (r: Result<seq<CustomerSummary>, HttpError>)
      reads this
      ensures caller.role != Banker ==> r == Failure(HttpError(403, "Access denied"))
      ensures caller.role == Banker ==> r.Success?
      ensures r.Success? ==> forall c :: c in r.value <==> exists u :: u in users && u.role == Customer && Summary(u) == c
      ensures r.Success? ==> r.value == CustomerSummaries(users)
      ensures r.Success? && DistinctUserIds(users) ==> forall i, j :: 0 <= i < j < |r.value| ==> r.value[i].id != r.value[j].id
    {
      match BankerGate(caller)
      case Some(e) => Failure(e)
      case None =>
        // the branch only brings CustomerSummariesDistinct into scope for the last ensures
        if DistinctUserIds(users) then
          CustomerSummariesDistinct(users);
          Success(CustomerSummaries(users))
        else
          Success(CustomerSummaries(users))
    }

    /** The `/banker/customers/:id` route. */
    function BankerCustomer(caller: Claims, id: Id): (r: Result<CustomerDetail, HttpError>)
      reads this
      ensures caller.role != Banker ==> r == Failure(HttpError(403, "Access denied"))
      ensures caller.role == Banker ==> r == CustomerDetailOf(users, accounts, id)
    {
      match BankerGate(caller)
      case Some(e) => Failure(e)
      case None => CustomerDetailOf(users, accounts, id)
    }

    /** The `/banker/customers/:id/transactions` route. */
    function BankerCustomerTransactions(caller: Claims, id: Id): (r: Result<seq<Transaction>, HttpError>)
      reads this
      ensures caller.role != Banker ==> r == Failure(HttpError(403, "Access denied"))
      ensures caller.role == Banker ==> r == Success(TransactionsOf(accounts, transactions, id))
    {
      match BankerGate(caller)
      case Some(e) => Failure(e)
      case None => Success(TransactionsOf(accounts, transactions, id))
    }
  }

  /** In a store that keeps its invariant, the balance of an account opened
      with a non-negative amount is the signed sum of its log entries. */
  lemma StoreBalanceIsSignedSum(bank: Bank, a: Account)
    requires bank.Valid() && a in bank.accounts
    requires a.id in bank.opening && bank.opening[a.id] >= 0
    ensures a.balance == SignedSum(bank.transactions, a.id)
  {
    BalanceIsSignedSum(bank.accounts, bank.transactions, bank.opening, a);
  }

  /** Registering with a positive opening amount: the new account's balance
      is recorded in the log as its opening deposit. */
  method OpeningIsLogged() returns (balance: int, logged: int)
    ensures balance == logged == 100
  {
    var bank := new Bank();
    var _ := bank.Register("Ann", "Lee", 30, "1990-01-01", "ann@example.com", "hash", 100);
    assert bank.accounts == [Account(1, 0, 100)];
    assert bank.opening[1] == 100;
    StoreBalanceIsSignedSum(bank, bank.accounts[0]);
    balance := bank.accounts[0].balance;
    logged := SignedSum(bank.transactions, 1);
  }

  /** In a store that keeps its invariant, every transaction listing, the
      customer's own or the banker's view of it, is ordered newest first. */
  lemma ListingIsNewestFirst(bank: Bank, caller: Claims, id: Id)
    requires bank.Valid()
    ensures NewestFirst(bank.CustomerTransactions(caller))
    ensures bank.BankerCustomerTransactions(caller, id).Success? ==>
              NewestFirst(bank.BankerCustomerTransactions(caller, id).value)
  {
    TransactionsOfNewestFirst(bank.accounts, bank.transactions, caller.id);
    TransactionsOfNewestFirst(bank.accounts, bank.transactions, id);
  }

  // ---------------------------------------------------------------------------
  // Preservation of the table invariants

  lemma RegisterKeepsInvariant(users: seq<User>, accounts: seq<Account>, log: seq<Transaction>,
                               opening: map<Id, int>, nextId: nat, clock: nat,
                               user: User, account: Account, newLog: seq<Transaction>)
    requires UsersOk(users, nextId) && AccountsOk(users, accounts, nextId)
    requires LogOk(accounts, log, nextId, clock) && Consistent(accounts, log, opening)
    requires !EmailTaken(users, user.email)
    requires user.id == nextId && user.role == Customer
    requires account == Account(nextId + 1, nextId, account.balance)
    requires newLog == log + (if account.balance > 0
                              then [Transaction(nextId + 2, nextId + 1, Deposit, account.balance, clock)] else [])
    ensures UsersOk(users + [user], nextId + 3)
    ensures AccountsOk(users + [user], accounts + [account], nextId + 3)
    ensures LogOk(accounts + [account], newLog, nextId + 3, clock + 1)
    ensures Consistent(accounts + [account], newLog, opening[account.id := account.balance])
  {
    RegisterKeepsUsers(users, nextId, user);
    RegisterKeepsAccounts(users, accounts, nextId, user, account);
    RegisterKeepsLog(accounts, log, nextId, clock, account, newLog);
    RegisterKeepsConsistency(accounts, log, opening, nextId, clock, account, newLog);
  }

  lemma RegisterKeepsUsers(users: seq<User>, nextId: nat, user: User)
    requires UsersOk(users, nextId)
    requires !EmailTaken(users, user.email) && user.id == nextId
    ensures UsersOk(users + [user], nextId + 3)
  {
    var users' := users + [user];
    forall i, j | 0 <= i < j < |users'| ensures users'[i].email != users'[j].email && users'[i].id != users'[j].id {
      if j == |users| { assert users[i] in users; }
    }
  }

  lemma RegisterKeepsAccounts(users: seq<User>, accounts: seq<Account>, nextId: nat, user: User, account: Account)
    requires UsersOk(users, nextId) && AccountsOk(users, accounts, nextId)
    requires user.id == nextId
    requires account == Account(nextId + 1, nextId, account.balance)
    ensures AccountsOk(users + [user], accounts + [account], nextId + 3)
  {
    var accounts' := accounts + [account];
    assert UserIds(users + [user]) == UserIds(users) + {user.id};
    forall i, j | 0 <= i < j < |accounts'|
      ensures accounts'[i].userId != accounts'[j].userId && accounts'[i].id != accounts'[j].id
    {
      if j == |accounts| { assert accounts[i] in accounts; }
    }
  }

  lemma RegisterKeepsLog(accounts: seq<Account>, log: seq<Transaction>, nextId: nat, clock: nat,
                         account: Account, newLog: seq<Transaction>)
    requires LogOk(accounts, log, nextId, clock)
    requires account == Account(nextId + 1, nextId, account.balance)
    requires newLog == log + (if account.balance > 0
                              then [Transaction(nextId + 2, nextId + 1, Deposit, account.balance, clock)] else [])
    ensures LogOk(accounts + [account], newLog, nextId + 3, clock + 1)
  {
    assert AccountIds(accounts + [account]) == AccountIds(accounts) + {account.id};
    forall i, j | 0 <= i < j < |newLog| ensures newLog[i].createdAt < newLog[j].createdAt {
      if j == |log| { assert log[i] in log; }
    }
  }

  lemma RegisterKeepsConsistency(accounts: seq<Account>, log: seq<Transaction>, opening: map<Id, int>,
                                 nextId: nat, clock: nat, account: Account, newLog: seq<Transaction>)
    requires (forall a :: a in accounts ==> a.id < nextId)
    requires LogOk(accounts, log, nextId, clock) && Consistent(accounts, log, opening)
    requires account == Account(nextId + 1, nextId, account.balance)
    requires newLog == log + (if account.balance > 0
                              then [Transaction(nextId + 2, nextId + 1, Deposit, account.balance, clock)] else [])
    ensures Consistent(accounts + [account], newLog, opening[account.id := account.balance])
  {
    var aid := account.id;
    forall t | t in log ensures t.accountId != aid {
    }
    SignedSumUnmentioned(log, aid);
    var opening' := opening[aid := account.balance];
    // the new entry, if any, mentions the new account only
    forall id ensures SignedSum(newLog, id) == SignedSum(log, id) + (if id == aid && account.balance > 0 then account.balance else 0) {
      if account.balance > 0 {
        SignedSumAppend(log, Transaction(nextId + 2, aid, Deposit, account.balance, clock), id);
      } else {
        assert newLog == log;
      }
    }
    assert account.balance == SignedSum(newLog, aid) + Unrecorded(opening'[aid]);
    forall a | a in accounts
      ensures a.id in opening' && a.balance == SignedSum(newLog, a.id) + Unrecorded(opening'[a.id])
    {
      assert a.id != aid;
    }
  }

  lemma ApplyKeepsInvariant(users: seq<User>, accounts: seq<Account>, log: seq<Transaction>,
                            opening: map<Id, int>, nextId: nat, clock: nat,
                            k: nat, newBalance: int, entry: Transaction)
    requires UsersOk(users, nextId) && AccountsOk(users, accounts, nextId)
    requires LogOk(accounts, log, nextId, clock) && Consistent(accounts, log, opening)
    requires k < |accounts| && entry.accountId == accounts[k].id
    requires entry.id == nextId && entry.createdAt == clock
    requires newBalance == accounts[k].balance + Signed(entry)
    ensures UsersOk(users, nextId + 1)
    ensures AccountsOk(users, accounts[k := accounts[k].(balance := newBalance)], nextId + 1)
    ensures LogOk(accounts[k := accounts[k].(balance := newBalance)], log + [entry], nextId + 1, clock + 1)
    ensures Consistent(accounts[k := accounts[k].(balance := newBalance)], log + [entry], opening)
  {
    var accounts' := accounts[k := accounts[k].(balance := newBalance)];
    assert AccountIds(accounts') == AccountIds(accounts) by {
      forall id | id in AccountIds(accounts) ensures id in AccountIds(accounts') {
        var i :| 0 <= i < |accounts| && accounts[i].id == id;
        assert accounts'[i].id == id;
      }
      forall id | id in AccountIds(accounts') ensures id in AccountIds(accounts) {
        var i :| 0 <= i < |accounts'| && accounts'[i].id == id;
        assert accounts[i].id == id;
      }
    }
    forall a | a in accounts' ensures a.id in opening && a.balance == SignedSum(log + [entry], a.id) + Unrecorded(opening[a.id]) {
      var i :| 0 <= i < |accounts'| && accounts'[i] == a;
      SignedSumAppend(log, entry, a.id);
      assert accounts[i] in accounts;
      if i != k {
        assert accounts[i].id != accounts[k].id;
      }
    }
  }
}
