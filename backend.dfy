/** The Express request handlers of server/server.js over in-memory
    collections. The `users` collection is a map by email (register refuses
    duplicates), `portfolios` a map by owning user id, the `wallets` document
    of admin_data a map by wallet id and the `investmentPlans` document its
    array of plans. Every handler is one atomic step that returns its status
    code. bcrypt.compare, bcrypt.hash and jwt.verify are fixed functions given
    to the constructor; each new ObjectId is drawn from the counter nextId. */
module Backend {
  import opened Common
  import opened Auth
  import opened Ledger
  import opened Accounts

  datatype Wallet = Wallet(
    id: nat,
    name: string,
    address: string,
    balance: int,
    currency: string,
    isActive: bool,
    lastUpdated: nat)

  datatype Plan = Plan(
    id: nat,
    name: string,
    minAmount: int,
    maxAmount: int,
    profitPercentage: int,
    profitType: string,
    duration: nat,         // days
    description: string,
    isActive: bool)

  /** The investment record the invest handler answers with. */
  datatype InvestmentRecord = InvestmentRecord(
    id: nat,               // Date.now()
    userId: nat,
    planId: nat,
    amount: int,
    walletId: nat,
    startMs: nat,
    endMs: nat,
    status: string,
    profitPercentage: int,
    profitType: string)

  /** The first plan with the given id, as Array.prototype.find returns it.
      Whether the plan is active is not looked at. */
  function FindPlan(plans: seq<Plan>, id: nat): (r: Option<Plan>)
    ensures r.Some? ==> r.value in plans && r.value.id == id
    ensures r.None? <==> forall i :: 0 <= i < |plans| ==> plans[i].id != id
    ensures r.Some? ==> exists i :: 0 <= i < |plans| && plans[i] == r.value &&
                                    (forall j :: 0 <= j < i ==> plans[j].id != id)
  {
    if plans == [] then None
    else if plans[0].id == id then Some(plans[0])
    else
      var r := FindPlan(plans[1..], id);
      assert r.Some? ==> exists i :: 0 <= i < |plans| && plans[i] == r.value &&
                                     (forall j :: 0 <= j < i ==> plans[j].id != id) by {
        if r.Some? {
          var i :| 0 <= i < |plans[1..]| && plans[1..][i] == r.value &&
            forall j :: 0 <= j < i ==> plans[1..][j].id != id;
          assert forall j :: 0 <= j < i + 1 ==> plans[j].id != id by {
            forall j | 0 <= j < i + 1 ensures plans[j].id != id {
              if j > 0 { assert plans[j] == plans[1..][j - 1]; }
            }
          }
        }
      }
      r
  }

  /** The wallet with the given id, provided it is active. */
  function FindActiveWallet(wallets: map<nat, Wallet>, id: nat): (r: Option<Wallet>)
    ensures r.Some? <==> id in wallets && wallets[id].isActive
    ensures r.Some? ==> r.value == wallets[id]
  {
    if id in wallets && wallets[id].isActive then Some(wallets[id]) else None
  }

  /** GET /api/user/plans: the active plans, in the stored order. */
  function ActivePlans(plans: seq<Plan>): (r: seq<Plan>)
    ensures forall p :: p in r <==> p in plans && p.isActive
    ensures IsSubsequence(r, plans)
    ensures forall p :: multiset(r)[p] == if p.isActive then multiset(plans)[p] else 0
  {
    var keep := (p: Plan) => p.isActive;
    FilterIsSubsequence(plans, keep);
    forall p ensures p in Filter(plans, keep) <==> p in plans && p.isActive {
      FilterMembership(plans, keep, p);
    }
    forall p ensures multiset(Filter(plans, keep))[p] == if p.isActive then multiset(plans)[p] else 0 {
      FilterCount(plans, keep, p);
    }
    Filter(plans, keep)
  }

  /** Why an investment request is turned down. */
  datatype InvestRefusal = PlanNotFound | WalletNotFoundOrInactive | OutsidePlanLimits | InsufficientWalletBalance

  /** A missing plan or wallet is a 404, a request the plan or the wallet
      cannot cover a 400. */
  function RefusalStatus(r: InvestRefusal): (status: int)
    ensures status == NOT_FOUND <==> r == PlanNotFound || r == WalletNotFoundOrInactive
    ensures status == BAD_REQUEST <==> r == OutsidePlanLimits || r == InsufficientWalletBalance
  {
    match r
    case PlanNotFound => NOT_FOUND
    case WalletNotFoundOrInactive => NOT_FOUND
    case OutsidePlanLimits => BAD_REQUEST
    case InsufficientWalletBalance => BAD_REQUEST
  }

  /** The guard chain of POST /api/user/invest, in the order the handler runs
      it: the first failing check decides the answer. */
  function InvestCheck(plan: Option<Plan>, wallet: Option<Wallet>, amount: int): (r: Option<InvestRefusal>)
    ensures r.None? <==>
      plan.Some? && wallet.Some? && plan.value.minAmount <= amount <= plan.value.maxAmount && wallet.value.balance >= amount
    ensures plan.None? ==> r == Some(PlanNotFound)
    ensures plan.Some? && wallet.None? ==> r == Some(WalletNotFoundOrInactive)
    ensures plan.Some? && wallet.Some? && !(plan.value.minAmount <= amount <= plan.value.maxAmount) ==>
              r == Some(OutsidePlanLimits)
    ensures plan.Some? && wallet.Some? && plan.value.minAmount <= amount <= plan.value.maxAmount && wallet.value.balance < amount ==>
              r == Some(InsufficientWalletBalance)
  {
    if plan.None? then Some(PlanNotFound)
    else if wallet.None? then Some(WalletNotFoundOrInactive)
    else if amount < plan.value.minAmount || amount > plan.value.maxAmount then Some(OutsidePlanLimits)
    else if wallet.value.balance < amount then Some(InsufficientWalletBalance)
    else None
  }

  /** The investment record: it runs for the plan's duration in days from now. */
  function NewInvestment(userId: nat, plan: Plan, amount: int, walletId: nat, now: nat): (inv: InvestmentRecord)
    ensures inv.endMs - inv.startMs == plan.duration * MS_PER_DAY
    ensures inv.status == "active" && inv.planId == plan.id && inv.amount == amount
  {
    InvestmentRecord(now, userId, plan.id, amount, walletId, now, now + plan.duration * MS_PER_DAY,
                     "active", plan.profitPercentage, plan.profitType)
  }

  /** No two users in the map share an id. */
  ghost predicate DistinctIds(users: map<string, User>)
  {
    forall e, f :: e in users && f in users && users[e].id == users[f].id ==> e == f
  }

  /** Rewriting a user's document under the same id keeps the ids distinct. */
  lemma ReplaceKeepsDistinctIds(users: map<string, User>, email: string, u: User)
    requires DistinctIds(users) && email in users && u.id == users[email].id
    ensures DistinctIds(users[email := u])
  {
  }

  class Server {
    const compare: (string, string) -> bool     // bcrypt.compare(plain, hash)
    const hash: string -> string                 // bcrypt.hash(plain, 10)
    const verify: string -> Option<Claims>       // jwt.verify(token, JWT_SECRET)

    var users: map<string, User>
    var portfolios: map<nat, Portfolio>
    var wallets: map<nat, Wallet>
    var plans: seq<Plan>
    var nextId: nat

    /** Users are stored under their own email, every stored id was issued by
        the id counter, no two users share an id, and every portfolio keeps
        the ledger invariant. */
    ghost predicate Valid()
      reads this
    {
      && (forall e :: e in users ==> users[e].email == e && users[e].id < nextId)
      && DistinctIds(users)
      && (forall u :: u in portfolios ==> u < nextId && portfolios[u].userId == u && Consistent(portfolios[u]))
      && (forall w :: w in wallets ==> w < nextId && wallets[w].id == w)
      && (forall i :: 0 <= i < |plans| ==> plans[i].id < nextId)
    }

    constructor (compare: (string, string) -> bool, hash: string -> string, verify: string -> Option<Claims>)
      ensures Valid()
      ensures this.compare == compare && this.hash == hash && this.verify == verify
      ensures users == map[] && portfolios == map[] && wallets == map[] && plans == [] && nextId == 0
    {
      this.compare, this.hash, this.verify := compare, hash, verify;
      users, portfolios, wallets, plans, nextId := map[], map[], map[], [], 0;
    }

    /** POST /api/auth/login */
    method Login(email: string, password: string, rememberMe: bool, now: nat) returns (status: int, body: LoginBody)
      requires Valid()
      modifies this
      ensures Valid()
      ensures email !in old(users) ==> body == BadCredentials && users == old(users)
      ensures email in old(users) ==>
        var u := old(users)[email];
        var r := LoginSpec(u, compare(password, u.passwordHash), now, rememberMe);
        body == r.body && users == old(users)[email := r.user]
      ensures status == StatusOf(body)
      ensures portfolios == old(portfolios) && wallets == old(wallets) && plans == old(plans) && nextId == old(nextId)
    {
      if email !in users {
        return UNAUTHORIZED, BadCredentials;
      }
      var user := users[email];
      if IsLocked(user, now) {
        return FORBIDDEN, LockedFor(MinutesUntil(user.lockUntil.value, now));
      }
      var isValidPassword := compare(password, user.passwordHash);
      if !isValidPassword {
        var failedLoginAttempts := user.failedLoginAttempts + 1;
        if failedLoginAttempts >= MAX_ATTEMPTS {
          ReplaceKeepsDistinctIds(users, email, user.(lockUntil := Some(now + LOCK_MS), failedLoginAttempts := user.failedLoginAttempts + 1));
          users := users[email := user.(lockUntil := Some(now + LOCK_MS), failedLoginAttempts := user.failedLoginAttempts + 1)];
          return FORBIDDEN, LockedOut;
        }
        ReplaceKeepsDistinctIds(users, email, user.(failedLoginAttempts := failedLoginAttempts));
        users := users[email := user.(failedLoginAttempts := failedLoginAttempts)];
        return UNAUTHORIZED, BadCredentials;
      }
      if !user.isVerified {
        return UNAUTHORIZED, EmailUnverified;
      }
      ReplaceKeepsDistinctIds(users, email, user.(failedLoginAttempts := 0, lockUntil := None));
      users := users[email := user.(failedLoginAttempts := 0, lockUntil := None)];
      return OK, SessionIssued(Claims(user.id, user.email, user.role), SessionMaxAge(rememberMe));
    }

    /** POST /api/auth/register */
    method Register(email: string, password: string, firstName: string, lastName: string,
                    phone: string, dateOfBirth: string) returns (status: int)
      requires Valid()
      modifies this
      ensures Valid()
      ensures email in old(users) ==>
        status == BAD_REQUEST && users == old(users) && portfolios == old(portfolios) && nextId == old(nextId)
      ensures email !in old(users) ==>
        && status == CREATED
        && nextId == old(nextId) + 1
        && users == old(users)[email := NewUser(old(nextId), email, hash(password), firstName, lastName, phone, dateOfBirth)]
        && portfolios == old(portfolios)[old(nextId) := ZeroPortfolio(old(nextId))]
        && |users| == |old(users)| + 1 && |portfolios| == |old(portfolios)| + 1
      ensures wallets == old(wallets) && plans == old(plans)
    {
      if email in users {
        return BAD_REQUEST;
      }
      var hashedPassword := hash(password);
      var id := nextId;
      nextId := nextId + 1;
      users := users[email := NewUser(id, email, hashedPassword, firstName, lastName, phone, dateOfBirth)];
      portfolios := portfolios[id := ZeroPortfolio(id)];
      return CREATED;
    }

    /** POST /api/auth/forgot-password: 200 when the e-mail belongs to a user,
        404 otherwise. No e-mail is sent and nothing is stored. */
    method ForgotPassword(email: string) returns (status: int)
      ensures status == OK <==> email in users
      ensures status == NOT_FOUND <==> email !in users
    {
      if email in users {
        return OK;
      }
      return NOT_FOUND;
    }

    /** The Google strategy followed by GET /auth/google/callback: the user
        with the profile's e-mail, or else a new verified account with a
        zeroed portfolio, is given a one-day session. */
    method GoogleSignIn(email: string, firstName: string, lastName: string)
      returns (user: User, claims: Claims, maxAgeMs: nat)
      requires Valid()
      modifies this
      ensures Valid()
      ensures email in old(users) ==>
        user == old(users)[email] && users == old(users) && portfolios == old(portfolios) && nextId == old(nextId)
      ensures email !in old(users) ==>
        && user == GoogleUser(old(nextId), email, firstName, lastName)
        && nextId == old(nextId) + 1
        && users == old(users)[email := user]
        && portfolios == old(portfolios)[old(nextId) := ZeroPortfolio(old(nextId))]
      ensures claims == Claims(user.id, user.email, user.role) && maxAgeMs == MS_PER_DAY
      ensures wallets == old(wallets) && plans == old(plans)
    {
      if email in users {
        user := users[email];
      } else {
        var id := nextId;
        nextId := nextId + 1;
        user := GoogleUser(id, email, firstName, lastName);
        users := users[email := user];
        portfolios := portfolios[id := ZeroPortfolio(id)];
      }
      claims := Claims(user.id, user.email, user.role);
      maxAgeMs := SessionMaxAge(false);
    }

    /** POST /api/auth/verify-email */
    method VerifyEmail(email: string) returns (status: int)
      requires Valid()
      modifies this
      ensures Valid()
      ensures email in old(users) ==> status == OK && users == old(users)[email := old(users)[email].(isVerified := true)]
      ensures email !in old(users) ==> status == NOT_FOUND && users == old(users)
      ensures portfolios == old(portfolios) && wallets == old(wallets) && plans == old(plans) && nextId == old(nextId)
    {
      if email !in users {
        return NOT_FOUND;
      }
      users := users[email := users[email].(isVerified := true)];
      return OK;
    }

    /** POST /api/auth/verify-2fa: a mock that accepts the code 123456 only. */
    method Verify2FA(cred: Credentials, code: string) returns (status: int)
      ensures Authenticate(cred, verify).Failure? ==> status == Authenticate(cred, verify).error
      ensures Authenticate(cred, verify).Success? ==> (status == OK <==> code == "123456")
      ensures Authenticate(cred, verify).Success? && code != "123456" ==> status == UNAUTHORIZED
    {
      var auth := Authenticate(cred, verify);
      if auth.Failure? {
        return auth.error;
      }
      status := if code == "123456" then OK else UNAUTHORIZED;
    }

    /** GET /api/user/portfolio */
    method GetPortfolio(cred: Credentials) returns (status: int, portfolio: Option<Portfolio>)
      ensures Authenticate(cred, verify).Failure? ==> status == Authenticate(cred, verify).error && portfolio.None?
      ensures Authenticate(cred, verify).Success? ==>
        var uid := Authenticate(cred, verify).value.id;
        if uid in portfolios then status == OK && portfolio == Some(portfolios[uid])
        else status == NOT_FOUND && portfolio.None?
    {
      var auth := Authenticate(cred, verify);
      if auth.Failure? {
        return auth.error, None;
      }
      if auth.value.id in portfolios {
        return OK, Some(portfolios[auth.value.id]);
      }
      return NOT_FOUND, None;
    }

    /** GET /api/user/transactions: an empty list when there is no portfolio. */
    method GetTransactions(cred: Credentials) returns (status: int, txns: seq<Transaction>)
      ensures Authenticate(cred, verify).Failure? ==> status == Authenticate(cred, verify).error && txns == []
      ensures Authenticate(cred, verify).Success? ==>
        var uid := Authenticate(cred, verify).value.id;
        status == OK && txns == (if uid in portfolios then portfolios[uid].transactions else [])
    {
      var auth := Authenticate(cred, verify);
      if auth.Failure? {
        return auth.error, [];
      }
      if auth.value.id in portfolios {
        return OK, portfolios[auth.value.id].transactions;
      }
      return OK, [];
    }

    /** POST /api/user/deposit. The response carries the portfolio as it was
        read, before the update. */
    method Deposit(cred: Credentials, amount: int, now: nat) returns (status: int, shown: Option<Portfolio>)
      requires Valid()
      modifies this
      ensures Valid()
      ensures Authenticate(cred, verify).Failure? ==>
        status == Authenticate(cred, verify).error && shown.None? && portfolios == old(portfolios)
      ensures Authenticate(cred, verify).Success? ==>
        var uid := Authenticate(cred, verify).value.id;
        if uid !in old(portfolios) then status == NOT_FOUND && shown.None? && portfolios == old(portfolios)
        else
          && status == OK && shown == Some(old(portfolios)[uid])
          && portfolios == old(portfolios)[uid := Deposited(old(portfolios)[uid], amount, DayOf(now))]
      ensures users == old(users) && wallets == old(wallets) && plans == old(plans) && nextId == old(nextId)
    {
      var auth := Authenticate(cred, verify);
      if auth.Failure? {
        return auth.error, None;
      }
      var uid := auth.value.id;
      if uid !in portfolios {
        return NOT_FOUND, None;
      }
      var portfolio := portfolios[uid];
      portfolios := portfolios[uid := Deposited(portfolio, amount, DayOf(now))];
      return OK, Some(portfolio);
    }

    /** POST /api/user/withdraw. A missing portfolio and insufficient cash both
        answer 400 "Insufficient funds". */
    method Withdraw(cred: Credentials, amount: int, now: nat) returns (status: int, shown: Option<Portfolio>)
      requires Valid()
      modifies this
      ensures Valid()
      ensures Authenticate(cred, verify).Failure? ==>
        status == Authenticate(cred, verify).error && shown.None? && portfolios == old(portfolios)
      ensures Authenticate(cred, verify).Success? ==>
        var uid := Authenticate(cred, verify).value.id;
        if uid !in old(portfolios) || old(portfolios)[uid].availableCash < amount then
          status == BAD_REQUEST && shown.None? && portfolios == old(portfolios)
        else
          && status == OK && shown == Some(old(portfolios)[uid])
          && portfolios == old(portfolios)[uid := Withdrawn(old(portfolios)[uid], amount, DayOf(now))]
      ensures users == old(users) && wallets == old(wallets) && plans == old(plans) && nextId == old(nextId)
    {
      var auth := Authenticate(cred, verify);
      if auth.Failure? {
        return auth.error, None;
      }
      var uid := auth.value.id;
      if uid in portfolios && portfolios[uid].availableCash >= amount {
        var portfolio := portfolios[uid];
        portfolios := portfolios[uid := Withdrawn(portfolio, amount, DayOf(now))];
        return OK, Some(portfolio);
      }
      return BAD_REQUEST, None;
    }

    /** POST /api/user/invest. On success the wallet is debited, and the
        portfolio, when the user has one, is credited; without a portfolio the
        answer is still a success. */
    method Invest(cred: Credentials, planId: nat, amount: int, walletId: nat, now: nat)
      returns (status: int, investment: Option<InvestmentRecord>, remainingBalance: Option<int>)
      requires Valid()
      modifies this
      ensures Valid()
      ensures Authenticate(cred, verify).Failure? ==>
        && status == Authenticate(cred, verify).error && investment.None? && remainingBalance.None?
        && wallets == old(wallets) && portfolios == old(portfolios)
      ensures Authenticate(cred, verify).Success? ==>
        var plan := FindPlan(old(plans), planId);
        var wallet := FindActiveWallet(old(wallets), walletId);
        && (plan.None? || wallet.None? ==> status == NOT_FOUND)
        && (plan.Some? && wallet.Some? && !(plan.value.minAmount <= amount <= plan.value.maxAmount) ==>
              status == BAD_REQUEST)
        && (plan.Some? && wallet.Some? && wallet.value.balance < amount ==> status == BAD_REQUEST)
      ensures Authenticate(cred, verify).Success? ==>
        var uid := Authenticate(cred, verify).value.id;
        var plan := FindPlan(old(plans), planId);
        var wallet := FindActiveWallet(old(wallets), walletId);
        match InvestCheck(plan, wallet, amount)
        case Some(refusal) =>
          status == RefusalStatus(refusal) && investment.None? && remainingBalance.None?
          && wallets == old(wallets) && portfolios == old(portfolios)
        case None =>
          && status == OK
          && wallets == old(wallets)[walletId := wallet.value.(balance := wallet.value.balance - amount, lastUpdated := now)]
          && portfolios == (if uid in old(portfolios)
                            then old(portfolios)[uid := Invested(old(portfolios)[uid], amount, DayOf(now), plan.value.name)]
                            else old(portfolios))
          && investment == Some(NewInvestment(uid, plan.value, amount, walletId, now))
          && remainingBalance == Some(wallet.value.balance - amount)
      ensures users == old(users) && plans == old(plans) && nextId == old(nextId)
    {
      var auth := Authenticate(cred, verify);
      if auth.Failure? {
        return auth.error, None, None;
      }
      var uid := auth.value.id;
      var plan := FindPlan(plans, planId);
      var wallet := FindActiveWallet(wallets, walletId);
      var refusal := InvestCheck(plan, wallet, amount);
      if refusal.Some? {
        return RefusalStatus(refusal.value), None, None;
      }
      wallets := wallets[walletId := wallet.value.(balance := wallet.value.balance - amount, lastUpdated := now)];
      var inv := NewInvestment(uid, plan.value, amount, walletId, now);
      if uid in portfolios {
        portfolios := portfolios[uid := Invested(portfolios[uid], amount, DayOf(now), plan.value.name)];
      }
      return OK, Some(inv), Some(wallet.value.balance - amount);
    }

    /** POST /api/admin/wallets: a new active wallet with zero balance; the
        currency defaults to BTC. */
    method AddWallet(cred: Credentials, name: string, address: string, currency: string, now: nat)
      returns (status: int, wallet: Option<Wallet>)
      requires Valid()
      modifies this
      ensures Valid()
      ensures AuthorizeAdmin(cred, verify).Failure? ==>
        status == AuthorizeAdmin(cred, verify).error && wallet.None? && wallets == old(wallets) && nextId == old(nextId)
      ensures AuthorizeAdmin(cred, verify).Success? ==>
        && status == OK && nextId == old(nextId) + 1
        && wallet == Some(Wallet(old(nextId), name, address, 0, if currency == "" then "BTC" else currency, true, now))
        && old(nextId) !in old(wallets)
        && wallets == old(wallets)[old(nextId) := wallet.value]
      ensures users == old(users) && portfolios == old(portfolios) && plans == old(plans)
    {
      var auth := AuthorizeAdmin(cred, verify);
      if auth.Failure? {
        return auth.error, None;
      }
      var w := Wallet(nextId, name, address, 0, if currency == "" then "BTC" else currency, true, now);
      wallets := wallets[nextId := w];
      nextId := nextId + 1;
      return OK, Some(w);
    }

    /** PUT /api/admin/users/:id/status: `$set` of the status on the user with
        that id, answered with the updated user; 404 when there is none. */
    method UpdateUserStatus(cred: Credentials, id: nat, newStatus: string) returns (status: int, user: Option<User>)
      requires Valid()
      modifies this
      ensures Valid()
      ensures AuthorizeAdmin(cred, verify).Failure? ==>
        status == AuthorizeAdmin(cred, verify).error && user.None? && users == old(users)
      ensures AuthorizeAdmin(cred, verify).Success? && (forall e :: e in old(users) ==> old(users)[e].id != id) ==>
        status == NOT_FOUND && user.None? && users == old(users)
      ensures AuthorizeAdmin(cred, verify).Success? && (exists e :: e in old(users) && old(users)[e].id == id) ==>
        && status == OK && user.Some?
        && forall e :: e in old(users) && old(users)[e].id == id ==>
                       user.value == old(users)[e].(status := Some(newStatus)) &&
                       users == old(users)[e := user.value]
      ensures portfolios == old(portfolios) && wallets == old(wallets) && plans == old(plans) && nextId == old(nextId)
    {
      var auth := AuthorizeAdmin(cred, verify);
      if auth.Failure? {
        return auth.error, None;
      }
      if e :| e in users && users[e].id == id {
        var updated := users[e].(status := Some(newStatus));
        users := users[e := updated];
        return OK, Some(updated);
      }
      return NOT_FOUND, None;
    }

    /** DELETE /api/admin/wallets/:id: `$pull`, 404 when nothing was removed. */
    method DeleteWallet(cred: Credentials, id: nat) returns (status: int)
      requires Valid()
      modifies this
      ensures Valid()
      ensures AuthorizeAdmin(cred, verify).Failure? ==> status == AuthorizeAdmin(cred, verify).error && wallets == old(wallets)
      ensures AuthorizeAdmin(cred, verify).Success? ==>
        && (status == OK <==> id in old(wallets))
        && (status != OK ==> status == NOT_FOUND)
        && wallets == old(wallets) - {id}
      ensures users == old(users) && portfolios == old(portfolios) && plans == old(plans) && nextId == old(nextId)
    {
      var auth := AuthorizeAdmin(cred, verify);
      if auth.Failure? {
        return auth.error;
      }
      var removed := id in wallets;
      wallets := wallets - {id};
      status := if removed then OK else NOT_FOUND;
    }

    /** PUT /api/admin/wallets/:id: a stub whose lookup is always null, so an
        authorised request always gets 404 and nothing changes. */
    method UpdateWallet(cred: Credentials, id: nat, name: string, address: string,
                        balance: Option<int>, isActive: Option<bool>) returns (status: int)
      ensures AuthorizeAdmin(cred, verify).Failure? ==> status == AuthorizeAdmin(cred, verify).error
      ensures AuthorizeAdmin(cred, verify).Success? ==> status == NOT_FOUND
    {
      var auth := AuthorizeAdmin(cred, verify);
      if auth.Failure? {
        return auth.error;
      }
      // the lookup of the stored wallet is the constant null
      return NOT_FOUND;
    }

    /** POST /api/admin/plans: the new plan is appended, active. */
    method AddPlan(cred: Credentials, name: string, minAmount: int, maxAmount: int, profitPercentage: int,
                   profitType: string, duration: nat, description: string) returns (status: int, plan: Option<Plan>)
      requires Valid()
      modifies this
      ensures Valid()
      ensures AuthorizeAdmin(cred, verify).Failure? ==>
        status == AuthorizeAdmin(cred, verify).error && plan.None? && plans == old(plans) && nextId == old(nextId)
      ensures AuthorizeAdmin(cred, verify).Success? ==>
        && status == OK && nextId == old(nextId) + 1
        && plan == Some(Plan(old(nextId), name, minAmount, maxAmount, profitPercentage, profitType, duration, description, true))
        && plans == old(plans) + [plan.value]
      ensures users == old(users) && portfolios == old(portfolios) && wallets == old(wallets)
    {
      var auth := AuthorizeAdmin(cred, verify);
      if auth.Failure? {
        return auth.error, None;
      }
      var p := Plan(nextId, name, minAmount, maxAmount, profitPercentage, profitType, duration, description, true);
      plans := plans + [p];
      nextId := nextId + 1;
      return OK, Some(p);
    }

    /** PUT /api/admin/plans/:id: a stub like UpdateWallet, always 404. */
    method UpdatePlan(cred: Credentials, id: nat) returns (status: int)
      ensures AuthorizeAdmin(cred, verify).Failure? ==> status == AuthorizeAdmin(cred, verify).error
      ensures AuthorizeAdmin(cred, verify).Success? ==> status == NOT_FOUND
    {
      var auth := AuthorizeAdmin(cred, verify);
      if auth.Failure? {
        return auth.error;
      }
      // the lookup of the stored plan is the constant null
      return NOT_FOUND;
    }

    /** GET /api/user/plans: any authenticated user sees the active plans. */
    method UserPlans(cred: Credentials) returns (status: int, active: seq<Plan>)
      ensures Authenticate(cred, verify).Failure? ==> status == Authenticate(cred, verify).error && active == []
      ensures Authenticate(cred, verify).Success? ==>
        && status == OK
        && (forall p :: p in active <==> p in plans && p.isActive)
        && IsSubsequence(active, plans)
        && (forall p :: multiset(active)[p] == if p.isActive then multiset(plans)[p] else 0)
    {
      var auth := Authenticate(cred, verify);
      if auth.Failure? {
        return auth.error, [];
      }
      return OK, ActivePlans(plans);
    }
  }
}
