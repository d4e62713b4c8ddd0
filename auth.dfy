/**
 * The mock session store of lib/auth.ts: one in-memory slot `currentUser`,
 * holding the very object that callers receive and mutate, and one browser
 * storage entry (key "investmentStarsUser") holding a serialized copy.
 */
module Auth {
  import opened Wrappers

  /** The account record (the `User` interface); the storage entry holds one of these. */
  datatype UserRecord = UserRecord(
    id: string,
    username: string,
    email: string,
    agreed: bool,
    invested: real,
    profit: real,
    referralCount: int,
    referralBonus: real,
    firstInvestmentDate: Option<int>)  // milliseconds since the epoch, or null

  datatype AuthError = EmailInUse | InvalidCredentials

  /** The message text each error is thrown with; the model reports the error value itself. */
  function AuthMessage(e: AuthError): string {
    match e
    case EmailInUse => "Email already in use"
    case InvalidCredentials => "Invalid email or password"
  }

  const MsPerDay: int := 24 * 60 * 60 * 1000

  /** The one address the mock registration treats as taken. */
  const TakenEmail: string := "test@example.com"

  const AdminEmail: string := "admin@example.com"
  const AdminPassword: string := "password"
  const DemoEmail: string := "demo@example.com"
  const DemoPassword: string := "demo"

  /** The record a registration creates; `id` stands for the random identifier. */
  function NewAccount(id: string, username: string, email: string, agreed: bool): UserRecord {
    UserRecord(id, username, email, agreed, 0.0, 0.0, 0, 0.0, None)
  }

  /** What `registerUser` resolves with; `password` and `referrerId` are accepted and unused. */
  function Registration(id: string, username: string, email: string, password: string,
                        agreed: bool, referrerId: Option<string>): (r: Result<UserRecord, AuthError>)
    ensures r.Failure? <==> email == TakenEmail
    ensures r.Failure? ==> r.error == EmailInUse
    ensures r.Success? ==>
              && r.value.invested == 0.0 && r.value.profit == 0.0
              && r.value.referralCount == 0 && r.value.referralBonus == 0.0
              && r.value.firstInvestmentDate == None
    ensures r.Success? ==>
              && r.value.id == id && r.value.username == username
              && r.value.email == email && r.value.agreed == agreed
  {
    if email == TakenEmail then Failure(EmailInUse)
    else Success(NewAccount(id, username, email, agreed))
  }

  /** The referrer identifier has no influence on the outcome of a registration. */
  lemma ReferrerIgnored(id: string, username: string, email: string, password: string,
                        agreed: bool, r1: Option<string>, r2: Option<string>)
    ensures Registration(id, username, email, password, agreed, r1)
         == Registration(id, username, email, password, agreed, r2)
  {
  }

  /** What `loginUser` resolves with at time `now`: one of two fixed accounts. */
  function LoginAccount(email: string, password: string, now: int): (r: Result<UserRecord, AuthError>)
    ensures r.Success? <==>
              || (email == AdminEmail && password == AdminPassword)
              || (email == DemoEmail && password == DemoPassword)
    ensures r.Failure? ==> r.error == InvalidCredentials
    ensures r.Success? ==> r.value.email == email
    ensures r.Success? ==>
              r.value.firstInvestmentDate.Some? && r.value.firstInvestmentDate.value < now
  {
    if email == AdminEmail && password == AdminPassword then
      Success(UserRecord("admin123", "admin", AdminEmail, true, 1000.0, 120.0, 5, 50.0,
                         Some(now - 15 * MsPerDay)))
    else if email == DemoEmail && password == DemoPassword then
      Success(UserRecord("demo123", "demo", DemoEmail, true, 500.0, 60.0, 2, 25.0,
                         Some(now - 10 * MsPerDay)))
    else
      Failure(InvalidCredentials)
  }

  /** The balances of the two fixed accounts. */
  lemma LoginBalances(now: int)
    ensures var a := LoginAccount(AdminEmail, AdminPassword, now).value;
            a.invested == 1000.0 && a.profit == 120.0 && a.referralCount == 5 && a.referralBonus == 50.0
            && a.firstInvestmentDate == Some(now - 15 * MsPerDay)
    ensures var d := LoginAccount(DemoEmail, DemoPassword, now).value;
            d.invested == 500.0 && d.profit == 60.0 && d.referralCount == 2 && d.referralBonus == 25.0
            && d.firstInvestmentDate == Some(now - 10 * MsPerDay)
  {
  }

  /** The in-memory user object; every field can be assigned by whoever holds it. */
  class User {
    var id: string
    var username: string
    var email: string
    var agreed: bool
    var invested: real
    var profit: real
    var referralCount: int
    var referralBonus: real
    var firstInvestmentDate: Option<int>

    /** A new object holding `r` (an object literal, or what JSON.parse builds). */
    constructor FromRecord(r: UserRecord)
      ensures Snapshot() == r
    {
      id, username, email, agreed := r.id, r.username, r.email, r.agreed;
      invested, profit := r.invested, r.profit;
      referralCount, referralBonus := r.referralCount, r.referralBonus;
      firstInvestmentDate := r.firstInvestmentDate;
    }

    /** The object's current field values (what JSON.stringify would write). */
    function Snapshot(): UserRecord
      reads this
    {
      UserRecord(id, username, email, agreed, invested, profit,
                 referralCount, referralBonus, firstInvestmentDate)
    }
  }

  /**
   * The module-level `currentUser` slot and the storage entry. `inBrowser` is
   * the `typeof window !== "undefined"` test: outside a browser there is no
   * storage and every storage access is skipped.
   */
  class Session {
    const inBrowser: bool
    var current: User?
    var stored: Option<UserRecord>

    /** The storage entry always mirrors the cached object, and is empty without a browser. */
    ghost predicate Valid()
      reads this, current
    {
      && (inBrowser && current != null ==> stored == Some(current.Snapshot()))
      && (!inBrowser ==> stored == None)
    }

    /** The account `getCurrentUser` would report: the cached object, else the stored copy. */
    function Observed(): Option<UserRecord>
      reads this, current
    {
      if current != null then Some(current.Snapshot())
      else if inBrowser then stored
      else None
    }

    /** A fresh page load: nothing cached; the storage keeps what an earlier visit saved. */
    constructor (inBrowser: bool, saved: Option<UserRecord>)
      ensures Valid()
      ensures this.inBrowser == inBrowser && current == null
      ensures stored == (if inBrowser then saved else None)
      ensures Observed() == stored
    {
      this.inBrowser := inBrowser;
      current := null;
      stored := if inBrowser then saved else None;
    }

    /**
     * `getCurrentUser`: the cached object if there is one; otherwise a new object
     * parsed from storage, which is cached; otherwise null.
     */
    method GetCurrentUser() returns (u: User?)
      requires Valid()
      modifies this
      ensures Valid() && stored == old(stored)
      ensures u == current
      ensures old(current) != null ==> u == old(current)
      ensures old(current) == null && inBrowser && old(stored).Some? ==>
                fresh(u) && u.Snapshot() == old(stored).value
      ensures old(current) == null && !(inBrowser && old(stored).Some?) ==> u == null
      ensures Observed() == old(Observed())
      ensures u == null <==> Observed() == None
      ensures u != null ==> Observed() == Some(u.Snapshot())
    {
      if current != null {
        return current;
      }
      if inBrowser && stored.Some? {
        current := new User.FromRecord(stored.value);
        return current;
      }
      return null;
    }

    /** `registerUser`; `id` stands for the randomly generated identifier. */
    method RegisterUser(username: string, email: string, password: string, agreed: bool,
                        referrerId: Option<string>, id: string) returns (r: Result<User, AuthError>)
      requires Valid()
      modifies this
      ensures Valid()
      ensures match Registration(id, username, email, password, agreed, referrerId)
        case Success(account) =>
          && r.Success? && fresh(r.value) && current == r.value
          && r.value.Snapshot() == account && Observed() == Some(account)
          && stored == (if inBrowser then Some(account) else None)
        case Failure(e) =>
          && r == Failure(e)
          && current == old(current) && stored == old(stored) && Observed() == old(Observed())
    {
      if email == TakenEmail {
        return Failure(EmailInUse);
      }
      var user := new User.FromRecord(NewAccount(id, username, email, agreed));
      current := user;
      if inBrowser {
        stored := Some(user.Snapshot());
      }
      return Success(user);
    }

    /** `loginUser` at time `now`. */
    method LoginUser(email: string, password: string, now: int) returns (r: Result<User, AuthError>)
      requires Valid()
      modifies this
      ensures Valid()
      ensures match LoginAccount(email, password, now)
        case Success(account) =>
          && r.Success? && fresh(r.value) && current == r.value
          && r.value.Snapshot() == account && Observed() == Some(account)
          && stored == (if inBrowser then Some(account) else None)
        case Failure(e) =>
          && r == Failure(e)
          && current == old(current) && stored == old(stored) && Observed() == old(Observed())
    {
      var account := LoginAccount(email, password, now);
      if account.Failure? {
        return Failure(account.error);
      }
      var user := new User.FromRecord(account.value);
      current := user;
      if inBrowser {
        stored := Some(user.Snapshot());
      }
      return Success(user);
    }

    /** `logoutUser`: both slots are emptied. */
    method LogoutUser()
      requires Valid()
      modifies this
      ensures Valid()
      ensures current == null && stored == None && Observed() == None
    {
      current := null;
      if inBrowser {
        stored := None;
      }
    }
  }

  /** After a logout, `getCurrentUser` reports nobody, both at once and on a fresh page load. */
  method LogoutThenGetCurrentUser(s: Session) returns (u: User?, reloaded: User?)
    requires s.Valid()
    modifies s
    ensures u == null && reloaded == null
  {
    s.LogoutUser();
    u := s.GetCurrentUser();
    var next := new Session(s.inBrowser, s.stored);
    reloaded := next.GetCurrentUser();
  }

  /** Two calls in a row return the same object, and neither changes storage or the reported account. */
  method GetCurrentUserTwice(s: Session) returns (first: User?, second: User?)
    requires s.Valid()
    modifies s
    ensures first == second
    ensures s.stored == old(s.stored) && s.Observed() == old(s.Observed())
  {
    first := s.GetCurrentUser();
    second := s.GetCurrentUser();
  }
}
