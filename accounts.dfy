/** The account directory (src/accounts.ts): an in-memory store from account
    id to account, first-match lookup by username, credential check, partial
    profile update, the claims projection and the all-or-nothing initial load.

    `Store` is the directory as a value (ids in enumeration order and the
    profile stored under each) and the functions on it say what each lookup
    means; `Directory` is the mutable store itself, holding `MockAccount`
    objects, and its methods are proved against those functions. */
module Accounts {
  import opened Wrappers
  import opened Types

  /** One entry of the directory, as a value. */
  datatype Account = Account(accountId: string, profile: UserProfile)

  /** The directory as a value. `order` is the enumeration order of the ids:
      insertion order, an overwritten id keeping its first position. */
  datatype Store = Store(order: seq<string>, profiles: map<string, UserProfile>) {
    ghost predicate Valid()
    {
      && (forall i, j :: 0 <= i < j < |order| ==> order[i] != order[j])
      && (forall id :: id in profiles <==> id in order)
    }

    /* -------------------------------------------------------------------
       Lookup by id (src/accounts.ts:42-47)
       ------------------------------------------------------------------- */

    function FindAccount(id: string): Result<Account, string>
    {
      if id in profiles then Ok(Account(id, profiles[id])) else Err(NotFoundById(id))
    }

    /** The constructor's `accounts[id] = this`: insert, or overwrite in place. */
    function Insert(id: string, p: UserProfile): (r: Store)
      ensures Valid() ==> r.Valid()
      ensures id in profiles ==> r.order == order
    {
      Store(if id in profiles then order else order + [id], profiles[id := p])
    }

    /* -------------------------------------------------------------------
       First match by username (src/accounts.ts:49-69)
       ------------------------------------------------------------------- */

    /** The account at position `k` of the enumeration has username `login`. */
    predicate IsMatch(login: string, k: nat)
      requires k < |order|
    {
      order[k] in profiles && profiles[order[k]].username == login
    }

    /** Position `k` holds the first account, in enumeration order, with
        username `login`. */
    ghost predicate IsFirstMatch(login: string, k: nat)
    {
      k < |order| && IsMatch(login, k) && forall j :: 0 <= j < k ==> !IsMatch(login, j)
    }

    /** `Array.prototype.find` from position `i` on. */
    function FirstMatchFrom(login: string, i: nat): (r: Option<nat>)
      requires i <= |order|
      ensures r.Some? ==> i <= r.value < |order| && IsMatch(login, r.value)
      ensures r.Some? ==> forall j :: i <= j < r.value ==> !IsMatch(login, j)
      ensures r.None? ==> forall j :: i <= j < |order| ==> !IsMatch(login, j)
      decreases |order| - i
    {
      if i == |order| then None
      else if IsMatch(login, i) then Some(i)
      else FirstMatchFrom(login, i + 1)
    }

    /** `findByLogin`: the first account in enumeration order whose username
        is `login` (compared exactly), or an error when there is none. */
    function FindByLogin(login: string): (r: Result<Account, string>)
      ensures r.Ok? <==> exists k: nat :: IsFirstMatch(login, k)
      ensures r.Ok? ==> exists k: nat :: IsFirstMatch(login, k) && r.value.accountId == order[k]
      ensures r.Ok? ==> r.value.accountId in profiles && r.value.profile == profiles[r.value.accountId]
      ensures r.Ok? ==> r.value.profile.username == login
      ensures r.Err? ==> r.error == NotFoundByLogin(login)
    {
      match FirstMatchFrom(login, 0)
      case Some(k) =>
        assert IsFirstMatch(login, k);
        Ok(Account(order[k], profiles[order[k]]))
      case None =>
        assert forall k :: !IsFirstMatch(login, k);
        Err(NotFoundByLogin(login))
    }

    /** `validateCredentials`: succeeds exactly when the first account with
        username `login` has stored password `password`, and then gives the
        account `findByLogin` gives; "no such user" and "wrong password" give
        the same error. */
    function ValidateCredentials(login: string, password: string): (r: Result<Account, string>)
      ensures r.Ok? <==> exists k: nat :: IsFirstMatch(login, k) && profiles[order[k]].password == password
      ensures r.Ok? ==> r == FindByLogin(login)
      ensures r.Err? ==> r.error == InvalidCredentials(login)
    {
      var found := FindByLogin(login);
      if found.Ok? && found.value.profile.password == password then found
      else
        assert forall k: nat, k': nat :: IsFirstMatch(login, k) && IsFirstMatch(login, k') ==> k == k';
        Err(InvalidCredentials(login))
    }

    /* -------------------------------------------------------------------
       Partial update (src/accounts.ts:24-26, 71-81)
       ------------------------------------------------------------------- */

    /** The store after `updateUser(sub, q)`. */
    function Update(sub: string, q: PartialProfile): (r: Store)
      ensures r.order == order && r.profiles.Keys == profiles.Keys
      ensures forall id :: id in profiles && id != sub ==> r.profiles[id] == profiles[id]
      ensures sub in profiles ==>
        ProfileToJson(r.profiles[sub]) == ProfileToJson(profiles[sub]) + PartialToJson(q)
    {
      if sub in profiles then Store(order, profiles[sub := Merge(profiles[sub], q)]) else this
    }

    /* -------------------------------------------------------------------
       Bulk creation in list order (src/accounts.ts:106-111)
       ------------------------------------------------------------------- */

    /** `records.forEach(createMockAccount)`. */
    function CreateAll(records: seq<UserRecord>): (r: Store)
      ensures Valid() ==> r.Valid()
      decreases |records|
    {
      if records == [] then this
      else
        var last := records[|records| - 1];
        CreateAll(records[..|records| - 1]).Insert(last.sub, last.profile)
    }
  }

  const EmptyStore := Store([], map[])

  function NotFoundById(id: string): string
  {
    "Account with ID " + id + " not found"
  }

  function NotFoundByLogin(login: string): string
  {
    "Account with Login " + login + " not found"
  }

  function InvalidCredentials(login: string): string
  {
    "Invalid credentials for " + login
  }

  function NotFoundBySub(sub: string): string
  {
    "Account with sub " + sub + " not found"
  }

  /** After inserting `p` under `id`, looking `id` up gives exactly `p`
      (whatever was there before), and every other id is looked up as before. */
  lemma FindAfterInsert(s: Store, id: string, p: UserProfile, other: string)
    requires other != id
    ensures s.Insert(id, p).FindAccount(id) == Ok(Account(id, p))
    ensures s.Insert(id, p).FindAccount(other) == s.FindAccount(other)
  {
  }

  /** An empty directory has no account for any username. */
  lemma FindByLoginEmpty(login: string)
    ensures EmptyStore.FindByLogin(login) == Err(NotFoundByLogin(login))
  {
  }

  /** Only the first username match is tried: a later account with the same
      username and the given password does not make the check succeed. */
  lemma OnlyFirstMatchIsChecked(s: Store, login: string, password: string, k: nat)
    requires s.IsFirstMatch(login, k) && s.profiles[s.order[k]].password != password
    ensures s.ValidateCredentials(login, password).Err?
  {
  }

  /** The last position in `records` whose `sub` is `id`. */
  function LastWithSub(records: seq<UserRecord>, id: string): (r: Option<nat>)
    ensures r.Some? ==> r.value < |records| && records[r.value].sub == id
    ensures r.Some? ==> forall j :: r.value < j < |records| ==> records[j].sub != id
    ensures r.None? ==> forall j :: 0 <= j < |records| ==> records[j].sub != id
    decreases |records|
  {
    if records == [] then None
    else if records[|records| - 1].sub == id then Some(|records| - 1)
    else LastWithSub(records[..|records| - 1], id)
  }

  /** Creating a list of records: an id that occurs in the list ends up with
      the profile of its LAST record (later records win); an id that does not
      occur is left as it was. */
  lemma {:induction false} CreateAllLastWins(s: Store, records: seq<UserRecord>, id: string)
    ensures match LastWithSub(records, id)
      case Some(k) => s.CreateAll(records).FindAccount(id) == Ok(Account(id, records[k].profile))
      case None => s.CreateAll(records).FindAccount(id) == s.FindAccount(id)
    decreases |records|
  {
    if records != [] {
      CreateAllLastWins(s, records[..|records| - 1], id);
    }
  }

  /** Creating records only appends new ids to the enumeration order: the ids
      already present keep their positions. */
  lemma {:induction false} CreateAllExtendsOrder(s: Store, records: seq<UserRecord>)
    ensures |s.order| <= |s.CreateAll(records).order|
    ensures s.CreateAll(records).order[..|s.order|] == s.order
    decreases |records|
  {
    if records != [] {
      CreateAllExtendsOrder(s, records[..|records| - 1]);
    }
  }

  /* ---------------------------------------------------------------------
     MockAccount (src/accounts.ts:13-35)
     --------------------------------------------------------------------- */

  class MockAccount {
    const accountId: string
    var profile: UserProfile

    constructor (id: string, profile: UserProfile)
      ensures accountId == id && this.profile == profile
    {
      accountId := id;
      this.profile := profile;
    }

    /** `updateProfile`: `{ ...this.profile, ...partial }`. */
    method UpdateProfile(q: PartialProfile)
      modifies this
      ensures profile == Merge(old(profile), q)
      ensures ProfileToJson(profile) == ProfileToJson(old(profile)) + PartialToJson(q)
    {
      profile := Merge(profile, q);
    }

    /** `claims()`: `{ sub: accountId, ...profile without password }`. The
        result never has a `password` key, has `sub` equal to the account id,
        and copies the other five profile fields unchanged. */
    function Claims(): (c: map<string, Json>)
      reads this
      ensures "password" !in c
      ensures "sub" in c && c["sub"] == JString(accountId)
      ensures c.Keys == ProfileKeys - {"password"} + {"sub"}
      ensures forall k :: k in c && k != "sub" ==> c[k] == ProfileToJson(profile)[k]
    {
      map["sub" := JString(accountId)] + (ProfileToJson(profile) - {"password"})
    }

    function Snapshot(): Account
      reads this
    {
      Account(accountId, profile)
    }
  }

  /** What `res.json(account)` sends for an account: its id and its whole
      profile, password included. */
  function AccountToJson(a: Account): (j: Json)
    ensures j.JObject? && j.fields.Keys == {"accountId", "profile"}
    ensures j.fields["accountId"] == JString(a.accountId)
    ensures j.fields["profile"].JObject? && "password" in j.fields["profile"].fields
    ensures ParseUserProfile(j.fields["profile"]) == Some(a.profile)
  {
    ProfileRoundTrip(a.profile);
    JObject(map["accountId" := JString(a.accountId), "profile" := JObject(ProfileToJson(a.profile))])
  }

  /* ---------------------------------------------------------------------
     The directory (the module-level `accounts` record, src/accounts.ts:9)
     --------------------------------------------------------------------- */

  /** Why the initial load stopped the process. */
  datatype LoadResult = Loaded | Fatal(message: string)

  /** What reading and parsing the initial-users file produced. */
  datatype UsersSource =
    | FileMissing
    | ReadFailed(error: string)
    | ParseFailed(error: string)
    | Parsed(value: Json)

  class Directory {
    var accounts: map<string, MockAccount>
    var order: seq<string>

    /** Ids enumerate without repetition, exactly the stored ids enumerate,
        and each entry is the account of its own id (so entries never share
        an object). */
    ghost predicate Valid()
      reads this
    {
      && (forall i, j :: 0 <= i < j < |order| ==> order[i] != order[j])
      && (forall id :: id in accounts <==> id in order)
      && (forall id :: id in accounts ==> accounts[id].accountId == id)
    }

    /** The directory as a value. */
    function View(): (s: Store)
      reads this, accounts.Values
      ensures s.order == order && s.profiles.Keys == accounts.Keys
      ensures forall id :: id in accounts ==> s.profiles[id] == accounts[id].profile
    {
      Store(order, map id | id in accounts :: accounts[id].profile)
    }

    lemma ViewValid()
      requires Valid()
      ensures View().Valid()
    {
    }

    constructor ()
      ensures Valid() && View() == EmptyStore
    {
      accounts := map[];
      order := [];
    }

    /** `createMockAccount`: the record's `sub` becomes the account id and the
        rest its profile; the new account is stored under that id,
        overwriting any account already there (last write wins). */
    method CreateMockAccount(user: UserRecord) returns (a: MockAccount)
      requires Valid()
      modifies this
      ensures Valid() && fresh(a)
      ensures a.accountId == user.sub && a.profile == user.profile
      ensures accounts == old(accounts)[user.sub := a]
      ensures View() == old(View()).Insert(user.sub, user.profile)
    {
      ghost var before := View();
      a := new MockAccount(user.sub, user.profile);
      if user.sub !in accounts {
        order := order + [user.sub];
      }
      accounts := accounts[user.sub := a];
      forall id | id in accounts
        ensures accounts[id].profile == before.profiles[user.sub := user.profile][id]
      {
        if id != user.sub {
          assert accounts[id] == old(accounts)[id];
        }
      }
      InsertOfProfiles(before, View(), user.sub, user.profile);
    }

    /** `findAccount`: the stored account, or an error exactly when no entry
        exists for `id`. */
    method FindAccount(id: string) returns (r: Result<MockAccount, string>)
      requires Valid()
      ensures r.Ok? <==> id in accounts
      ensures r.Ok? ==> r.value == accounts[id] && Ok(r.value.Snapshot()) == View().FindAccount(id)
      ensures r.Err? ==> r.error == View().FindAccount(id).error
    {
      if id in accounts {
        r := Ok(accounts[id]);
      } else {
        r := Err(NotFoundById(id));
      }
    }

    /** `findByLogin`: a scan in enumeration order for the first account with
        username `login`; the account of `Accounts.FindByLogin` on the view. */
    method FindByLogin(login: string) returns (r: Result<MockAccount, string>)
      requires Valid()
      ensures r.Ok? == View().FindByLogin(login).Ok?
      ensures r.Ok? ==> r.value in accounts.Values && Ok(r.value.Snapshot()) == View().FindByLogin(login)
      ensures r.Err? ==> r.error == View().FindByLogin(login).error
    {
      var i := 0;
      while i < |order|
        invariant 0 <= i <= |order|
        invariant forall j :: 0 <= j < i ==> !View().IsMatch(login, j)
      {
        var a := accounts[order[i]];
        if a.profile.username == login {
          assert View().IsMatch(login, i);
          assert View().FirstMatchFrom(login, 0) == Some(i);
          return Ok(a);
        }
        i := i + 1;
      }
      assert View().FirstMatchFrom(login, 0) == None;
      return Err(NotFoundByLogin(login));
    }

    /** `validateCredentials`: the first username match, if its password is
        exactly `password`; the account of `Accounts.ValidateCredentials`. */
    method ValidateCredentials(login: string, password: string) returns (r: Result<MockAccount, string>)
      requires Valid()
      ensures r.Ok? == View().ValidateCredentials(login, password).Ok?
      ensures r.Ok? ==>
        r.value in accounts.Values && Ok(r.value.Snapshot()) == View().ValidateCredentials(login, password)
      ensures r.Err? ==> r.error == View().ValidateCredentials(login, password).error
    {
      var found := FindByLogin(login);
      if found.Ok? && found.value.profile.password == password {
        r := found;
      } else {
        r := Err(InvalidCredentials(login));
      }
    }

    /** `updateUser`: on a stored id, merges the supplied fields into that
        account's profile and changes nothing else; on an unknown id, errs
        and changes nothing. */
    method UpdateUser(sub: string, q: PartialProfile) returns (r: Result<MockAccount, string>)
      requires Valid()
      modifies accounts.Values
      ensures Valid()
      ensures r.Ok? <==> sub in accounts
      ensures r.Ok? ==> r.value == accounts[sub]
      ensures r.Err? ==> r.error == NotFoundBySub(sub)
      ensures View() == old(View()).Update(sub, q)
    {
      ghost var before := View();
      assert before == old(View());
      if sub in accounts {
        var a := accounts[sub];
        a.UpdateProfile(q);
        r := Ok(a);
        ghost var after := View();
        ghost var expected := before.profiles[sub := Merge(before.profiles[sub], q)];
        forall id | id in accounts
          ensures accounts[id].profile == expected[id]
        {
          if id != sub {
            assert accounts[id].accountId != a.accountId;
            assert accounts[id].profile == old(accounts[id].profile);
          }
        }
        UpdateOfProfiles(before, after, sub, q);
      } else {
        r := Err(NotFoundBySub(sub));
      }
    }

    /** When the directory's value gains `id` with profile `p` (at the end of
        the order if it is new) and nothing else changes, it is `Store.Insert`. */
    static lemma InsertOfProfiles(before: Store, after: Store, id: string, p: UserProfile)
      requires after.order == if id in before.profiles then before.order else before.order + [id]
      requires after.profiles.Keys == before.profiles.Keys + {id}
      requires forall k :: k in after.profiles ==> after.profiles[k] == before.profiles[id := p][k]
      ensures after == before.Insert(id, p)
    {
      assert after.profiles == before.profiles[id := p];
    }

    /** When the profiles of the directory's value change at `sub` to the
        merge and nowhere else, the new value is `Store.Update`. */
    static lemma UpdateOfProfiles(before: Store, after: Store, sub: string, q: PartialProfile)
      requires sub in before.profiles && after.order == before.order
      requires after.profiles.Keys == before.profiles.Keys
      requires forall id :: id in after.profiles ==>
        after.profiles[id] == before.profiles[sub := Merge(before.profiles[sub], q)][id]
      ensures after == before.Update(sub, q)
    {
      assert after.profiles == before.profiles[sub := Merge(before.profiles[sub], q)];
    }

    /** `records.forEach(createMockAccount)`: creates every record in list
        order; the directory's value becomes `Store.CreateAll`. */
    method CreateAllAccounts(records: seq<UserRecord>)
      requires Valid()
      modifies this
      ensures Valid()
      ensures View() == old(View()).CreateAll(records)
    {
      var i := 0;
      while i < |records|
        invariant 0 <= i <= |records|
        invariant Valid()
        invariant View() == old(View()).CreateAll(records[..i])
      {
        ghost var before := View();
        var _ := CreateMockAccount(records[i]);
        assert records[..i + 1][..i] == records[..i];
        assert old(View()).CreateAll(records[..i + 1]) == before.Insert(records[i].sub, records[i].profile);
        i := i + 1;
      }
      assert records[..i] == records;
    }

    /** `loadInitialUsers`, after the file has been read and parsed: a missing
        or unreadable file, unparseable JSON or any invalid record stops the
        process before a single account is created; otherwise every record is
        created, in list order. */
    method LoadInitialUsers(path: string, source: UsersSource) returns (r: LoadResult)
      requires Valid()
      modifies this
      ensures Valid()
      ensures r.Loaded? <==> source.Parsed? && ParseInitialUsers(source.value).Some?
      ensures r.Fatal? ==> accounts == old(accounts) && order == old(order)
      ensures r.Loaded? ==> View() == old(View()).CreateAll(ParseInitialUsers(source.value).value)
      ensures source.FileMissing? ==> r == Fatal("Initial Users file not found: " + path)
      ensures source.ReadFailed? ==> r == Fatal("Failed to read initial users file: " + source.error)
      ensures source.ParseFailed? ==>
        r == Fatal("Failed to parse users JSON: " + ("Failed to parse users JSON: " + source.error))
      ensures source.Parsed? && r.Fatal? ==> r == Fatal("Invalid users data format: ")
    {
      match source
      case FileMissing =>
        return Fatal("Initial Users file not found: " + path);
      case ReadFailed(e) =>
        return Fatal("Failed to read initial users file: " + e);
      case ParseFailed(e) =>
        return Fatal("Failed to parse users JSON: " + ("Failed to parse users JSON: " + e));
      case Parsed(value) =>
        var validation := ParseInitialUsers(value);
        if validation.None? {
          return Fatal("Invalid users data format: ");
        }
        CreateAllAccounts(validation.value);
        return Loaded;
    }
  }
}
