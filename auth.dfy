/**
 * The identity registry and the session (the authentication context).
 *
 * The registry is the list of accounts stored under "mindcare_users"; the
 * session is the pair of keys "mindcare_token" and "mindcare_user" plus the
 * `user` field that the pages read. Random ids, tokens and the clock are
 * parameters of the operations that use them.
 */
module Auth {
  import opened Wrappers
  import opened Storage

  const UsersKey := "mindcare_users"
  const TokenKey := "mindcare_token"
  const UserKey := "mindcare_user"
  const TokenPrefix := "jwt_token_"

  /** The registry as read back from storage; a missing list reads as empty. */
  function RegistryIn(items: map<string, Value>): seq<Account> {
    if UsersKey in items && items[UsersKey].Accounts? then items[UsersKey].accounts else []
  }

  /** No two accounts share an email. */
  ghost predicate EmailsUnique(reg: seq<Account>) {
    forall i, j :: 0 <= i < j < |reg| ==> reg[i].email != reg[j].email
  }

  /** Some account has this email. */
  predicate EmailTaken(reg: seq<Account>, email: string) {
    exists i :: 0 <= i < |reg| && reg[i].email == email
  }

  predicate CredentialsMatch(a: Account, email: string, password: string) {
    a.email == email && a.password == password
  }

  /** `users.find` on exact email and password, as the position of the first match. */
  function FindCredentials(reg: seq<Account>, email: string, password: string): (r: Option<nat>)
    ensures r.Some? ==> r.value < |reg| && CredentialsMatch(reg[r.value], email, password)
    ensures r.Some? ==> forall j :: 0 <= j < r.value ==> !CredentialsMatch(reg[j], email, password)
    ensures r.None? <==> forall j :: 0 <= j < |reg| ==> !CredentialsMatch(reg[j], email, password)
  {
    if reg == [] then None
    else if CredentialsMatch(reg[0], email, password) then Some(0)
    else
      match FindCredentials(reg[1..], email, password)
      case None => None
      case Some(k) => Some(k + 1)
  }

  /** `users.findIndex` on the id, with None for -1. */
  function FindIndexById(reg: seq<Account>, id: string): (r: Option<nat>)
    ensures r.Some? ==> r.value < |reg| && reg[r.value].id == id
    ensures r.Some? ==> forall j :: 0 <= j < r.value ==> reg[j].id != id
    ensures r.None? <==> forall j :: 0 <= j < |reg| ==> reg[j].id != id
  {
    if reg == [] then None
    else if reg[0].id == id then Some(0)
    else
      match FindIndexById(reg[1..], id)
      case None => None
      case Some(k) => Some(k + 1)
  }

  /** The session snapshot copied out of an account (everything but password and date). */
  function SessionOf(a: Account): User {
    User(a.id, a.email, a.name, a.isVerified, a.profilePicture)
  }

  /** `login` accepts: the first exact credential match exists and is verified. */
  predicate LoginAccepted(reg: seq<Account>, email: string, password: string) {
    var k := FindCredentials(reg, email, password);
    k.Some? && reg[k.value].isVerified
  }

  /** The account `login` signs in to when it accepts. */
  function LoginAccount(reg: seq<Account>, email: string, password: string): Account
    requires LoginAccepted(reg, email, password)
  {
    reg[FindCredentials(reg, email, password).value]
  }

  /**
   * In an email-unique registry, `login` accepts exactly when some account has
   * that email, that password and is verified. A wrong password and an unknown
   * email are both simply rejected.
   */
  lemma LoginAcceptedIff(reg: seq<Account>, email: string, password: string)
    requires EmailsUnique(reg)
    ensures LoginAccepted(reg, email, password) <==>
      exists i :: 0 <= i < |reg| && CredentialsMatch(reg[i], email, password) && reg[i].isVerified
  {
    var k := FindCredentials(reg, email, password);
    if i :| 0 <= i < |reg| && CredentialsMatch(reg[i], email, password) && reg[i].isVerified {
      assert k.Some?;
      assert k.value <= i;
    }
  }

  // ----- registration -----

  /** What one `register` call is given, with its random id and its creation time. */
  datatype Registration = Registration(
    id: string, name: string, email: string, password: string, createdAt: string)

  /** The record `register` appends: verified from the start, no picture. */
  function NewAccount(r: Registration): Account {
    Account(r.id, r.name, r.email, r.password, true, None, r.createdAt)
  }

  /** `register` on the registry alone: the registry afterwards and the result. */
  function RegisterStep(reg: seq<Account>, r: Registration): (res: (seq<Account>, bool))
    ensures res.1 <==> !EmailTaken(reg, r.email)
    ensures reg <= res.0 && |res.0| == |reg| + (if res.1 then 1 else 0)
  {
    if EmailTaken(reg, r.email) then (reg, false) else (reg + [NewAccount(r)], true)
  }

  /** One registration keeps the registry email-unique. */
  lemma RegisterKeepsEmailsUnique(reg: seq<Account>, r: Registration)
    requires EmailsUnique(reg)
    ensures EmailsUnique(RegisterStep(reg, r).0)
  {
    var reg' := RegisterStep(reg, r).0;
    if !EmailTaken(reg, r.email) {
      forall i, j | 0 <= i < j < |reg'| ensures reg'[i].email != reg'[j].email {
        if j == |reg| {
          assert reg'[i] == reg[i];
        }
      }
    }
  }

  /** A sequence of `register` calls, in order. */
  function RegisterAll(reg: seq<Account>, rs: seq<Registration>): seq<Account>
    decreases |rs|
  {
    if rs == [] then reg else RegisterAll(RegisterStep(reg, rs[0]).0, rs[1..])
  }

  /**
   * Starting from an email-unique registry, any sequence of registrations
   * leaves it email-unique, and the accounts that were there stay, in place.
   */
  lemma {:induction false} RegisterAllKeepsEmailsUnique(reg: seq<Account>, rs: seq<Registration>)
    requires EmailsUnique(reg)
    ensures EmailsUnique(RegisterAll(reg, rs))
    ensures |reg| <= |RegisterAll(reg, rs)| && RegisterAll(reg, rs)[..|reg|] == reg
    decreases |rs|
  {
    if rs != [] {
      var next := RegisterStep(reg, rs[0]).0;
      RegisterKeepsEmailsUnique(reg, rs[0]);
      RegisterAllKeepsEmailsUnique(next, rs[1..]);
      assert next[..|reg|] == reg;
      assert RegisterAll(reg, rs)[..|reg|] == RegisterAll(next, rs[1..])[..|next|][..|reg|];
    }
  }

  // ----- profile updates -----

  /** The keys a `Partial<User>` may carry; None stands for an absent key. */
  datatype ProfilePatch = ProfilePatch(
    id: Option<string>,
    email: Option<string>,
    name: Option<string>,
    isVerified: Option<bool>,
    profilePicture: Option<Option<string>>)

  /** `{...user, ...data}`: every key the patch carries wins. */
  function MergeUser(u: User, p: ProfilePatch): (r: User)
    ensures p == ProfilePatch(None, None, None, None, None) ==> r == u
    ensures p.id.Some? && p.email.Some? && p.name.Some? && p.isVerified.Some? && p.profilePicture.Some? ==>
            r == User(p.id.value, p.email.value, p.name.value, p.isVerified.value, p.profilePicture.value)
    ensures p.email.Some? ==> r.email == p.email.value
  {
    User(p.id.GetOr(u.id), p.email.GetOr(u.email), p.name.GetOr(u.name),
         p.isVerified.GetOr(u.isVerified), p.profilePicture.GetOr(u.profilePicture))
  }

  /** `{...users[i], ...data}`: the password and creation date are kept. */
  function MergeAccount(a: Account, p: ProfilePatch): (r: Account)
    ensures r.password == a.password && r.createdAt == a.createdAt
    ensures SessionOf(r) == MergeUser(SessionOf(a), p)
  {
    a.(id := p.id.GetOr(a.id), email := p.email.GetOr(a.email), name := p.name.GetOr(a.name),
       isVerified := p.isVerified.GetOr(a.isVerified),
       profilePicture := p.profilePicture.GetOr(a.profilePicture))
  }

  /** The registry after `updateProfile`: the first account with the id is merged. */
  function MergeIntoRegistry(reg: seq<Account>, id: string, p: ProfilePatch): (r: seq<Account>)
    ensures |r| == |reg|
    ensures forall i :: 0 <= i < |r| ==> r[i].password == reg[i].password && r[i].createdAt == reg[i].createdAt
    ensures FindIndexById(reg, id).None? ==> r == reg
  {
    match FindIndexById(reg, id)
    case None => reg
    case Some(k) => reg[k := MergeAccount(reg[k], p)]
  }

  /**
   * The merge touches one account at most: the first one carrying the id, and
   * only when there is one; every other account is left as it was.
   */
  lemma MergeIntoRegistryTouchesOne(reg: seq<Account>, id: string, p: ProfilePatch)
    ensures |MergeIntoRegistry(reg, id, p)| == |reg|
    ensures (forall j :: 0 <= j < |reg| ==> reg[j].id != id) ==> MergeIntoRegistry(reg, id, p) == reg
    ensures forall k, j :: 0 <= k < |reg| && reg[k].id == id && (forall i :: 0 <= i < k ==> reg[i].id != id) ==>
      MergeIntoRegistry(reg, id, p)[k] == MergeAccount(reg[k], p) &&
      (0 <= j < |reg| && j != k ==> MergeIntoRegistry(reg, id, p)[j] == reg[j])
  {
    forall k | 0 <= k < |reg| && reg[k].id == id && (forall i :: 0 <= i < k ==> reg[i].id != id)
      ensures FindIndexById(reg, id) == Some(k)
    {
      var f := FindIndexById(reg, id);
      assert f.Some?;
      assert f.value >= k;
    }
  }

  /**
   * As written, `updateProfile` does not check the new email: two distinct
   * accounts can end up sharing one, so the merge does not keep the registry
   * email-unique.
   */
  lemma UpdateProfileCanDuplicateEmail()
    ensures var reg := [Account("u1", "Ana", "a@x.com", "pw123456", true, None, "t0"),
                        Account("u2", "Bo", "b@x.com", "pw654321", true, None, "t1")];
            var p := ProfilePatch(None, Some("b@x.com"), None, None, None);
            EmailsUnique(reg) && !EmailsUnique(MergeIntoRegistry(reg, "u1", p))
  {
    var reg := [Account("u1", "Ana", "a@x.com", "pw123456", true, None, "t0"),
                Account("u2", "Bo", "b@x.com", "pw654321", true, None, "t1")];
    var p := ProfilePatch(None, Some("b@x.com"), None, None, None);
    assert FindIndexById(reg, "u1") == Some(0);
    var reg' := MergeIntoRegistry(reg, "u1", p);
    assert reg'[0].email == reg'[1].email;
  }

  /** The patch would give the merged account an email another position already holds. */
  predicate EmailConflict(reg: seq<Account>, id: string, p: ProfilePatch) {
    p.email.Some? &&
    exists j: nat :: j < |reg| && reg[j].email == p.email.value && FindIndexById(reg, id) != Some(j)
  }

  /** When the new email is free (or unchanged), the merge keeps the registry email-unique. */
  lemma MergeKeepsEmailsUniqueWhenFree(reg: seq<Account>, id: string, p: ProfilePatch)
    requires EmailsUnique(reg)
    requires !EmailConflict(reg, id, p)
    ensures EmailsUnique(MergeIntoRegistry(reg, id, p))
  {
    var reg' := MergeIntoRegistry(reg, id, p);
    match FindIndexById(reg, id)
    case None =>
    case Some(k) =>
      forall i, j | 0 <= i < j < |reg'| ensures reg'[i].email != reg'[j].email {
        if i == k && p.email.Some? {
          assert reg[j].email != p.email.value;
        } else if j == k && p.email.Some? {
          assert reg[i].email != p.email.value;
        }
      }
  }

  // ----- the provider -----

  /** The state after `logout`: both session keys gone. */
  function LogoutItems(items: map<string, Value>): map<string, Value> {
    items - {TokenKey, UserKey}
  }

  /** Logging out twice is logging out once. */
  lemma LogoutIdempotent(items: map<string, Value>)
    ensures LogoutItems(LogoutItems(items)) == LogoutItems(items)
    ensures RegistryIn(LogoutItems(items)) == RegistryIn(items)
  {
  }

  /** Both session keys are stored, the token as non-empty text. */
  predicate SessionStored(items: map<string, Value>) {
    && UserKey in items && items[UserKey].Profile?
    && TextAt(items, TokenKey).Some? && TextAt(items, TokenKey).value != ""
  }

  class AuthProvider {
    const storage: LocalStorage
    var user: Option<User>
    var isLoading: bool

    /** The registry as currently stored. */
    function Registry(): seq<Account>
      reads storage
    {
      RegistryIn(storage.items)
    }

    constructor (storage: LocalStorage)
      ensures this.storage == storage && user == None && isLoading
    {
      this.storage := storage;
      user := None;
      isLoading := true;
    }

    /** The mount effect: restores the user only when both session keys are stored. */
    method RestoreSession()
      modifies this
      ensures !isLoading
      ensures SessionStored(storage.items) ==> user == Some(storage.items[UserKey].user)
      ensures !SessionStored(storage.items) ==> user == old(user)
    {
      var storedToken := TextAt(storage.items, TokenKey);
      if UserKey in storage.items && storage.items[UserKey].Profile?
         && storedToken.Some? && storedToken.value != ""
      {
        user := Some(storage.items[UserKey].user);
      }
      isLoading := false;
    }

    method Login(email: string, password: string, tokenSuffix: string) returns (ok: bool)
      modifies this, storage
      ensures ok == LoginAccepted(old(Registry()), email, password)
      ensures Registry() == old(Registry())
      ensures isLoading == old(isLoading)
      ensures !ok ==> user == old(user) && storage.items == old(storage.items)
      ensures ok ==>
        var u := SessionOf(LoginAccount(old(Registry()), email, password));
        && user == Some(u)
        && storage.items == old(storage.items)[TokenKey := Text(TokenPrefix + tokenSuffix)][UserKey := Profile(u)]
    {
      var users := RegistryIn(storage.items);
      var found := FindCredentials(users, email, password);
      if found.Some? && users[found.value].isVerified {
        var userData := SessionOf(users[found.value]);
        storage.SetItem(TokenKey, Text(TokenPrefix + tokenSuffix));
        storage.SetItem(UserKey, Profile(userData));
        user := Some(userData);
        ok := true;
      } else {
        ok := false;
      }
    }

    method Register(name: string, email: string, password: string,
                    newId: string, createdAt: string, tokenSuffix: string) returns (ok: bool)
      modifies this, storage
      ensures ok == !EmailTaken(old(Registry()), email)
      ensures isLoading == old(isLoading)
      ensures Registry() == RegisterStep(old(Registry()), Registration(newId, name, email, password, createdAt)).0
      ensures !ok ==> user == old(user) && storage.items == old(storage.items)
      ensures ok ==>
        var acct := NewAccount(Registration(newId, name, email, password, createdAt));
        && Registry() == old(Registry()) + [acct]
        && user == Some(SessionOf(acct))
        && storage.items == old(storage.items)[UsersKey := Accounts(old(Registry()) + [acct])]
                                              [TokenKey := Text(TokenPrefix + tokenSuffix)]
                                              [UserKey := Profile(SessionOf(acct))]
    {
      var users := RegistryIn(storage.items);
      if EmailTaken(users, email) {
        return false;
      }
      var newUser := NewAccount(Registration(newId, name, email, password, createdAt));
      users := users + [newUser];
      storage.SetItem(UsersKey, Accounts(users));
      var userData := SessionOf(newUser);
      storage.SetItem(TokenKey, Text(TokenPrefix + tokenSuffix));
      storage.SetItem(UserKey, Profile(userData));
      user := Some(userData);
      ok := true;
    }

    method Logout()
      modifies this, storage
      ensures storage.items == LogoutItems(old(storage.items))
      ensures user == None
      ensures isLoading == old(isLoading)
    {
      storage.RemoveItem(TokenKey);
      storage.RemoveItem(UserKey);
      user := None;
    }

    /** Whether a reset mail would be "sent": some account has the email. */
    method ForgotPassword(email: string) returns (found: bool)
      ensures found <==> exists i :: 0 <= i < |Registry()| && Registry()[i].email == email
    {
      var users := RegistryIn(storage.items);
      assert users == Registry();
      found := EmailTaken(users, email);
    }

    method UpdateProfile(patch: ProfilePatch) returns (ok: bool)
      modifies this, storage
      ensures ok <==> old(user).Some?
      ensures isLoading == old(isLoading)
      ensures !ok ==> user == old(user) && storage.items == old(storage.items)
      ensures ok ==> user == Some(MergeUser(old(user).value, patch))
      ensures ok ==> Registry() == MergeIntoRegistry(old(Registry()), old(user).value.id, patch)
      ensures ok ==>
        storage.items ==
          if FindIndexById(old(Registry()), old(user).value.id).Some?
          then old(storage.items)[UserKey := Profile(user.value)]
                                 [UsersKey := Accounts(MergeIntoRegistry(old(Registry()), old(user).value.id, patch))]
          else old(storage.items)[UserKey := Profile(user.value)]
    {
      if user.None? {
        return false;
      }
      var current := user.value;
      var updatedUser := MergeUser(current, patch);
      user := Some(updatedUser);
      storage.SetItem(UserKey, Profile(updatedUser));
      var users := RegistryIn(storage.items);
      var userIndex := FindIndexById(users, current.id);
      if userIndex.Some? {
        users := users[userIndex.value := MergeAccount(users[userIndex.value], patch)];
        storage.SetItem(UsersKey, Accounts(users));
      }
      ok := true;
    }

    /**
     * `updateProfile` with the email check that `register` makes: a patch whose
     * email another account already holds is refused and changes nothing.
     */
    method UpdateProfileUnique(patch: ProfilePatch) returns (ok: bool)
      modifies this, storage
      ensures ok <==> old(user).Some? && !EmailConflict(old(Registry()), old(user).value.id, patch)
      ensures isLoading == old(isLoading)
      ensures !ok ==> user == old(user) && storage.items == old(storage.items)
      ensures ok ==> user == Some(MergeUser(old(user).value, patch))
      ensures ok ==> Registry() == MergeIntoRegistry(old(Registry()), old(user).value.id, patch)
      ensures ok ==>
        storage.items ==
          if FindIndexById(old(Registry()), old(user).value.id).Some?
          then old(storage.items)[UserKey := Profile(user.value)]
                                 [UsersKey := Accounts(MergeIntoRegistry(old(Registry()), old(user).value.id, patch))]
          else old(storage.items)[UserKey := Profile(user.value)]
      ensures EmailsUnique(old(Registry())) ==> EmailsUnique(Registry())
    {
      if user.None? || EmailConflict(RegistryIn(storage.items), user.value.id, patch) {
        return false;
      }
      if EmailsUnique(Registry()) {
        MergeKeepsEmailsUniqueWhenFree(Registry(), user.value.id, patch);
      }
      ok := UpdateProfile(patch);
    }
  }
}
