/** The data service: four persisted collections (products, transactions,
    all users, the session user) and the operations on them. Each operation
    is first written as a function on the collections it reads, with its
    promise stated there; the `Store` class holds the collections as fields,
    and its methods update them in place as the service writes storage back. */
module MockDb {
  import opened Base
  import opened Text
  import opened Types

  // ---------------------------------------------------------------- Catalog

  function ProductInBusiness(b: string): Product -> bool
  {
    (p: Product) => p.businessName == b
  }

  function ProductIdIs(id: string): Product -> bool
  {
    (p: Product) => p.id == id
  }

  function ProductIdIsNot(id: string): Product -> bool
  {
    (p: Product) => p.id != id
  }

  /** `getProducts(b)`: the products whose business name is exactly `b`
      (case-sensitive), in stored order. */
  function ProductsOf(ps: seq<Product>, b: string): (r: seq<Product>)
    ensures forall i :: 0 <= i < |r| ==> r[i] in ps && r[i].businessName == b
    ensures forall i :: 0 <= i < |ps| && ps[i].businessName == b ==> ps[i] in r
  {
    Filter(ps, ProductInBusiness(b))
  }

  /** `findIndex(p => p.id === id)`. */
  function FirstWithId(ps: seq<Product>, id: string): (r: Option<nat>)
    ensures r.Some? ==> r.value < |ps| && ps[r.value].id == id
    ensures r.Some? ==> forall j :: 0 <= j < r.value ==> ps[j].id != id
    ensures r.None? <==> forall j :: 0 <= j < |ps| ==> ps[j].id != id
  {
    FindIndex(ps, ProductIdIs(id))
  }

  /** `saveProduct(p)`: the first product with the same id is replaced where
      it stands; with no such product, `p` is appended at the end. */
  function Upsert(ps: seq<Product>, p: Product): (r: seq<Product>)
    ensures FirstWithId(ps, p.id).Some? ==>
      |r| == |ps| && r[FirstWithId(ps, p.id).value] == p
      && forall j :: 0 <= j < |ps| && j != FirstWithId(ps, p.id).value ==> r[j] == ps[j]
    ensures FirstWithId(ps, p.id).None? ==>
      |r| == |ps| + 1 && r[|ps|] == p && r[..|ps|] == ps
    ensures p in r
  {
    match FirstWithId(ps, p.id)
    case Some(i) => ps[i := p]
    case None => ps + [p]
  }

  /** `deleteProduct(id)`: every product with that id is gone, every other
      one stays. */
  function RemoveProduct(ps: seq<Product>, id: string): (r: seq<Product>)
    ensures forall i :: 0 <= i < |r| ==> r[i] in ps && r[i].id != id
    ensures forall i :: 0 <= i < |ps| && ps[i].id != id ==> ps[i] in r
  {
    Filter(ps, ProductIdIsNot(id))
  }

  // ----------------------------------------------------------------- Ledger

  function TxInBusiness(b: string): Transaction -> bool
  {
    (t: Transaction) => t.businessName == b
  }

  function TxIdIsNot(id: string): Transaction -> bool
  {
    (t: Transaction) => t.id != id
  }

  /** `getTransactions(b)`: the entries whose business name is exactly `b`,
      in stored (most recent first) order. */
  function TransactionsOf(ts: seq<Transaction>, b: string): (r: seq<Transaction>)
    ensures forall i :: 0 <= i < |r| ==> r[i] in ts && r[i].businessName == b
    ensures forall i :: 0 <= i < |ts| && ts[i].businessName == b ==> ts[i] in r
  {
    Filter(ts, TxInBusiness(b))
  }

  /** `unshift(tx)`: the new entry becomes element 0 and the old list
      follows unchanged. */
  function Record(ts: seq<Transaction>, tx: Transaction): (r: seq<Transaction>)
    ensures |r| == |ts| + 1 && r[0] == tx && r[1..] == ts
  {
    [tx] + ts
  }

  /** `deleteTransaction(id)`: every entry with that id is gone, every
      other one stays. */
  function RemoveTransaction(ts: seq<Transaction>, id: string): (r: seq<Transaction>)
    ensures forall i :: 0 <= i < |r| ==> r[i] in ts && r[i].id != id
    ensures forall i :: 0 <= i < |ts| && ts[i].id != id ==> ts[i] in r
  {
    Filter(ts, TxIdIsNot(id))
  }

  /** The product whose stock a recorded entry lowers: only a sale with a
      (non-empty) item id, and only the first product carrying that id. */
  function SaleTarget(ps: seq<Product>, tx: Transaction): (r: Option<nat>)
    ensures r.Some? ==> r.value < |ps| && IsSale(tx) && Present(tx.itemId)
                        && ps[r.value].id == tx.itemId.value
    ensures r.Some? ==> forall j :: 0 <= j < r.value ==> ps[j].id != tx.itemId.value
    ensures r.None? <==> !IsSale(tx) || !Present(tx.itemId)
                         || forall j :: 0 <= j < |ps| ==> ps[j].id != tx.itemId.value
  {
    if IsSale(tx) && Present(tx.itemId) then FirstWithId(ps, tx.itemId.value) else None
  }

  /** The stock side effect of `addTransaction(tx)`: the target product's
      stock drops by `quantity || 1`, with no lower bound; nothing else
      changes, and with no target nothing changes at all. */
  function ApplySale(ps: seq<Product>, tx: Transaction): (r: seq<Product>)
    ensures |r| == |ps|
    ensures forall j :: 0 <= j < |ps| && SaleTarget(ps, tx) != Some(j) ==> r[j] == ps[j]
    ensures SaleTarget(ps, tx).Some? ==>
      var i := SaleTarget(ps, tx).value;
      r[i] == ps[i].(stockCount := ps[i].stockCount - QuantityOrOne(tx.quantity))
  {
    match SaleTarget(ps, tx)
    case None => ps
    case Some(i) => ps[i := ps[i].(stockCount := ps[i].stockCount - QuantityOrOne(tx.quantity))]
  }

  /** A sale of 3 against a product holding 10 leaves 7; the same sale
      against an id that is no longer in the catalog changes nothing. */
  lemma SaleStockExample(p: Product, tx: Transaction)
    requires p.stockCount == 10.0 && p.id != ""
    requires tx.txType == Sale && tx.itemId == Some(p.id) && tx.quantity == Some(3.0)
    ensures ApplySale([p], tx)[0].stockCount == 7.0
    ensures ApplySale([], tx) == []
    ensures ApplySale(RemoveProduct([p], p.id), tx) == RemoveProduct([p], p.id)
  {
    assert SaleTarget([p], tx) == Some(0);
  }

  // --------------------------------------------------------------- Identity

  /** The session copy of a user: the password removed, all else kept. */
  function Strip(u: User): (s: User)
    ensures s.password.None? && s.(password := u.password) == u
  {
    u.(password := None)
  }

  predicate SessionStripped(s: Option<User>)
  {
    s.Some? ==> s.value.password.None?
  }

  predicate EmailTaken(us: seq<User>, email: string)
  {
    exists i :: 0 <= i < |us| && us[i].email == email
  }

  /** No two accounts share an e-mail address, compared exactly. */
  predicate EmailsUnique(us: seq<User>)
  {
    forall i, j :: 0 <= i < j < |us| ==> us[i].email != us[j].email
  }

  /** The owner lookup of `registerUser`: lower-cased, not trimmed. */
  predicate IsOwnerOf(u: User, businessName: string)
  {
    u.role == Owner && Lower(u.businessName) == Lower(businessName)
  }

  predicate OwnerExists(us: seq<User>, businessName: string)
  {
    exists i :: 0 <= i < |us| && IsOwnerOf(us[i], businessName)
  }

  /** At most one owner per business name, compared as the owner lookup
      compares them. */
  predicate OwnersUnique(us: seq<User>)
  {
    forall i, j :: 0 <= i < j < |us| && us[i].role == Owner && us[j].role == Owner
      ==> Lower(us[i].businessName) != Lower(us[j].businessName)
  }

  datatype RegisterError = EmailAlreadyRegistered | BusinessNameTaken | BusinessNotFound

  /** `registerUser(candidate, isNewBusiness)`: the duplicate e-mail check
      comes first; a new business needs no owner yet and its registrant
      becomes an approved owner; a join needs an owner and the joiner keeps
      the requested role and waits as pending. */
  function Register(us: seq<User>, candidate: User, isNewBusiness: bool): (r: Result<User, RegisterError>)
    ensures r == Err(EmailAlreadyRegistered) <==> EmailTaken(us, candidate.email)
    ensures r == Err(BusinessNameTaken)
      <==> !EmailTaken(us, candidate.email) && isNewBusiness && OwnerExists(us, candidate.businessName)
    ensures r == Err(BusinessNotFound)
      <==> !EmailTaken(us, candidate.email) && !isNewBusiness && !OwnerExists(us, candidate.businessName)
    ensures r.Ok? ==> r.value == candidate.(role := r.value.role, status := r.value.status)
    ensures r.Ok? && isNewBusiness ==> r.value.role == Owner && r.value.status == Approved
    ensures r.Ok? && !isNewBusiness ==> r.value.role == candidate.role && r.value.status == Pending
  {
    if EmailTaken(us, candidate.email) then Err(EmailAlreadyRegistered)
    else if isNewBusiness then
      if OwnerExists(us, candidate.businessName) then Err(BusinessNameTaken)
      else Ok(candidate.(role := Owner, status := Approved))
    else
      if !OwnerExists(us, candidate.businessName) then Err(BusinessNotFound)
      else Ok(candidate.(status := Pending))
  }

  /** The user list after a registration attempt: exactly one account more
      on success, unchanged on every error. */
  function AfterRegister(us: seq<User>, r: Result<User, RegisterError>): (r': seq<User>)
    ensures r.Ok? ==> |r'| == |us| + 1 && r'[..|us|] == us && r'[|us|] == r.value
    ensures r.Err? ==> r' == us
  {
    if r.Ok? then us + [r.value] else us
  }

  /** Registration keeps e-mail addresses unique. */
  lemma RegisterKeepsEmailsUnique(us: seq<User>, candidate: User, isNewBusiness: bool)
    requires EmailsUnique(us)
    ensures EmailsUnique(AfterRegister(us, Register(us, candidate, isNewBusiness)))
  {
    var r := Register(us, candidate, isNewBusiness);
    if r.Ok? {
      var us' := us + [r.value];
      forall i, j | 0 <= i < j < |us'| ensures us'[i].email != us'[j].email {
        if j == |us| {
          assert us'[i] == us[i];
        }
      }
    }
  }

  /** Registration keeps owners unique as long as nobody joins an existing
      business with the role `OWNER` (the registration screen never sends
      that; the service itself does not check it). */
  lemma RegisterKeepsOwnersUnique(us: seq<User>, candidate: User, isNewBusiness: bool)
    requires OwnersUnique(us)
    requires isNewBusiness || candidate.role != Owner
    ensures OwnersUnique(AfterRegister(us, Register(us, candidate, isNewBusiness)))
  {
    var r := Register(us, candidate, isNewBusiness);
    if r.Ok? {
      var us' := us + [r.value];
      forall i, j | 0 <= i < j < |us'| && us'[i].role == Owner && us'[j].role == Owner
        ensures Lower(us'[i].businessName) != Lower(us'[j].businessName)
      {
        if j == |us| {
          assert us'[i] == us[i];
          assert !IsOwnerOf(us[i], candidate.businessName);
        }
      }
    }
  }

  /** Without that caller discipline the invariant breaks: a second
      `OWNER` of the same business can join. */
  lemma JoiningAsOwnerBreaksOwnerUniqueness(owner: User, joiner: User)
    requires owner.role == Owner && owner.businessName == joiner.businessName
    requires owner.email != joiner.email && joiner.role == Owner
    ensures Register([owner], joiner, false).Ok?
    ensures !OwnersUnique(AfterRegister([owner], Register([owner], joiner, false)))
  {
    assert IsOwnerOf([owner][0], joiner.businessName);
    var us' := AfterRegister([owner], Register([owner], joiner, false));
    assert us'[0] == owner && us'[1].role == Owner;
  }

  /** Registering a business name a second time as a new business fails,
      whatever the case of the name. */
  lemma NewBusinessTwiceFails(us: seq<User>, first: User, second: User)
    requires Register(us, first, true).Ok?
    requires Lower(second.businessName) == Lower(first.businessName)
    ensures var us' := AfterRegister(us, Register(us, first, true));
      Register(us', second, true).Err?
  {
    var us' := AfterRegister(us, Register(us, first, true));
    assert IsOwnerOf(us'[|us|], second.businessName);
  }

  datatype LoginError = AccountNotFound | BusinessMismatch | WrongPassword | RoleMismatch

  function EmailKeyIs(key: string): User -> bool
  {
    (u: User) => Lower(u.email) == key
  }

  /** The account lookup of `loginUser`: the first user whose lower-cased
      e-mail equals the lower-cased, trimmed input. */
  function LoginLookup(us: seq<User>, email: string): (r: Option<User>)
    ensures r.Some? ==> r.value in us && Lower(r.value.email) == Trim(Lower(email))
    ensures r.Some? ==>
      exists i :: 0 <= i < |us| && us[i] == r.value
        && forall j :: 0 <= j < i ==> Lower(us[j].email) != Trim(Lower(email))
    ensures r.None? <==> forall i :: 0 <= i < |us| ==> Lower(us[i].email) != Trim(Lower(email))
  {
    match FindIndex(us, EmailKeyIs(Trim(Lower(email))))
    case None => None
    case Some(i) => Some(us[i])
  }

  /** `loginUser(businessName, email, password, role)`: the four checks in
      their fixed order, each error hiding the later ones, and the stored
      account (password included) when all pass. */
  function Login(us: seq<User>, businessName: string, email: string, password: string, role: Role)
    : (r: Result<User, LoginError>)
    ensures r == Err(AccountNotFound) <==> LoginLookup(us, email).None?
    ensures r == Err(BusinessMismatch) <==>
      (LoginLookup(us, email).Some?
       && Lower(LoginLookup(us, email).value.businessName) != Trim(Lower(businessName)))
    ensures r == Err(WrongPassword) <==>
      (LoginLookup(us, email).Some?
       && Lower(LoginLookup(us, email).value.businessName) == Trim(Lower(businessName))
       && LoginLookup(us, email).value.password != Some(password))
    ensures r == Err(RoleMismatch) <==>
      (LoginLookup(us, email).Some?
       && Lower(LoginLookup(us, email).value.businessName) == Trim(Lower(businessName))
       && LoginLookup(us, email).value.password == Some(password)
       && LoginLookup(us, email).value.role != role)
    ensures r.Ok? ==>
      (r == Ok(LoginLookup(us, email).value) && r.value in us
       && r.value.role == role && r.value.password == Some(password)
       && Lower(r.value.businessName) == Trim(Lower(businessName)))
  {
    match LoginLookup(us, email)
    case None => Err(AccountNotFound)
    case Some(u) =>
      if Lower(u.businessName) != Trim(Lower(businessName)) then Err(BusinessMismatch)
      else if u.password != Some(password) then Err(WrongPassword)
      else if u.role != role then Err(RoleMismatch)
      else Ok(u)
  }

  /** Lower-casing and trimming commute (the only characters lower-casing
      changes are letters, which are not white space), so `trim` before or
      after `toLowerCase` gives the same key. */
  lemma {:induction false} LowerTrimCommute(s: string)
    ensures Lower(Trim(s)) == Trim(Lower(s))
  {
    LowerTrimStartCommute(s);
    LowerTrimEndCommute(TrimStart(s));
  }

  /** Lower-casing never turns white space into something else or back. */
  lemma LowerCharKeepsSpace(c: char)
    ensures IsJsSpace(LowerChar(c)) == IsJsSpace(c)
  {
  }

  lemma {:induction false} LowerTrimStartCommute(s: string)
    ensures Lower(TrimStart(s)) == TrimStart(Lower(s))
  {
    if s != [] {
      LowerCharKeepsSpace(s[0]);
      assert Lower(s)[0] == LowerChar(s[0]);
      if IsJsSpace(s[0]) {
        assert Lower(s)[1..] == Lower(s[1..]);
        LowerTrimStartCommute(s[1..]);
      }
    }
  }

  lemma {:induction false} LowerTrimEndCommute(s: string)
    ensures Lower(TrimEnd(s)) == TrimEnd(Lower(s))
  {
    if s != [] {
      LowerCharKeepsSpace(s[|s| - 1]);
      assert Lower(s)[|s| - 1] == LowerChar(s[|s| - 1]);
      if IsJsSpace(s[|s| - 1]) {
        assert Lower(s)[..|s| - 1] == Lower(s[..|s| - 1]);
        LowerTrimEndCommute(s[..|s| - 1]);
      }
    }
  }

  /** Every stored e-mail is in the form the registration screen produces:
      lower-cased and trimmed. */
  predicate EmailsNormalised(us: seq<User>)
  {
    forall i :: 0 <= i < |us| ==> Normalised(us[i].email)
  }

  /** A normalised key is already lower-case. */
  lemma KeyIsLower(e: string)
    ensures Lower(Trim(Lower(e))) == Trim(Lower(e))
  {
    LowerIsLowerCase(e);
    TrimKeepsLowerCase(Lower(e));
  }

  /** In a list of normalised e-mails, an e-mail nobody has is matched by
      nobody's key. */
  lemma FreshKeyMatchesNobody(us: seq<User>, key: string)
    requires EmailsNormalised(us) && !EmailTaken(us, key)
    ensures forall i :: 0 <= i < |us| ==> Lower(us[i].email) != key
  {
    forall i | 0 <= i < |us| ensures Lower(us[i].email) != key {
      LowerIsLowerCase(us[i].email);
    }
  }

  /** The lookup falls through to an appended account whose key is the only
      match. */
  lemma LookupFindsAppended(us: seq<User>, saved: User, typedEmail: string)
    requires forall i :: 0 <= i < |us| ==> Lower(us[i].email) != Trim(Lower(typedEmail))
    requires Lower(saved.email) == Trim(Lower(typedEmail))
    ensures LoginLookup(us + [saved], typedEmail) == Some(saved)
  {
    var us', hit := us + [saved], EmailKeyIs(Trim(Lower(typedEmail)));
    assert forall j :: 0 <= j < |us| ==> us'[j] == us[j] && !hit(us'[j]);
    assert us'[|us|] == saved && hit(us'[|us|]);
    var k := FindIndex(us', hit);
    assert k.Some? && k.value == |us|;
  }

  /** Registering a normalised e-mail keeps every stored e-mail
      normalised: the saved account carries the candidate's address. */
  lemma RegisterKeepsEmailsNormalised(us: seq<User>, candidate: User, isNewBusiness: bool)
    requires EmailsNormalised(us) && Normalised(candidate.email)
    ensures EmailsNormalised(AfterRegister(us, Register(us, candidate, isNewBusiness)))
  {
    var r := Register(us, candidate, isNewBusiness);
    if r.Ok? {
      var us' := us + [r.value];
      assert forall i :: 0 <= i < |us| ==> us'[i] == us[i];
      assert us'[|us|].email == candidate.email;
    }
  }

  /** Register, then log in with the same typed inputs: a new business's
      owner gets back exactly the account that was saved. */
  lemma RegisterThenLogin(us: seq<User>, candidate: User, typedBusiness: string, typedEmail: string,
                          password: string)
    requires EmailsNormalised(us)
    requires candidate.email == Trim(Lower(typedEmail))
    requires candidate.businessName == Trim(typedBusiness)
    requires candidate.password == Some(password)
    requires Register(us, candidate, true).Ok?
    ensures var us' := AfterRegister(us, Register(us, candidate, true));
      Login(us', typedBusiness, typedEmail, password, Owner) == Ok(Register(us, candidate, true).value)
  {
    var saved := Register(us, candidate, true).value;
    assert saved == candidate.(role := Owner, status := Approved);
    assert !EmailTaken(us, candidate.email);
    FreshKeyMatchesNobody(us, candidate.email);
    KeyIsLower(typedEmail);
    LookupFindsAppended(us, saved, typedEmail);
    LowerTrimCommute(typedBusiness);
    LoginAccepts(us + [saved], typedBusiness, typedEmail, password, Owner, saved);
  }

  /** All four checks pass once the lookup finds an account whose business,
      password and role match. */
  lemma LoginAccepts(us: seq<User>, businessName: string, email: string, password: string, role: Role, u: User)
    requires LoginLookup(us, email) == Some(u)
    requires Lower(u.businessName) == Trim(Lower(businessName))
    requires u.password == Some(password) && u.role == role
    ensures Login(us, businessName, email, password, role) == Ok(u)
  {
  }

  function UserUidIs(uid: string): User -> bool
  {
    (u: User) => u.uid == uid
  }

  /** `findIndex(u => u.uid === uid)`. */
  function FirstWithUid(us: seq<User>, uid: string): (r: Option<nat>)
    ensures r.Some? ==> r.value < |us| && us[r.value].uid == uid
    ensures r.Some? ==> forall j :: 0 <= j < r.value ==> us[j].uid != uid
    ensures r.None? <==> forall j :: 0 <= j < |us| ==> us[j].uid != uid
  {
    FindIndex(us, UserUidIs(uid))
  }

  /** The user list after `updateUserStatus(uid, status)`: only the status of
      the first account with that uid changes, to whatever is asked (no
      transition is checked here); an unknown uid changes nothing. */
  function UpdateStatus(us: seq<User>, uid: string, status: Status): (r: seq<User>)
    ensures |r| == |us|
    ensures forall j :: 0 <= j < |us| ==> r[j] == us[j].(status := r[j].status)
    ensures forall j :: 0 <= j < |us| && FirstWithUid(us, uid) != Some(j) ==> r[j] == us[j]
    ensures FirstWithUid(us, uid).Some? ==> r[FirstWithUid(us, uid).value].status == status
    ensures FirstWithUid(us, uid).None? ==> r == us
  {
    match FirstWithUid(us, uid)
    case None => us
    case Some(i) => us[i := us[i].(status := status)]
  }

  /** The session after `updateUserStatus(uid, status)`: refreshed, without
      the password, from the updated account when the session user has that
      uid; otherwise untouched. */
  function SessionAfterStatus(session: Option<User>, us: seq<User>, uid: string, status: Status)
    : (r: Option<User>)
    ensures SessionStripped(session) ==> SessionStripped(r)
    ensures (session.None? || session.value.uid != uid || FirstWithUid(us, uid).None?) ==> r == session
    ensures (session.Some? && session.value.uid == uid && FirstWithUid(us, uid).Some?) ==>
      r == Some(Strip(us[FirstWithUid(us, uid).value].(status := status)))
  {
    match FirstWithUid(us, uid)
    case None => session
    case Some(i) =>
      if session.Some? && session.value.uid == uid
      then Some(Strip(UpdateStatus(us, uid, status)[i]))
      else session
  }

  /** A status change touches neither e-mail addresses nor roles, so both
      uniqueness invariants survive it. */
  lemma UpdateStatusKeepsInvariants(us: seq<User>, uid: string, status: Status)
    ensures EmailsUnique(us) ==> EmailsUnique(UpdateStatus(us, uid, status))
    ensures OwnersUnique(us) ==> OwnersUnique(UpdateStatus(us, uid, status))
    ensures EmailsNormalised(us) ==> EmailsNormalised(UpdateStatus(us, uid, status))
  {
    var r := UpdateStatus(us, uid, status);
    assert forall j :: 0 <= j < |us| ==>
      r[j].email == us[j].email && r[j].role == us[j].role && r[j].businessName == us[j].businessName;
  }

  // ------------------------------------------------------------------ Seeds

  const DemoBusiness: string := "Lusaka Central Mart"

  const DemoOwner: User := User(
    "owner-123", "Jane Doe", "0970000000", "owner@lusakamart.com", Some("password123"),
    DemoBusiness, Owner, Paid, Approved)

  const DemoProducts: seq<Product> := [
    Product("1", DemoBusiness, "Mosi Lager 375ml", 15.0, 20.0, 48.0, 12.0, None),
    Product("2", DemoBusiness, "Mealile Mealie Meal 10kg", 180.0, 210.0, 5.0, 10.0, None),
    Product("3", DemoBusiness, "Cooking Oil 2L", 65.0, 85.0, 20.0, 5.0, None)
  ]

  /** The user half of `seedIfEmpty`: a demo owner only into an empty list. */
  function SeedUsers(us: seq<User>): (r: seq<User>)
    ensures us != [] ==> r == us
    ensures us == [] ==> r == [DemoOwner]
    ensures EmailsUnique(us) ==> EmailsUnique(r)
    ensures OwnersUnique(us) ==> OwnersUnique(r)
  {
    if us == [] then [DemoOwner] else us
  }

  /** The catalog half of `seedIfEmpty`: the demo catalog only into an empty
      list. */
  function SeedProducts(ps: seq<Product>): (r: seq<Product>)
    ensures ps != [] ==> r == ps
    ensures ps == [] ==> r == DemoProducts
  {
    if ps == [] then DemoProducts else ps
  }

  /** The demo owner's e-mail is already lower-case and trimmed, so seeding
      keeps every stored e-mail normalised. */
  lemma SeedKeepsEmailsNormalised(us: seq<User>)
    requires EmailsNormalised(us)
    ensures EmailsNormalised(SeedUsers(us))
  {
    assert IsLowerCase(DemoOwner.email);
  }

  /** Seeding twice is seeding once, and a seeded collection is never empty. */
  lemma SeedIdempotent(us: seq<User>, ps: seq<Product>)
    ensures SeedUsers(SeedUsers(us)) == SeedUsers(us) && SeedUsers(us) != []
    ensures SeedProducts(SeedProducts(ps)) == SeedProducts(ps) && SeedProducts(ps) != []
  {
  }

  // ------------------------------------------------------------------ Store

  /** The service over its persisted collections. `Valid` is what every
      operation keeps: the session never holds a password and no two
      accounts share an e-mail address. */
  class Store {
    var products: seq<Product>
    var transactions: seq<Transaction>
    var users: seq<User>
    var session: Option<User>

    ghost predicate Valid()
      reads this
    {
      SessionStripped(session) && EmailsUnique(users)
    }

    /** Empty storage: every collection reads as its default. */
    constructor ()
      ensures Valid()
      ensures products == [] && transactions == [] && users == [] && session == None
    {
      products, transactions, users, session := [], [], [], None;
    }

    function GetProducts(businessName: string): seq<Product>
      reads this
    {
      ProductsOf(products, businessName)
    }

    method SaveProduct(p: Product)
      requires Valid()
      modifies this`products
      ensures Valid()
      ensures products == Upsert(old(products), p)
    {
      var index := FirstWithId(products, p.id);
      if index.Some? {
        products := products[index.value := p];
      } else {
        products := products + [p];
      }
    }

    method DeleteProduct(id: string)
      requires Valid()
      modifies this`products
      ensures Valid()
      ensures products == RemoveProduct(old(products), id)
    {
      products := Filter(products, ProductIdIsNot(id));
    }

    function GetTransactions(businessName: string): seq<Transaction>
      reads this
    {
      TransactionsOf(transactions, businessName)
    }

    /** The entry goes to the front; a sale with an item id then lowers the
        stock of the first product with that id, if there is one. */
    method AddTransaction(tx: Transaction)
      requires Valid()
      modifies this`transactions, this`products
      ensures Valid()
      ensures transactions == Record(old(transactions), tx)
      ensures products == ApplySale(old(products), tx)
    {
      transactions := [tx] + transactions;
      if tx.txType == Sale && Present(tx.itemId) {
        var pIdx := FirstWithId(products, tx.itemId.value);
        if pIdx.Some? {
          var qty := QuantityOrOne(tx.quantity);
          var i := pIdx.value;
          products := products[i := products[i].(stockCount := products[i].stockCount - qty)];
        }
      }
    }

    /** Deleting an entry leaves the catalog, and so every stock count, as
        it was. */
    method DeleteTransaction(id: string)
      requires Valid()
      modifies this`transactions
      ensures Valid()
      ensures transactions == RemoveTransaction(old(transactions), id)
      ensures products == old(products)
    {
      transactions := Filter(transactions, TxIdIsNot(id));
    }

    function GetUser(): Option<User>
      reads this
    {
      session
    }

    /** `setUser(u)`: stores `u` without its password; `null` clears it. */
    method SetUser(u: Option<User>)
      requires Valid()
      modifies this`session
      ensures Valid()
      ensures session == if u.Some? then Some(Strip(u.value)) else None
    {
      if u.Some? {
        session := Some(u.value.(password := None));
      } else {
        session := None;
      }
    }

    function GetAllUsers(): seq<User>
      reads this
    {
      users
    }

    function LoginUser(businessName: string, email: string, password: string, role: Role)
      : Result<User, LoginError>
      reads this
    {
      Login(users, businessName, email, password, role)
    }

    method RegisterUser(candidate: User, isNewBusiness: bool) returns (r: Result<User, RegisterError>)
      requires Valid()
      modifies this`users
      ensures Valid()
      ensures r == Register(old(users), candidate, isNewBusiness)
      ensures users == AfterRegister(old(users), r)
    {
      RegisterKeepsEmailsUnique(users, candidate, isNewBusiness);
      if EmailTaken(users, candidate.email) {
        return Err(EmailAlreadyRegistered);
      }
      var ownerFound := OwnerExists(users, candidate.businessName);
      if isNewBusiness {
        if ownerFound {
          return Err(BusinessNameTaken);
        }
        var saved := candidate.(role := Owner, status := Approved);
        users := users + [saved];
        r := Ok(saved);
      } else {
        if !ownerFound {
          return Err(BusinessNotFound);
        }
        var saved := candidate.(status := Pending);
        users := users + [saved];
        r := Ok(saved);
      }
    }

    method UpdateUserStatus(uid: string, status: Status)
      requires Valid()
      modifies this`users, this`session
      ensures Valid()
      ensures users == UpdateStatus(old(users), uid, status)
      ensures session == SessionAfterStatus(old(session), old(users), uid, status)
    {
      UpdateStatusKeepsInvariants(users, uid, status);
      var idx := FirstWithUid(users, uid);
      if idx.Some? {
        var i := idx.value;
        users := users[i := users[i].(status := status)];
        if session.Some? && session.value.uid == uid {
          SetUser(Some(users[i]));
        }
      }
    }

    /** Each collection is seeded on its own, and only when it is empty. */
    method SeedIfEmpty()
      requires Valid()
      modifies this`users, this`products
      ensures Valid()
      ensures users == SeedUsers(old(users))
      ensures products == SeedProducts(old(products))
    {
      if |users| == 0 {
        users := [DemoOwner];
      }
      if |products| == 0 {
        products := DemoProducts;
      }
    }
  }
}
