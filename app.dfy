/** The application shell: who is signed in, which screen is showing, the
    business data loaded for that user, and the handlers that change them.
    Every handler that changes the signed-in user also runs the data
    refresh that the user change triggers. */
module App {
  import opened Base
  import opened Types
  import opened MockDb
  import opened StockManager
  import opened AuthScreen

  datatype View = Dashboard | Transactions | Stock | Reports | Staff

  /** The mobile bottom bar: home and record for everyone, stock for owners
      and managers, staff for owners. */
  function BottomNav(role: Role): (r: seq<View>)
    ensures Dashboard in r && Transactions in r && Reports !in r
    ensures Stock in r <==> role == Owner || role == Manager
    ensures Staff in r <==> role == Owner
  {
    [Dashboard, Transactions]
    + (if role == Owner || role == Manager then [Stock] else [])
    + (if role == Owner then [Staff] else [])
  }

  /** Every view some menu offers to `role`: the bottom bar, plus reports
      for owners and managers from the side menu. */
  function MenuViews(role: Role): (r: seq<View>)
    ensures forall v :: v in BottomNav(role) ==> v in r
    ensures Reports in r <==> IsManagement(role)
    ensures Staff in r <==> role == Owner
    ensures Stock in r <==> IsManagement(role)
  {
    BottomNav(role) + (if IsManagement(role) then [Reports] else [])
  }

  /** A registration from the screen keeps stored e-mails normalised, and a
      new owner it saves can sign in with what was typed. */
  lemma ScreenRegistration(us: seq<User>, businessName: string, fullName: string, phoneNumber: string,
                           email: string, password: string, role: Role, isNewBusiness: bool, uid: string)
    requires EmailsNormalised(us)
    ensures var c := BuildCandidate(businessName, fullName, phoneNumber, email, password, role, isNewBusiness, uid);
            c.Some? ==>
              var r := Register(us, c.value, isNewBusiness);
              && EmailsNormalised(AfterRegister(us, r))
              && (r.Ok? && isNewBusiness ==> Login(AfterRegister(us, r), businessName, email, password, Owner) == Ok(r.value))
  {
    var c := BuildCandidate(businessName, fullName, phoneNumber, email, password, role, isNewBusiness, uid);
    if c.Some? {
      CandidateEmailNormalised(businessName, fullName, phoneNumber, email, password, role, isNewBusiness, uid);
      RegisterKeepsEmailsNormalised(us, c.value, isNewBusiness);
      if isNewBusiness && Register(us, c.value, true).Ok? {
        RegisteredOwnerCanSignIn(us, businessName, fullName, phoneNumber, email, password, role, uid);
      }
    }
  }

  /** What is on screen: the sign-in screen, the blocked-account screen, or
      the main layout with a view. */
  datatype Screen = AuthShown | Blocked(status: Status) | Main(view: View)

  class AppState {
    const db: Store
    var user: Option<User>
    var view: View
    var transactions: seq<Transaction>
    var products: seq<Product>

    /** The loaded data is the signed-in business's share of the store. */
    ghost predicate Synced()
      reads this, db
    {
      user.Some? && user.value.businessName != "" ==>
        transactions == TransactionsOf(db.transactions, user.value.businessName)
        && products == ProductsOf(db.products, user.value.businessName)
    }

    /** The store keeps its invariant, every stored e-mail is in the form
        the registration screen saves, the data is in sync, the view is one
        the user's menus offer, and a blocked user is on the home view. */
    ghost predicate Valid()
      reads this, db
    {
      && db.Valid()
      && EmailsNormalised(db.users)
      && Synced()
      && (user.Some? ==> view in MenuViews(user.value.role))
      && (user.Some? && user.value.status != Approved ==> view == Dashboard)
    }

    /** Both gates, in the order the component checks them. */
    function CurrentScreen(): (s: Screen)
      reads this
      ensures s == AuthShown <==> user.None?
      ensures s.Blocked? <==> user.Some? && user.value.status != Approved
      ensures s.Main? <==> user.Some? && user.value.status == Approved
      ensures s.Main? ==> s.view == view
    {
      if user.None? then AuthShown
      else if user.value.status != Approved then Blocked(user.value.status)
      else Main(view)
    }

    /** The mount effect: seed the store, restore a stored session, load the
        data. */
    constructor (db: Store)
      requires db.Valid() && EmailsNormalised(db.users)
      modifies db`users, db`products
      ensures Valid()
      ensures this.db == db
      ensures db.users == SeedUsers(old(db.users)) && db.products == SeedProducts(old(db.products))
      ensures user == db.session && view == Dashboard
      ensures (user.None? || user.value.businessName == "") ==> transactions == [] && products == []
    {
      this.db := db;
      SeedKeepsEmailsNormalised(db.users);
      db.SeedIfEmpty();
      var stored := db.GetUser();
      user := stored;
      view := Dashboard;
      if stored.Some? && stored.value.businessName != "" {
        transactions := db.GetTransactions(stored.value.businessName);
        products := db.GetProducts(stored.value.businessName);
      } else {
        transactions := [];
        products := [];
      }
    }

    /** `refreshData`: reload the signed-in business's data; with nobody
        signed in, or an empty business name, nothing is reloaded. */
    method RefreshData()
      modifies this`transactions, this`products
      ensures Synced()
      ensures user.None? || user.value.businessName == "" ==>
        transactions == old(transactions) && products == old(products)
    {
      if user.Some? && user.value.businessName != "" {
        transactions := db.GetTransactions(user.value.businessName);
        products := db.GetProducts(user.value.businessName);
      }
    }

    /** `handleLogin(u)`: the session is stored without the password, the
        user (as given) is signed in, and the home view is shown. */
    method HandleLogin(u: User)
      requires Valid()
      modifies db`session, this
      ensures Valid()
      ensures user.None? || user.value.businessName == "" ==>
                transactions == old(transactions) && products == old(products)
      ensures db.session == Some(Strip(u)) && user == Some(u) && view == Dashboard
      ensures db.users == old(db.users) && db.products == old(db.products)
      ensures db.transactions == old(db.transactions)
    {
      db.SetUser(Some(u));
      user := Some(u);
      view := Dashboard;
      RefreshData();
    }

    /** `handleLogout`: the session is cleared; the view and the loaded data
        are left as they were. */
    method HandleLogout()
      requires Valid() && user.Some?
      modifies db`session, this`user
      ensures Valid()
      ensures db.session == None && user == None
      ensures view == old(view) && transactions == old(transactions) && products == old(products)
    {
      db.SetUser(None);
      user := None;
    }

    /** `handleTransaction(tx)`: record it (stock included), reload, go home. */
    method HandleTransaction(tx: Transaction)
      requires Valid() && CurrentScreen() == Main(Transactions)
      modifies db`transactions, db`products, this
      ensures Valid()
      ensures user.None? || user.value.businessName == "" ==>
                transactions == old(transactions) && products == old(products)
      ensures db.transactions == Record(old(db.transactions), tx)
      ensures db.products == ApplySale(old(db.products), tx)
      ensures view == Dashboard && user == old(user)
    {
      db.AddTransaction(tx);
      RefreshData();
      view := Dashboard;
    }

    /** `handleDeleteTransaction(id)`, with the answer to the confirmation
        dialog as a parameter: delete only when confirmed; stock is never
        restored. */
    method HandleDeleteTransaction(id: string, confirmed: bool)
      requires Valid() && CurrentScreen().Main?
      modifies db`transactions, this`transactions, this`products
      ensures Valid()
      ensures user.None? || user.value.businessName == "" ==>
                transactions == old(transactions) && products == old(products)
      ensures !confirmed ==> transactions == old(transactions) && products == old(products)
      ensures confirmed ==> db.transactions == RemoveTransaction(old(db.transactions), id)
      ensures !confirmed ==> db.transactions == old(db.transactions)
      ensures db.products == old(db.products)
    {
      if confirmed {
        db.DeleteTransaction(id);
        RefreshData();
      }
    }

    /** `handleProductUpdate(p)`: the stock form's save. */
    method HandleProductUpdate(p: Product)
      requires Valid() && CurrentScreen() == Main(Stock)
      modifies db`products, this`transactions, this`products
      ensures Valid()
      ensures user.None? || user.value.businessName == "" ==>
                transactions == old(transactions) && products == old(products)
      ensures db.products == Upsert(old(db.products), p)
      ensures db.transactions == old(db.transactions)
    {
      db.SaveProduct(p);
      RefreshData();
    }

    /** The stock screen's delete button, shown to editors only. */
    method HandleProductDelete(id: string)
      requires Valid() && CurrentScreen() == Main(Stock) && CanEdit(user.value.role)
      modifies db`products, this`transactions, this`products
      ensures Valid()
      ensures user.None? || user.value.businessName == "" ==>
                transactions == old(transactions) && products == old(products)
      ensures db.products == RemoveProduct(old(db.products), id)
      ensures db.transactions == old(db.transactions)
    {
      db.DeleteProduct(id);
      RefreshData();
    }

    /** "Check Status Again" on the blocked screen: the session moves only to
        a stored account with the same uid that is now approved. */
    method Recheck()
      requires Valid() && CurrentScreen().Blocked?
      modifies db`session, this
      ensures Valid()
      ensures user.None? || user.value.businessName == "" ==>
                transactions == old(transactions) && products == old(products)
      ensures var found := Find(old(db.users), UserUidIs(old(user).value.uid));
              && (found.Some? && found.value.status == Approved ==>
                    user == found && db.session == Some(Strip(found.value)))
              && (found.None? || found.value.status != Approved ==>
                    user == old(user) && db.session == old(db.session)
                    && transactions == old(transactions) && products == old(products))
      ensures view == old(view)
      ensures user.Some? && user.value.uid == old(user).value.uid
    {
      var refreshed := Find(db.GetAllUsers(), UserUidIs(user.value.uid));
      if refreshed.Some? && refreshed.value.status == Approved {
        user := refreshed;
        db.SetUser(refreshed);
        RefreshData();
      }
    }

    /** A menu button: only the views the user's menus offer. */
    method SetView(v: View)
      requires Valid() && CurrentScreen().Main? && v in MenuViews(user.value.role)
      modifies this`view
      ensures Valid()
      ensures view == v
    {
      view := v;
    }

    /** Submitting the sign-in form: the screen changes to the signed-in
        user exactly when the store accepts the credentials. */
    method SignIn(form: AuthForm)
      requires Valid() && form.Valid() && form.mode == LogIn && user.None?
      modifies db`session, this, form`error
      ensures Valid() && form.Valid()
      ensures user.None? || user.value.businessName == "" ==>
                transactions == old(transactions) && products == old(products)
      ensures user.None? ==> view == old(view)
      ensures var r := Login(old(db.users), form.loginBusiness, form.loginEmail, form.loginPassword, form.loginRole);
              && (r.Ok? ==> user == Some(r.value) && db.session == Some(Strip(r.value)) && view == Dashboard)
              && (r.Err? ==> user == None && db.session == old(db.session))
    {
      var u := form.HandleLogin(db);
      if u.Some? {
        HandleLogin(u.value);
      }
    }

    /** Submitting the registration form: a form with an empty field or a
        candidate the store refuses leaves everyone signed out and the store
        as it was; otherwise the saved account is appended and signed in. A
        saved new owner lands in the main layout and can sign in again with
        exactly what was typed; a saved joiner lands on the blocked screen. */
    method SignUp(form: AuthForm, uid: string)
      requires Valid() && form.Valid() && form.mode == CreateAccount && user.None?
      modifies db`session, db`users, this, form`error
      ensures Valid() && form.Valid()
      ensures user.None? || user.value.businessName == "" ==>
                transactions == old(transactions) && products == old(products)
      ensures user.None? ==> view == old(view)
      ensures var c := BuildCandidate(old(form.businessName), old(form.fullName), old(form.phoneNumber),
                                      old(form.email), old(form.password), old(form.role),
                                      old(form.isNewBusiness), uid);
              && (c.None? ==> user == None && db.session == old(db.session) && db.users == old(db.users))
              && (c.Some? ==>
                    var r := Register(old(db.users), c.value, old(form.isNewBusiness));
                    && db.users == AfterRegister(old(db.users), r)
                    && (r.Ok? ==> user == Some(r.value) && db.session == Some(Strip(r.value)) && view == Dashboard)
                    && (r.Err? ==> user == None && db.session == old(db.session)))
      ensures user.Some? ==> user.value.status == (if old(form.isNewBusiness) then Approved else Pending)
      ensures user.Some? ==> CurrentScreen() == (if old(form.isNewBusiness) then Main(Dashboard) else Blocked(Pending))
      ensures user.Some? && old(form.isNewBusiness) ==>
                Login(db.users, old(form.businessName), old(form.email), old(form.password), Owner) == Ok(user.value)
    {
      ScreenRegistration(db.users, form.businessName, form.fullName, form.phoneNumber, form.email, form.password,
                         form.role, form.isNewBusiness, uid);
      var u := form.HandleRegister(db, uid);
      if u.Some? {
        HandleLogin(u.value);
      }
    }
  }
}
