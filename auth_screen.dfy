/** The sign-in and registration screen: its form fields, the validation
    and the candidate account that registration builds, and the two submit
    handlers that pass the inputs to the store. */
module AuthScreen {
  import opened Base
  import opened Text
  import opened Types
  import opened MockDb

  /** The roles the join picker offers; an owner is never among them. */
  const JoinRoles: seq<Role> := [Manager, SalesPerson]

  /** Why the screen shows an error. */
  datatype AuthError = MissingFields | LoginFailed(login: LoginError) | RegisterFailed(register: RegisterError)

  /** The account `handleRegister` sends to the store, or `None` when a
      field is empty. Fields are checked before they are trimmed. The uid
      stands for the random id. */
  function BuildCandidate(businessName: string, fullName: string, phoneNumber: string, email: string,
                          password: string, role: Role, isNewBusiness: bool, uid: string)
    : (r: Option<User>)
    ensures r.None? <==> fullName == "" || phoneNumber == "" || email == "" || businessName == "" || password == ""
    ensures r.Some? ==>
      && r.value.uid == uid
      && r.value.fullName == Trim(fullName) && r.value.phoneNumber == Trim(phoneNumber)
      && r.value.email == Trim(Lower(email)) && r.value.businessName == Trim(businessName)
      && r.value.password == Some(password)
      && r.value.role == (if isNewBusiness then Owner else role)
      && r.value.tier == Free && r.value.status == Pending
  {
    if fullName == "" || phoneNumber == "" || email == "" || businessName == "" || password == "" then None
    else Some(User(uid, Trim(fullName), Trim(phoneNumber), Trim(Lower(email)), Some(password),
                   Trim(businessName), if isNewBusiness then Owner else role, Free, Pending))
  }

  /** The candidate's e-mail is already in the form login compares against:
      normalising it again changes nothing. */
  lemma CandidateEmailNormalised(businessName: string, fullName: string, phoneNumber: string, email: string,
                                 password: string, role: Role, isNewBusiness: bool, uid: string)
    requires BuildCandidate(businessName, fullName, phoneNumber, email, password, role, isNewBusiness, uid).Some?
    ensures var c := BuildCandidate(businessName, fullName, phoneNumber, email, password, role, isNewBusiness, uid).value;
            Trim(Lower(c.email)) == c.email && Normalised(c.email)
  {
    NormaliseNormalises(email);
    NormaliseNormalises(Trim(Lower(email)));
  }

  /** Validation looks at the fields before trimming, so a name of blanks
      passes and is saved as the empty string. */
  lemma BlankNameAccepted(uid: string)
    ensures var c := BuildCandidate("Shop", " ", "0970000000", "a@b.c", "pw", SalesPerson, true, uid);
            c.Some? && c.value.fullName == ""
  {
    assert IsJsSpace(' ');
    TrimAllSpace(" ");
  }

  /** Which of the two forms is shown. */
  datatype Mode = LogIn | CreateAccount

  class AuthForm {
    var mode: Mode
    var loginRole: Role
    var loginBusiness: string
    var loginEmail: string
    var loginPassword: string
    var businessName: string
    var fullName: string
    var phoneNumber: string
    var email: string
    var password: string
    var role: Role
    var isNewBusiness: bool
    var error: Option<AuthError>

    /** The join role is always one the picker offers. */
    ghost predicate Valid()
      reads this
    {
      role in JoinRoles
    }

    /** The sign-in form, empty fields; the login role starts as owner and
        the join role as sales person. */
    constructor ()
      ensures Valid()
      ensures mode == LogIn
      ensures loginRole == Owner && role == SalesPerson && !isNewBusiness && error == None
      ensures loginBusiness == "" && loginEmail == "" && loginPassword == ""
      ensures businessName == "" && fullName == "" && phoneNumber == "" && email == "" && password == ""
    {
      mode := LogIn;
      loginRole, loginBusiness, loginEmail, loginPassword := Owner, "", "", "";
      businessName, fullName, phoneNumber, email, password := "", "", "", "", "";
      role, isNewBusiness, error := SalesPerson, false, None;
    }

    /** The two tabs at the top: either one clears the error. */
    method SetMode(m: Mode)
      requires Valid()
      modifies this`mode, this`error
      ensures Valid()
      ensures mode == m && error == None
    {
      mode := m;
      error := None;
    }

    /** The "Login As" picker, which lists all three roles. */
    method PickLoginRole(r: Role)
      requires Valid() && mode == LogIn
      modifies this`loginRole
      ensures Valid()
      ensures loginRole == r
    {
      loginRole := r;
    }

    /** Typing into the sign-in fields. */
    method FillLogin(businessName: string, email: string, password: string)
      requires Valid() && mode == LogIn
      modifies this`loginBusiness, this`loginEmail, this`loginPassword
      ensures Valid()
      ensures loginBusiness == businessName && loginEmail == email && loginPassword == password
    {
      loginBusiness, loginEmail, loginPassword := businessName, email, password;
    }

    /** Typing into the registration fields. */
    method FillRegister(businessName: string, fullName: string, phoneNumber: string, email: string,
                        password: string)
      requires Valid() && mode == CreateAccount
      modifies this`businessName, this`fullName, this`phoneNumber, this`email, this`password
      ensures Valid()
      ensures this.businessName == businessName && this.fullName == fullName
      ensures this.phoneNumber == phoneNumber && this.email == email && this.password == password
    {
      this.businessName, this.fullName, this.phoneNumber := businessName, fullName, phoneNumber;
      this.email, this.password := email, password;
    }

    /** The "Which Portal?" picker, shown only when joining a business, with
        only the roles it lists. */
    method PickRole(r: Role)
      requires Valid() && mode == CreateAccount && !isNewBusiness
      requires r in JoinRoles
      modifies this`role
      ensures Valid()
      ensures role == r
    {
      role := r;
    }

    /** The "Join Team" / "New Business" toggle; it also clears the error. */
    method SetNewBusiness(b: bool)
      requires Valid() && mode == CreateAccount
      modifies this`isNewBusiness, this`error
      ensures Valid()
      ensures isNewBusiness == b && error == None
    {
      isNewBusiness := b;
      error := None;
    }

    /** `handleLogin`: the raw inputs go to the store; the account comes back
        only when the store raises no error, and the error is shown
        otherwise. */
    method HandleLogin(db: MockDb.Store) returns (u: Option<User>)
      requires Valid() && mode == LogIn
      modifies this`error
      ensures Valid()
      ensures var r := Login(db.users, loginBusiness, loginEmail, loginPassword, loginRole);
              && (r.Ok? ==> u == Some(r.value) && error == None)
              && (r.Err? ==> u == None && error == Some(LoginFailed(r.error)))
    {
      error := None;
      var r := db.LoginUser(loginBusiness, loginEmail, loginPassword, loginRole);
      if r.Ok? {
        u := Some(r.value);
      } else {
        error := Some(LoginFailed(r.error));
        u := None;
      }
    }

    /** `handleRegister`: an empty field stops it before the store is
        touched; otherwise the candidate is registered and the saved account
        comes back, or the store's error is shown. */
    method HandleRegister(db: MockDb.Store, uid: string) returns (u: Option<User>)
      requires Valid() && mode == CreateAccount && db.Valid()
      modifies this`error, db`users
      ensures Valid() && db.Valid()
      ensures var c := BuildCandidate(old(businessName), old(fullName), old(phoneNumber), old(email),
                                      old(password), old(role), old(isNewBusiness), uid);
              && (c.None? ==> u == None && error == Some(MissingFields) && db.users == old(db.users))
              && (c.Some? ==>
                    var r := Register(old(db.users), c.value, old(isNewBusiness));
                    && db.users == AfterRegister(old(db.users), r)
                    && (r.Ok? ==> u == Some(r.value) && error == None)
                    && (r.Err? ==> u == None && error == Some(RegisterFailed(r.error))))
    {
      error := None;
      var c := BuildCandidate(businessName, fullName, phoneNumber, email, password, role, isNewBusiness, uid);
      if c.None? {
        error := Some(MissingFields);
        return None;
      }
      var r := db.RegisterUser(c.value, isNewBusiness);
      if r.Ok? {
        u := Some(r.value);
      } else {
        error := Some(RegisterFailed(r.error));
        u := None;
      }
    }
  }

  /** Registration through this screen keeps owners unique: a joiner's role
      comes from the picker, which never offers the owner role. */
  lemma ScreenKeepsOwnersUnique(us: seq<User>, businessName: string, fullName: string, phoneNumber: string,
                                email: string, password: string, role: Role, isNewBusiness: bool, uid: string)
    requires OwnersUnique(us)
    requires role in JoinRoles
    requires BuildCandidate(businessName, fullName, phoneNumber, email, password, role, isNewBusiness, uid).Some?
    ensures var c := BuildCandidate(businessName, fullName, phoneNumber, email, password, role, isNewBusiness, uid).value;
            OwnersUnique(AfterRegister(us, Register(us, c, isNewBusiness)))
  {
    var c := BuildCandidate(businessName, fullName, phoneNumber, email, password, role, isNewBusiness, uid).value;
    RegisterKeepsOwnersUnique(us, c, isNewBusiness);
  }

  /** A business registered through this screen can sign in straight away
      as its owner with exactly what was typed: the login finds the account
      that registration saved. */
  lemma RegisteredOwnerCanSignIn(us: seq<User>, businessName: string, fullName: string, phoneNumber: string,
                                 email: string, password: string, role: Role, uid: string)
    requires EmailsNormalised(us)
    requires BuildCandidate(businessName, fullName, phoneNumber, email, password, role, true, uid).Some?
    requires Register(us, BuildCandidate(businessName, fullName, phoneNumber, email, password, role, true, uid).value,
                      true).Ok?
    ensures var c := BuildCandidate(businessName, fullName, phoneNumber, email, password, role, true, uid).value;
            var r := Register(us, c, true);
            Login(AfterRegister(us, r), businessName, email, password, Owner) == Ok(r.value)
  {
    var c := BuildCandidate(businessName, fullName, phoneNumber, email, password, role, true, uid).value;
    RegisterThenLogin(us, c, businessName, email, password);
  }
}
