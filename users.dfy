/** The user service: registration with unique uid and email, profile lookup and
    partial profile update, and parsing of role names. */
module Users {
  import opened Common

  /** The role every user gets when no known role is asked for. */
  const Consumer := "CONSUMER"

  datatype User = User(
    firebaseUid: string,
    firstName: Option<string>,
    lastName: Option<string>,
    email: string,
    phoneNumber: Option<string>,
    role: string)

  /** A registration or profile-update request; uid and email are required by its
      validation, the other fields may be null. */
  datatype RegistrationRequest = RegistrationRequest(
    firebaseUid: string,
    firstName: Option<string>,
    lastName: Option<string>,
    email: string,
    phoneNumber: Option<string>,
    role: Option<string>)

  function UpperChar(c: char): char {
    if 'a' <= c <= 'z' then (c as int - 'a' as int + 'A' as int) as char else c
  }

  /** Upper-casing, letter by letter. */
  function ToUpper(s: string): (r: string)
    ensures |r| == |s|
    ensures forall i :: 0 <= i < |s| ==> r[i] == UpperChar(s[i])
  {
    if s == [] then [] else [UpperChar(s[0])] + ToUpper(s[1..])
  }

  /** The role constant named by `s` regardless of case, or None where the enum
      lookup would throw. */
  function ParseRole(s: string, roles: set<string>): Option<string> {
    var name := ToUpper(s);
    if name in roles then Some(name) else None
  }

  /** The role a registration gets: the named role, or CONSUMER for a null or
      unknown name. */
  function RegistrationRole(role: Option<string>, roles: set<string>): string {
    match role
    case None => Consumer
    case Some(s) => ParseRole(s, roles).GetOr(Consumer)
  }

  /** The role after a profile update: the named role, or the current one for a
      null or unknown name. */
  function UpdatedRole(current: string, role: Option<string>, roles: set<string>): string {
    match role
    case None => current
    case Some(s) => ParseRole(s, roles).GetOr(current)
  }

  /** The user a registration stores: the request's fields as given. */
  function NewUser(req: RegistrationRequest, roles: set<string>): User {
    User(req.firebaseUid, req.firstName, req.lastName, req.email, req.phoneNumber, RegistrationRole(req.role, roles))
  }

  /** A profile update: non-null names and phone overwrite; uid and email stay. */
  function UpdateProfile(u: User, req: RegistrationRequest, roles: set<string>): User {
    u.(firstName := if req.firstName.Some? then req.firstName else u.firstName,
       lastName := if req.lastName.Some? then req.lastName else u.lastName,
       phoneNumber := if req.phoneNumber.Some? then req.phoneNumber else u.phoneNumber,
       role := UpdatedRole(u.role, req.role, roles))
  }

  /** Role constants are written in upper case. */
  ghost predicate UpperCaseNames(roles: set<string>) {
    forall name :: name in roles ==> ToUpper(name) == name
  }

  lemma UpperCharIdempotent(c: char)
    ensures UpperChar(UpperChar(c)) == UpperChar(c)
  {
  }

  /** Upper-casing twice is upper-casing once. */
  lemma {:induction false} ToUpperIdempotent(s: string)
    ensures ToUpper(ToUpper(s)) == ToUpper(s)
  {
    var u := ToUpper(s);
    forall i | 0 <= i < |s| ensures ToUpper(u)[i] == u[i] {
      UpperCharIdempotent(s[i]);
    }
  }

  /** Role names are matched without regard to case. */
  lemma ParseRoleIgnoresCase(s: string, roles: set<string>)
    ensures ParseRole(ToUpper(s), roles) == ParseRole(s, roles)
  {
    ToUpperIdempotent(s);
  }

  /** A role constant's own name parses to that role. */
  lemma ParseRoleKnown(name: string, roles: set<string>)
    requires UpperCaseNames(roles) && name in roles
    ensures ParseRole(name, roles) == Some(name)
  {
  }

  /** A parsed role is always one of the constants. */
  lemma ParseRoleSound(s: string, roles: set<string>)
    ensures ParseRole(s, roles).Some? ==> ParseRole(s, roles).value in roles
  {
  }

  /** "consumer" parses as CONSUMER, and a name that is no role falls back to it. */
  lemma RegistrationRoleExamples(roles: set<string>)
    requires roles == {Consumer, "ADMIN"}
    ensures RegistrationRole(Some("consumer"), roles) == Consumer
    ensures RegistrationRole(Some("Admin"), roles) == "ADMIN"
    ensures RegistrationRole(Some("courier"), roles) == Consumer
    ensures RegistrationRole(None, roles) == Consumer
  {
    var consumer, admin := ToUpper("consumer"), ToUpper("Admin");
    assert consumer[0] == 'C' && consumer[1] == 'O' && consumer[2] == 'N' && consumer[3] == 'S';
    assert consumer[4] == 'U' && consumer[5] == 'M' && consumer[6] == 'E' && consumer[7] == 'R';
    assert consumer == Consumer;
    assert admin[0] == 'A' && admin[1] == 'D' && admin[2] == 'M' && admin[3] == 'I' && admin[4] == 'N';
    assert admin == "ADMIN";
    assert |ToUpper("courier")| == 7;
  }

  class UserService {
    /** The names of the role constants. */
    const roles: set<string>
    /** The user store, keyed by Firebase uid. */
    var users: map<string, User>

    /** CONSUMER is a role; every user is stored under its uid and has a known
        role; no two users share an email. */
    ghost predicate Valid()
      reads this
    {
      Consumer in roles &&
      (forall uid :: uid in users ==> users[uid].firebaseUid == uid && users[uid].role in roles) &&
      (forall u, v :: u in users && v in users && u != v ==> users[u].email != users[v].email)
    }

    constructor (roles: set<string>)
      requires Consumer in roles
      ensures Valid() && this.roles == roles && users == map[]
    {
      this.roles := roles;
      users := map[];
    }

    /** The repository's existsByEmail. */
    function EmailTaken(email: string): bool
      reads this
    {
      exists uid :: uid in users && users[uid].email == email
    }

    /** Registers a user after checking the uid, then the email, for uniqueness;
        stores the request's fields as given and the parsed role. */
    method RegisterUser(req: RegistrationRequest) returns (r: Result<User>)
      requires Valid()
      modifies this
      ensures Valid()
      ensures req.firebaseUid in old(users) ==> r == Err(UidAlreadyRegistered)
      ensures req.firebaseUid !in old(users) && (exists uid :: uid in old(users) && old(users)[uid].email == req.email) ==>
        r == Err(EmailAlreadyRegistered)
      ensures r.Ok? <==> (req.firebaseUid !in old(users) && !(exists uid :: uid in old(users) && old(users)[uid].email == req.email))
      ensures r.Err? ==> users == old(users)
      ensures r.Ok? ==>
        req.firebaseUid !in old(users) &&
        r.value == NewUser(req, roles) && users == old(users)[req.firebaseUid := r.value]
    {
      if req.firebaseUid in users {
        return Err(UidAlreadyRegistered);
      }
      if EmailTaken(req.email) {
        return Err(EmailAlreadyRegistered);
      }
      var role := Consumer;
      if req.role.Some? {
        var parsed := ParseRole(req.role.value, roles);
        if parsed.Some? {
          role := parsed.value;
        }
      }
      var user := User(req.firebaseUid, req.firstName, req.lastName, req.email, req.phoneNumber, role);
      users := users[req.firebaseUid := user];
      r := Ok(user);
    }

    /** The user with this uid; an unknown uid fails. */
    method GetUserProfile(firebaseUid: string) returns (r: Result<User>)
      requires Valid()
      ensures r.Err? <==> firebaseUid !in users
      ensures r.Err? ==> r.error == UserNotFound
      ensures r.Ok? ==> r.value == users[firebaseUid] && r.value.firebaseUid == firebaseUid
    {
      if firebaseUid !in users {
        return Err(UserNotFound);
      }
      r := Ok(users[firebaseUid]);
    }

    /** Overwrites the non-null first name, last name and phone, and the role when
        it names a known role; the uid and email never change. */
    method UpdateUserProfile(firebaseUid: string, req: RegistrationRequest) returns (r: Result<User>)
      requires Valid()
      modifies this
      ensures Valid()
      ensures r.Err? <==> firebaseUid !in old(users)
      ensures r.Err? ==> r.error == UserNotFound && users == old(users)
      ensures r.Ok? ==>
        r.value == UpdateProfile(old(users)[firebaseUid], req, roles) && users == old(users)[firebaseUid := r.value]
      ensures r.Ok? ==>
        r.value.firebaseUid == firebaseUid && r.value.email == old(users)[firebaseUid].email
    {
      if firebaseUid !in users {
        return Err(UserNotFound);
      }
      var user := users[firebaseUid];
      if req.firstName.Some? { user := user.(firstName := req.firstName); }
      if req.lastName.Some? { user := user.(lastName := req.lastName); }
      if req.phoneNumber.Some? { user := user.(phoneNumber := req.phoneNumber); }
      if req.role.Some? {
        var parsed := ParseRole(req.role.value, roles);
        if parsed.Some? {
          user := user.(role := parsed.value);
        }
      }
      users := users[firebaseUid := user];
      r := Ok(user);
    }
  }
}
