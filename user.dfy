/** The User entity: a constructor that validates its string arguments, then a mutable record
    with a blocked flag, an admin flag and setters that validate nothing. */
module Users {
  import opened Java
  import opened Log4jStrings

  /** The arguments the validating constructor checks, in the order it checks them. */
  const CheckedFields: seq<string> := ["username", "password", "firstName", "lastName", "organisation"]

  /** The message of the BusinessException raised for a blank argument. */
  function BlankMessage(field: string): string {
    field + " cannot be null or empty"
  }

  /** The position of the first blank value, or |values| when none is blank. */
  function FirstBlankIndex(values: seq<JString>): (k: nat)
    ensures k <= |values|
    ensures forall j :: 0 <= j < k ==> !IsBlank(values[j])
    ensures k < |values| ==> IsBlank(values[k])
  {
    if |values| == 0 then 0
    else if IsBlank(values[0]) then 0
    else 1 + FirstBlankIndex(values[1..])
  }

  /** Every field of a User as one value, so that a method can say which field it changed. */
  datatype UserFields = UserFields(
    id: int,
    username: JString,
    password: JString,
    isAdmin: bool,
    firstName: JString,
    lastName: JString,
    organisation: JString,
    blocked: bool)

  /** What the validating constructor guarantees: none of the five checked strings is blank. */
  predicate NonBlank(f: UserFields) {
    !IsBlank(f.username) && !IsBlank(f.password) && !IsBlank(f.firstName)
    && !IsBlank(f.lastName) && !IsBlank(f.organisation)
  }

  const ToStringPrefix: string := "User{username='"
  const ToStringSuffix: string := "'}"

  /** Reads the username text back out of a string shaped like User.toString's output. */
  function UsernameOfToString(s: string): Optional<string> {
    var p, q := |ToStringPrefix|, |ToStringSuffix|;
    if |s| >= p + q && s[..p] == ToStringPrefix && s[|s| - q..] == ToStringSuffix
    then Of(s[p..|s| - q])
    else Empty
  }

  class User {
    var id: int
    var username: JString
    var password: JString
    var isAdmin: bool
    var firstName: JString
    var lastName: JString
    var organisation: JString
    var blocked: bool

    function Fields(): UserFields
      reads this
    {
      UserFields(id, username, password, isAdmin, firstName, lastName, organisation, blocked)
    }

    predicate WellFormed()
      reads this
    {
      NonBlank(Fields())
    }

    /** The no-argument constructor: every field keeps its Java default, so the strings are null
        and the user is not well formed. */
    constructor ()
      ensures Fields() == UserFields(0, Null, Null, false, Null, Null, Null, false)
      ensures !WellFormed()
    {
      id := 0;
      username, password, firstName, lastName, organisation := Null, Null, Null, Null, Null;
      isAdmin, blocked := false, false;
    }

    /** The validating constructor. It checks the five strings in a fixed order and throws for
        the first blank one; otherwise it stores every argument, clears isAdmin and leaves
        blocked at its default. */
    static method Construct(id: int, username: JString, password: JString, firstName: JString,
                            lastName: JString, organisation: JString)
      returns (r: Result<User>)
      ensures var k := FirstBlankIndex([username, password, firstName, lastName, organisation]);
              && (r.Failure? <==> k < |CheckedFields|)
              && (r.Failure? ==> r.error == BusinessException(BlankMessage(CheckedFields[k])))
      ensures r.Success? ==> fresh(r.value) && r.value.WellFormed()
      ensures r.Success? ==> r.value.Fields()
                             == UserFields(id, username, password, false, firstName, lastName,
                                           organisation, false)
    {
      ghost var values := [username, password, firstName, lastName, organisation];
      assert values[0] == username && values[1] == password && values[2] == firstName;
      assert values[3] == lastName && values[4] == organisation;
      if IsBlank(username) {
        return Failure(BusinessException(BlankMessage("username")));
      }
      if IsBlank(password) {
        return Failure(BusinessException(BlankMessage("password")));
      }
      if IsBlank(firstName) {
        return Failure(BusinessException(BlankMessage("firstName")));
      }
      if IsBlank(lastName) {
        return Failure(BusinessException(BlankMessage("lastName")));
      }
      if IsBlank(organisation) {
        return Failure(BusinessException(BlankMessage("organisation")));
      }
      var u := new User();
      u.id := id;
      u.username := username;
      u.password := password;
      u.firstName := firstName;
      u.lastName := lastName;
      u.organisation := organisation;
      u.isAdmin := false;
      r := Success(u);
    }

    /** toString renders only the username, which can be read back from it. */
    function ToString(): (s: string)
      reads this
      ensures UsernameOfToString(s) == Of(ConcatText(username))
    {
      var s := ToStringPrefix + ConcatText(username) + ToStringSuffix;
      assert s[..|ToStringPrefix|] == ToStringPrefix;
      assert s[|s| - |ToStringSuffix|..] == ToStringSuffix;
      assert s[|ToStringPrefix|..|s| - |ToStringSuffix|] == ConcatText(username);
      s
    }

    /** String.equals called on the stored password: true exactly when the candidate has the
        same characters, false for a null candidate, and a NullPointerException when the stored
        password is null, which cannot happen to a well-formed user. */
    function ValidatePassword(candidate: JString): (r: Result<bool>)
      reads this
      ensures r.Failure? <==> password.Null?
      ensures r.Failure? ==> r.error == NullPointerException
      ensures r.Success? ==> (r.value <==> candidate.Str? && candidate.chars == password.chars)
      ensures WellFormed() ==> r.Success?
    {
      if password.Null? then Failure(NullPointerException) else Success(password == candidate)
    }

    method SetUsername(value: JString)
      modifies this
      ensures Fields() == old(Fields()).(username := value)
      ensures IsBlank(value) ==> !WellFormed()
      ensures old(WellFormed()) && !IsBlank(value) ==> WellFormed()
    {
      username := value;
    }

    method SetPassword(value: JString)
      modifies this
      ensures Fields() == old(Fields()).(password := value)
      ensures IsBlank(value) ==> !WellFormed()
      ensures old(WellFormed()) && !IsBlank(value) ==> WellFormed()
    {
      password := value;
    }

    method SetFirstName(value: JString)
      modifies this
      ensures Fields() == old(Fields()).(firstName := value)
      ensures IsBlank(value) ==> !WellFormed()
      ensures old(WellFormed()) && !IsBlank(value) ==> WellFormed()
    {
      firstName := value;
    }

    method SetLastName(value: JString)
      modifies this
      ensures Fields() == old(Fields()).(lastName := value)
      ensures IsBlank(value) ==> !WellFormed()
      ensures old(WellFormed()) && !IsBlank(value) ==> WellFormed()
    {
      lastName := value;
    }

    method SetOrganisation(value: JString)
      modifies this
      ensures Fields() == old(Fields()).(organisation := value)
      ensures IsBlank(value) ==> !WellFormed()
      ensures old(WellFormed()) && !IsBlank(value) ==> WellFormed()
    {
      organisation := value;
    }

    method SetId(value: int)
      modifies this
      ensures Fields() == old(Fields()).(id := value)
      ensures WellFormed() == old(WellFormed())
    {
      id := value;
    }

    method SetAdmin(value: bool)
      modifies this
      ensures Fields() == old(Fields()).(isAdmin := value)
      ensures WellFormed() == old(WellFormed())
    {
      isAdmin := value;
    }

    method SetBlocked(value: bool)
      modifies this
      ensures Fields() == old(Fields()).(blocked := value)
      ensures WellFormed() == old(WellFormed())
    {
      blocked := value;
    }

    method Block()
      modifies this
      ensures blocked
      ensures Fields() == old(Fields()).(blocked := true)
      ensures WellFormed() == old(WellFormed())
    {
      blocked := true;
    }

    method Unblock()
      modifies this
      ensures !blocked
      ensures Fields() == old(Fields()).(blocked := false)
      ensures WellFormed() == old(WellFormed())
    {
      blocked := false;
    }
  }

  /** toString looks at the username only: users with equal usernames render alike. */
  lemma ToStringDependsOnlyOnUsername(a: User, b: User)
    requires a.username == b.username
    ensures a.ToString() == b.ToString()
  {
  }

  /** Different usernames render differently, except that a null username and the text "null"
      both render as User{username='null'}. */
  lemma ToStringDistinguishesUsernames(a: User, b: User)
    ensures a.ToString() == b.ToString() <==> ConcatText(a.username) == ConcatText(b.username)
  {
  }

  /** Blocking twice is blocking once, and so for unblocking; and the two undo each other on a
      user that was not blocked, leaving every field as it was. */
  method BlockUnblockScenario(u: User)
    modifies u
    ensures old(u.blocked) ==> u.Fields() == old(u.Fields()).(blocked := false)
    ensures !old(u.blocked) ==> u.Fields() == old(u.Fields())
  {
    u.Block();
    ghost var once := u.Fields();
    u.Block();
    assert u.Fields() == once;
    u.Unblock();
    ghost var unblockedOnce := u.Fields();
    u.Unblock();
    assert u.Fields() == unblockedOnce;
  }

  /** A user built by the validating constructor is well formed, and one setter call with a
      blank value is enough to leave it with a blank field. */
  method SetterBypassesValidation()
  {
    var r := User.Construct(1, Str("ann"), Str("secret"), Str("Ann"), Str("Lee"), Str("Adaptive"));
    assert !IsBlank(Str("ann")) && !IsBlank(Str("secret")) && !IsBlank(Str("Ann"));
    assert !IsBlank(Str("Lee")) && !IsBlank(Str("Adaptive"));
    var u := r.value;
    assert u.WellFormed() && !u.blocked && !u.isAdmin;
    u.SetFirstName(Str(" "));
    assert !u.WellFormed() && u.firstName == Str(" ");
  }

  /** The first blank argument in checking order names the error, whatever follows it. */
  method ConstructorReportsFirstBlank()
  {
    assert !IsWhitespace('a') && AllWhitespace("\t"[1..]);
    assert !IsBlank(Str("ann")) && IsBlank(Str("\t"));
    var r := User.Construct(1, Str("ann"), Str("\t"), Null, Str(""), Null);
    assert CheckedFields[1] == "password";
    assert r == Failure(BusinessException(BlankMessage("password")));
  }
}
