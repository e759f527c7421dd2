/** Account creation: the form's checks, the account and profile it
    creates, and the message it shows when the authentication service
    refuses. */
module Signup {
  import opened Js
  import opened Types
  import opened Auth
  import opened Membership
  import opened MemberQueries

  const MinPasswordLength: nat := 6

  const NameRequiredError := "Display Name is required."
  const PasswordTooShortError := "Password should be at least 6 characters long."

  const GenericError := "Failed to create account. Please try again."
  const EmailInUseError := "This email address is already in use. Please try logging in."
  const WeakPasswordError := "The password is too weak. Please choose a stronger password."
  const InvalidEmailError := "Please enter a valid email address."
  const NotAllowedError := "Email/password accounts are not enabled. Contact support."

  /** The error codes the page recognises. */
  predicate IsKnownCode(code: string) {
    code in {"auth/email-already-in-use", "auth/weak-password", "auth/invalid-email", "auth/operation-not-allowed"}
  }

  /** The message shown for the code of a failed signup step. */
  function FriendlyError(code: string): (message: string)
    ensures code == "auth/email-already-in-use" ==> message == EmailInUseError
    ensures code == "auth/weak-password" ==> message == WeakPasswordError
    ensures code == "auth/invalid-email" ==> message == InvalidEmailError
    ensures code == "auth/operation-not-allowed" ==> message == NotAllowedError
    ensures !IsKnownCode(code) ==> message == GenericError
  {
    if code == "auth/email-already-in-use" then EmailInUseError
    else if code == "auth/weak-password" then WeakPasswordError
    else if code == "auth/invalid-email" then InvalidEmailError
    else if code == "auth/operation-not-allowed" then NotAllowedError
    else GenericError
  }

  /** Each known code has a message of its own: the message tells which
      known code occurred, and no known code is reported generically. */
  lemma FriendlyErrorDistinguishes(c1: string, c2: string)
    requires IsKnownCode(c1)
    ensures FriendlyError(c1) != GenericError
    ensures FriendlyError(c1) == FriendlyError(c2) ==> c1 == c2
  {
  }

  /** The profile document written for a new account. */
  function InitialProfile(user: AuthUser, displayName: string, now: int): (p: UserProfile)
    ensures p.uid == user.uid && p.email == user.email && p.displayName == Trim(displayName)
    ensures p.phoneNumber == "" && p.fcmToken.None? && p.groupId.None? && p.role == Member
    ensures p.createdAt == now
  {
    UserProfile(user.uid, user.email, Trim(displayName), "", None, None, Member, now)
  }

  /** A new account starts outside every group, is offered to admins for
      adding, and writing its profile keeps a consistent store consistent. */
  lemma NewProfileKeepsConsistent(db: Db, user: AuthUser, displayName: string, now: int)
    requires Consistent(db) && user.uid !in db.users
    ensures
      var after := Db(db.users[user.uid := InitialProfile(user, displayName, now)], db.groups);
      Consistent(after) && user.uid in UsersWithoutGroup(after.users)
  {
    var after := Db(db.users[user.uid := InitialProfile(user, displayName, now)], db.groups);
    forall gid | gid in db.groups
      ensures !Listed(db, gid, user.uid)
    {
    }
    forall gid, u | Listed(after, gid, u)
      ensures u in after.users
    {
      assert Listed(db, gid, u);
    }
    assert MembersHaveProfiles(after);
    assert PointersMatchLists(after);
  }

  /** How the authentication service answered `createUserWithEmailAndPassword`. */
  datatype CreateOutcome = Created(user: AuthUser) | CreateRefused(code: string)

  /** The three awaited steps, as far as they got: each later step only
      runs when the earlier ones succeeded. A failure carries its code. */
  datatype SignupSteps = SignupSteps(create: CreateOutcome, updateProfileError: Option<string>,
                                     setDocError: Option<string>)

  datatype SignupOutcome =
    | NameRequired
    | PasswordTooShort
    | Refused(message: string)
    | SignedUp(profile: UserProfile)

  /** What one submission of the form leads to. */
  function SignupResult(displayName: string, password: string, steps: SignupSteps, now: int): (r: SignupOutcome)
    ensures r == NameRequired <==> Trim(displayName) == ""
    ensures r == PasswordTooShort <==> Trim(displayName) != "" && |password| < MinPasswordLength
    ensures r.SignedUp? <==>
      Trim(displayName) != "" && |password| >= MinPasswordLength && steps.create.Created?
      && steps.updateProfileError.None? && steps.setDocError.None?
    ensures r.SignedUp? ==> r.profile == InitialProfile(steps.create.user, displayName, now)
    ensures r.Refused? && steps.create.CreateRefused? ==> r.message == FriendlyError(steps.create.code)
  {
    if Trim(displayName) == "" then NameRequired
    else if |password| < MinPasswordLength then PasswordTooShort
    else match steps.create
      case CreateRefused(code) => Refused(FriendlyError(code))
      case Created(user) =>
        if steps.updateProfileError.Some? then Refused(FriendlyError(steps.updateProfileError.value))
        else if steps.setDocError.Some? then Refused(FriendlyError(steps.setDocError.value))
        else SignedUp(InitialProfile(user, displayName, now))
  }

  /** The error line the form shows for an outcome. */
  function ErrorLine(r: SignupOutcome): Option<string> {
    match r
    case NameRequired => Some(NameRequiredError)
    case PasswordTooShort => Some(PasswordTooShortError)
    case Refused(message) => Some(message)
    case SignedUp(_) => None
  }

  /** An invalid form never reaches the authentication service: no account
      is created unless both checks pass. */
  lemma ChecksComeFirst(displayName: string, password: string, steps: SignupSteps, now: int)
    requires Trim(displayName) == "" || |password| < MinPasswordLength
    ensures !SignupResult(displayName, password, steps, now).SignedUp?
    ensures !SignupResult(displayName, password, steps, now).Refused?
  {
  }

  /** The form's state. */
  class SignupPage {
    var email: string
    var password: string
    var displayName: string
    var loading: bool
    var error: Option<string>

    constructor ()
      ensures email == "" && password == "" && displayName == "" && !loading && error == None
    {
      email := "";
      password := "";
      displayName := "";
      loading := false;
      error := None;
    }

    /** `handleSignup`: `loading` is set on entry and cleared on every exit;
        the error line ends as the outcome dictates. */
    method HandleSignup(steps: SignupSteps, now: int) returns (outcome: SignupOutcome)
      modifies this`loading, this`error
      ensures outcome == SignupResult(displayName, password, steps, now)
      ensures error == ErrorLine(outcome)
      ensures !loading
    {
      loading := true;
      error := None;
      if Trim(displayName) == "" {
        error := Some(NameRequiredError);
        loading := false;
        return NameRequired;
      }
      if |password| < MinPasswordLength {
        error := Some(PasswordTooShortError);
        loading := false;
        return PasswordTooShort;
      }
      match steps.create {
        case CreateRefused(code) =>
          outcome := Refused(FriendlyError(code));
        case Created(user) =>
          if steps.updateProfileError.Some? {
            outcome := Refused(FriendlyError(steps.updateProfileError.value));
          } else if steps.setDocError.Some? {
            outcome := Refused(FriendlyError(steps.setDocError.value));
          } else {
            var newUserProfile := InitialProfile(user, displayName, now);
            outcome := SignedUp(newUserProfile);
          }
      }
      if outcome.Refused? {
        error := Some(outcome.message);
      }
      loading := false;
    }
  }
}
