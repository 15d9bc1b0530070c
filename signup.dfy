/**
 * The `signup` route: a duplicate-email check against the provider's user
 * listing, then account creation, whose error message is rewritten into a
 * user-facing Korean text by an ordered chain of substring tests.
 */
module Signup {
  import opened Text
  import opened Optional

  const DuplicateEmailMessage: string := "이미 사용 중인 이메일입니다."
  const WeakPasswordMessage: string := "비밀번호는 최소 6자 이상이어야 합니다."
  const InvalidEmailMessage: string := "유효한 이메일 주소를 입력해주세요."
  const RetryLaterMessage: string := "회원가입 처리 중 오류가 발생했습니다. 잠시 후 다시 시도해주세요."
  const SignupFailedMessage: string := "회원가입 중 오류가 발생했습니다."

  predicate MentionsDuplicate(message: string) {
    Includes(message, "already registered") || Includes(message, "already exists")
  }

  predicate MentionsPassword(message: string) {
    Includes(message, "password")
  }

  predicate MentionsEmail(message: string) {
    Includes(message, "email")
  }

  predicate MentionsBackend(message: string) {
    Includes(message, "Database") || Includes(message, "destination")
  }

  /** Some test of the chain matches `message`. */
  predicate MentionsAny(message: string) {
    MentionsDuplicate(message) || MentionsPassword(message) || MentionsEmail(message) || MentionsBackend(message)
  }

  /**
   * The rewriting the route promises: the first matching test, in the order
   * duplicate, password, email, backend, decides the text shown; a message
   * that matches none is shown as it is.
   */
  predicate Rewritten(message: string, shown: string) {
    (MentionsDuplicate(message) ==> shown == DuplicateEmailMessage) &&
    (!MentionsDuplicate(message) && MentionsPassword(message) ==> shown == WeakPasswordMessage) &&
    (!MentionsDuplicate(message) && !MentionsPassword(message) && MentionsEmail(message) ==> shown == InvalidEmailMessage) &&
    (!MentionsDuplicate(message) && !MentionsPassword(message) && !MentionsEmail(message) && MentionsBackend(message) ==>
       shown == RetryLaterMessage) &&
    (!MentionsAny(message) ==> shown == message)
  }

  /** Every pattern of the chain has an 'a', so a text without one matches no test. */
  lemma WithoutAMentionsNothing(message: string)
    requires 'a' !in message
    ensures !MentionsAny(message)
  {
    AbsentCharExcludes(message, "already registered", 0);
    AbsentCharExcludes(message, "already exists", 0);
    AbsentCharExcludes(message, "password", 1);
    AbsentCharExcludes(message, "email", 2);
    AbsentCharExcludes(message, "Database", 1);
    AbsentCharExcludes(message, "destination", 6);
  }

  /** None of the four replacement texts matches any test of the chain. */
  lemma ReplacementsMentionNothing()
    ensures !MentionsAny(DuplicateEmailMessage)
    ensures !MentionsAny(WeakPasswordMessage)
    ensures !MentionsAny(InvalidEmailMessage)
    ensures !MentionsAny(RetryLaterMessage)
  {
    DuplicateEmailMessageLacksA();
    WithoutAMentionsNothing(DuplicateEmailMessage);
    WeakPasswordMessageLacksA();
    WithoutAMentionsNothing(WeakPasswordMessage);
    InvalidEmailMessageLacksA();
    WithoutAMentionsNothing(InvalidEmailMessage);
    RetryLaterMessageLacksA();
    WithoutAMentionsNothing(RetryLaterMessage);
  }

  lemma DuplicateEmailMessageLacksA()
    ensures 'a' !in DuplicateEmailMessage
  {
  }

  lemma WeakPasswordMessageLacksA()
    ensures 'a' !in WeakPasswordMessage
  {
  }

  lemma InvalidEmailMessageLacksA()
    ensures 'a' !in InvalidEmailMessage
  {
  }

  lemma RetryLaterMessageLacksA()
    ensures 'a' !in RetryLaterMessage
  {
  }

  /**
   * The `if`/`else if` chain that turns the provider's error message into
   * the text shown to the user.
   */
  method FriendlySignupError(message: string) returns (errorMessage: string)
    ensures Rewritten(message, errorMessage)
    ensures errorMessage == message <==> !MentionsAny(message)
    ensures !MentionsAny(errorMessage)
  {
    ReplacementsMentionNothing();
    errorMessage := message;
    if Includes(message, "already registered") || Includes(message, "already exists") {
      errorMessage := DuplicateEmailMessage;
    } else if Includes(message, "password") {
      errorMessage := WeakPasswordMessage;
    } else if Includes(message, "email") {
      errorMessage := InvalidEmailMessage;
    } else if Includes(message, "Database") || Includes(message, "destination") {
      errorMessage := RetryLaterMessage;
    }
  }

  /** The precedence order leaves exactly one admissible text for every message. */
  lemma RewrittenUnique(message: string, a: string, b: string)
    requires Rewritten(message, a) && Rewritten(message, b)
    ensures a == b
  {
  }

  /** Rewriting is idempotent: a shown text is shown unchanged if it is rewritten again. */
  lemma RewrittenIdempotent(message: string, shown: string)
    requires Rewritten(message, shown)
    ensures Rewritten(shown, shown)
  {
    ReplacementsMentionNothing();
  }

  // ---------------------------------------------------------------------------
  // The route

  /** The request body's fields. */
  datatype SignupRequest = SignupRequest(email: string, password: string, name: string)

  /**
   * What the provider's `listUsers` gave: the e-mail addresses of the existing
   * users, or `ListingFailed` when it reported an error, threw, or returned no
   * user array (the route goes on to create the account in all three cases).
   */
  datatype UserListing = ListingFailed | ListedUsers(emails: seq<string>)

  /** What the provider's `createUser` gave. */
  datatype CreateOutcome = CreatedUser(userId: string) | CreateRejected(message: string)

  datatype SignupReply =
    | SignedUp(userId: string)
    | SignupRejected(status: int, error: string, details: Option<string>)

  /**
   * The route handler. `request` is `None` when the body is not JSON. The
   * provider's two calls are given by their outcomes; `createCalled` tells
   * whether the route asked the provider to create the account.
   */
  method HandleSignup(request: Option<SignupRequest>, listing: UserListing, create: CreateOutcome)
    returns (reply: SignupReply, ghost createCalled: bool)
    ensures request.None? ==> reply == SignupRejected(500, SignupFailedMessage, None) && !createCalled
    ensures request.Some? && listing.ListedUsers? && request.value.email in listing.emails ==>
      reply == SignupRejected(400, DuplicateEmailMessage, None) && !createCalled
    ensures request.Some? && !(listing.ListedUsers? && request.value.email in listing.emails) ==>
      createCalled &&
      (match create
       case CreatedUser(id) => reply == SignedUp(id)
       case CreateRejected(m) =>
         reply.SignupRejected? && reply.status == 400 && Rewritten(m, reply.error) && reply.details == Some(m))
  {
    if request.None? {
      return SignupRejected(500, SignupFailedMessage, None), false;
    }
    var email := request.value.email;
    if listing.ListedUsers? {
      if email in listing.emails {
        return SignupRejected(400, DuplicateEmailMessage, None), false;
      }
    }
    createCalled := true;
    match create {
      case CreateRejected(m) =>
        var errorMessage := FriendlySignupError(m);
        reply := SignupRejected(400, errorMessage, Some(m));
      case CreatedUser(id) =>
        reply := SignedUp(id);
    }
  }
}
