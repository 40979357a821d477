/** The start page: the username control's four validators, the error message chosen
    when the form is invalid, and what "start chat" does with a name. The token
    request itself is a network call; only its outcome comes in. */
module Home {
  import opened JsString

  const MinNameLength := 3
  const MaxNameLength := 20

  /** The error keys the validators report. */
  datatype ValidationError = Required | MinLength | MaxLength | Pattern

  /** The localisation key of the message shown for each error. */
  function ErrorKey(e: ValidationError): string {
    match e
    case Required => "HOME.ERROR_REQUIRED"
    case MinLength => "HOME.ERROR_MINLENGTH"
    case MaxLength => "HOME.ERROR_MAXLENGTH"
    case Pattern => "HOME.ERROR_PATTERN"
  }

  /** The errors the control carries for a value. As the form library defines its
      validators, `required` fires only on the empty value, while `minLength` and
      `pattern` skip the empty value; the pattern `^\S+$` fails on a nonempty value
      exactly when it contains whitespace. */
  function Errors(value: string): set<ValidationError> {
    (if |value| == 0 then {Required} else {})
    + (if 0 < |value| < MinNameLength then {MinLength} else {})
    + (if |value| > MaxNameLength then {MaxLength} else {})
    + (if 0 < |value| && !NoWhitespace(value) then {Pattern} else {})
  }

  /** Position in the if/else-if chain of `startChat`: lower is checked first. */
  function Precedence(e: ValidationError): nat {
    match e
    case Required => 0
    case MinLength => 1
    case MaxLength => 2
    case Pattern => 3
  }

  /** The if/else-if chain: the first error present in the order required, minlength,
      maxlength, pattern. It always finds one when there is any, and the one it finds
      outranks every other present. */
  function ChosenError(errors: set<ValidationError>): (r: ValidationError)
    requires errors != {}
    ensures r in errors
    ensures forall e :: e in errors ==> Precedence(r) <= Precedence(e)
  {
    if Required in errors then Required
    else if MinLength in errors then MinLength
    else if MaxLength in errors then MaxLength
    else
      assert errors == {Pattern} by {
        forall e | e in errors ensures e == Pattern { }
      }
      Pattern
  }

  /** What `startChat` does with the value typed: show one error message, return
      silently (a name that trims to nothing), or request a token for the trimmed name. */
  datatype StartOutcome = ShowError(key: string) | Silent | RequestToken(name: string)

  function StartChat(value: string): StartOutcome {
    var errors := Errors(value);
    if errors != {} then ShowError(ErrorKey(ChosenError(errors)))
    else
      var name := Trim(value);
      if name == "" then Silent else RequestToken(name)
  }

  /** The acceptance rule as the validators' configuration states it: present, 3 to 20
      characters, no whitespace anywhere. */
  predicate Acceptable(value: string) {
    |value| > 0 && MinNameLength <= |value| <= MaxNameLength && NoWhitespace(value)
  }

  /** The control is valid exactly for acceptable values. */
  lemma NoErrorsIffAcceptable(value: string)
    ensures Errors(value) == {} <==> Acceptable(value)
  {
    if |value| == 0 {
      assert Required in Errors(value);
    } else if |value| < MinNameLength {
      assert MinLength in Errors(value);
    } else if |value| > MaxNameLength {
      assert MaxLength in Errors(value);
    } else if !NoWhitespace(value) {
      assert Pattern in Errors(value);
    }
  }

  lemma AcceptableRequestsToken(value: string)
    requires Acceptable(value)
    ensures StartChat(value) == RequestToken(value)
  {
    NoErrorsIffAcceptable(value);
    TrimKeepsWhitespaceFree(value);
  }

  lemma UnacceptableShowsError(value: string)
    requires !Acceptable(value)
    ensures StartChat(value).ShowError?
  {
    NoErrorsIffAcceptable(value);
  }

  /** A token is requested exactly for acceptable names, and for them with the name as
      typed; every other value shows an error, so no request is made before validation. */
  lemma StartChatAcceptsIff(value: string)
    ensures StartChat(value).RequestToken? <==> Acceptable(value)
    ensures StartChat(value).ShowError? <==> !Acceptable(value)
    ensures Acceptable(value) ==> StartChat(value) == RequestToken(value)
  {
    if Acceptable(value) {
      AcceptableRequestsToken(value);
    } else {
      UnacceptableShowsError(value);
    }
  }

  /** The empty-name early return after trimming never fires: validation already
      rejected everything that could trim to nothing. */
  lemma SilentReturnUnreachable(value: string)
    ensures StartChat(value) != Silent
  {
    StartChatAcceptsIff(value);
  }

  /** The one message shown for an invalid value, by the fixed precedence: required,
      then too short, then too long, then whitespace. An overlong name with a space
      reports the length, a short one with a space the shortness. */
  lemma ErrorByPrecedence(value: string)
    requires !Acceptable(value)
    ensures StartChat(value) == ShowError(ErrorKey(
              if |value| == 0 then Required
              else if |value| < MinNameLength then MinLength
              else if |value| > MaxNameLength then MaxLength
              else Pattern))
  {
    var errors := Errors(value);
    if |value| == 0 {
      assert Required in errors;
    } else if |value| < MinNameLength {
      assert MinLength in errors && Required !in errors;
    } else if |value| > MaxNameLength {
      assert MaxLength in errors && Required !in errors && MinLength !in errors;
    } else {
      assert Pattern in errors && errors == {Pattern};
    }
  }

  /** The reply to the token request. */
  datatype TokenReply = TokenGranted(token: string) | RequestFailed

  /** What the page does next: open the chat route with the token and the name as
      query parameters, or show the server error. */
  datatype AfterReply = OpenChat(route: string, token: string, name: string) | ShowServerError

  function OnTokenReply(name: string, reply: TokenReply): AfterReply {
    match reply
    case TokenGranted(t) => OpenChat("/chat", t, name)
    case RequestFailed => ShowServerError
  }

  /** For an acceptable name, a granted token leads to the chat route carrying that
      token and exactly the name typed; a failed request only shows the error. */
  lemma ChatRouteCarriesNameAndToken(value: string, reply: TokenReply)
    requires Acceptable(value)
    ensures var next := OnTokenReply(StartChat(value).name, reply);
            && (reply.TokenGranted? ==> next == OpenChat("/chat", reply.token, value))
            && (reply.RequestFailed? ==> next == ShowServerError)
  {
    StartChatAcceptsIff(value);
  }
}
