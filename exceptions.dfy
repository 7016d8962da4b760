// The application exception hierarchy of app/core/exceptions.py, and what a
// client receives when one of them is raised inside a route.

module Exceptions {
  import opened Common

  /** A JSON value in an exception's `details`. */
  datatype Value = Text(s: String) | Number(n: int) | Texts(items: seq<String>)

  type Details = map<String, Value>

  /** An `AppException` after its constructor ran; `details or {}` means a
      missing dictionary is stored as the empty one. */
  datatype AppError = AppError(message: String, errorCode: String, statusCode: int, details: Details)

  /** The body `to_dict` builds. */
  datatype ErrorBody = ErrorBody(error: bool, errorCode: String, message: String, details: Option<Details>)

  function AppException(message: String, errorCode: String, statusCode: int, details: Option<Details>): (e: AppError)
    ensures e.message == message && e.errorCode == errorCode && e.statusCode == statusCode
    ensures details.Some? ==> e.details == details.value
    ensures details.None? ==> e.details == map[]
  {
    AppError(message, errorCode, statusCode, if details.Some? then details.value else map[])
  }

  /** `to_dict`: the flag, the code and the message always; the details only
      when there are some. */
  function ToDict(e: AppError): (b: ErrorBody)
    ensures b.error && b.errorCode == e.errorCode && b.message == e.message
    ensures b.details.Some? <==> e.details != map[]
    ensures b.details.Some? ==> b.details.value == e.details
  {
    ErrorBody(true, e.errorCode, e.message, if e.details != map[] then Some(e.details) else None)
  }

  // ---------------------------------------------------------------------
  // Authentication: 401
  // ---------------------------------------------------------------------

  function AuthenticationError(message: String, errorCode: String, details: Option<Details>): AppError {
    AppException(message, errorCode, 401, details)
  }

  function InvalidCredentialsError(): AppError {
    AuthenticationError("Invalid email or password", "INVALID_CREDENTIALS", None)
  }

  /** `InvalidTokenError`: the token type always goes into the details. */
  function InvalidTokenError(message: String, tokenType: String): (e: AppError)
    ensures e.statusCode == 401 && e.errorCode == "INVALID_TOKEN"
    ensures e.details == map["token_type" := Text(tokenType)]
  {
    AuthenticationError(message, "INVALID_TOKEN", Some(map["token_type" := Text(tokenType)]))
  }

  function TokenExpiredError(tokenType: String): AppError {
    AuthenticationError("Your " + tokenType + " token has expired. Please log in again.", "TOKEN_EXPIRED",
                        Some(map["token_type" := Text(tokenType)]))
  }

  function EmailNotVerifiedError(): AppError {
    AuthenticationError("Please verify your email address before logging in", "EMAIL_NOT_VERIFIED", None)
  }

  function AccountInactiveError(): AppError {
    AuthenticationError("Your account has been deactivated. Please contact support.", "ACCOUNT_INACTIVE", None)
  }

  // ---------------------------------------------------------------------
  // Authorization: 403
  // ---------------------------------------------------------------------

  function AuthorizationError(message: String, errorCode: String, details: Option<Details>): AppError {
    AppException(message, errorCode, 403, details)
  }

  /** The required role is recorded only when one is given and non-empty. */
  function InsufficientPermissionsError(requiredRole: Option<String>): (e: AppError)
    ensures e.statusCode == 403
    ensures "required_role" in e.details <==> TruthyStr(requiredRole)
    ensures !TruthyStr(requiredRole) ==> e.details == map[]
  {
    AuthorizationError("You don't have the required permissions for this action", "INSUFFICIENT_PERMISSIONS",
                       if TruthyStr(requiredRole) then Some(map["required_role" := Text(requiredRole.value)]) else None)
  }

  function MentorNotApprovedError(): AppError {
    AuthorizationError("Your mentor application is pending approval", "MENTOR_NOT_APPROVED", None)
  }

  // ---------------------------------------------------------------------
  // Validation: 422
  // ---------------------------------------------------------------------

  /** The details of a `ValidationError`: a non-empty field name is added to
      the caller's dictionary, or becomes the whole dictionary when the caller
      gave none or an empty one. */
  function FieldDetails(field: Option<String>, details: Option<Details>): (d: Option<Details>)
    ensures !TruthyStr(field) ==> d == details
    ensures TruthyStr(field) ==> d.Some? && "field" in d.value && d.value["field"] == Text(field.value)
    ensures TruthyStr(field) && (details.None? || details.value == map[]) ==> d == Some(map["field" := Text(field.value)])
    ensures TruthyStr(field) && details.Some? ==>
              forall k :: k in details.value && k != "field" ==> k in d.value && d.value[k] == details.value[k]
    ensures d.Some? ==> forall k :: k in d.value ==> k == "field" || (details.Some? && k in details.value)
  {
    if TruthyStr(field) && (details.None? || details.value == map[]) then Some(map["field" := Text(field.value)])
    else if TruthyStr(field) then Some(details.value["field" := Text(field.value)])
    else details
  }

  function ValidationError(message: String, errorCode: String, field: Option<String>, details: Option<Details>): (e: AppError)
    ensures e.statusCode == 422
  {
    AppException(message, errorCode, 422, FieldDetails(field, details))
  }

  function EmailAlreadyExistsError(): AppError {
    ValidationError("This email address is already registered", "EMAIL_ALREADY_EXISTS", Some("email"), None)
  }

  function InvalidEmailFormatError(): AppError {
    ValidationError("Please enter a valid email address", "INVALID_EMAIL_FORMAT", Some("email"), None)
  }

  function WeakPasswordError(requirements: Option<seq<String>>): AppError {
    ValidationError("Password must be at least 8 characters with one uppercase letter and one number",
                    "WEAK_PASSWORD", Some("password"),
                    if requirements.Some? && requirements.value != [] then Some(map["requirements" := Texts(requirements.value)]) else None)
  }

  function PasswordMismatchError(): AppError {
    ValidationError("Passwords do not match", "PASSWORD_MISMATCH", Some("confirm_password"), None)
  }

  function InvalidResetTokenError(): AppError {
    ValidationError("This password reset link is invalid or has expired. Please request a new one.",
                    "INVALID_RESET_TOKEN", Some("token"), None)
  }

  function InvalidVerificationTokenError(): AppError {
    ValidationError("This verification link is invalid or has expired. Please request a new one.",
                    "INVALID_VERIFICATION_TOKEN", Some("token"), None)
  }

  // ---------------------------------------------------------------------
  // Not found: 404
  // ---------------------------------------------------------------------

  /** "{resource} not found", with the id in the details only when given. */
  function ResourceNotFoundError(resource: String, resourceId: Option<String>): (e: AppError)
    ensures e.statusCode == 404 && e.message == resource + " not found"
    ensures "resource_id" in e.details <==> TruthyStr(resourceId)
    ensures TruthyStr(resourceId) ==> e.details == map["resource_id" := Text(resourceId.value)]
    ensures !TruthyStr(resourceId) ==> e.details == map[]
  {
    AppException(resource + " not found", "RESOURCE_NOT_FOUND", 404,
                 if TruthyStr(resourceId) then Some(map["resource_id" := Text(resourceId.value)]) else None)
  }

  function UserNotFoundError(userId: Option<String>): AppError { ResourceNotFoundError("User", userId) }

  function LoungeNotFoundError(loungeId: Option<String>): AppError { ResourceNotFoundError("Lounge", loungeId) }

  function MentorNotFoundError(mentorId: Option<String>): AppError { ResourceNotFoundError("Mentor", mentorId) }

  // ---------------------------------------------------------------------
  // Business rules: 400
  // ---------------------------------------------------------------------

  function BusinessError(message: String, errorCode: String, details: Option<Details>): AppError {
    AppException(message, errorCode, 400, details)
  }

  function SubscriptionRequiredError(feature: Option<String>): AppError {
    BusinessError("An active subscription is required for this feature", "SUBSCRIPTION_REQUIRED",
                  if TruthyStr(feature) then Some(map["feature" := Text(feature.value)]) else None)
  }

  /** The three numbers of the limit are carried in the details. */
  function SubscriptionLimitExceededError(limitType: String, current: int, maxAllowed: int): (e: AppError)
    ensures e.statusCode == 400 && e.errorCode == "SUBSCRIPTION_LIMIT_EXCEEDED"
    ensures e.details.Keys == {"limit_type", "current", "max_allowed"}
    ensures e.details["limit_type"] == Text(limitType) && e.details["current"] == Number(current) &&
            e.details["max_allowed"] == Number(maxAllowed)
  {
    BusinessError("You've reached your " + limitType + " limit (" + IntToString(current) + "/" + IntToString(maxAllowed) + ")",
                  "SUBSCRIPTION_LIMIT_EXCEEDED",
                  Some(map["limit_type" := Text(limitType), "current" := Number(current), "max_allowed" := Number(maxAllowed)]))
  }

  function AlreadyMemberError(resource: String): AppError {
    BusinessError("You are already a member of this " + resource, "ALREADY_MEMBER", None)
  }

  // ---------------------------------------------------------------------
  // External services: 502; rate limiting: 429
  // ---------------------------------------------------------------------

  /** The message defaults when none (or an empty one) is given; the service
      is always named in the details. */
  function ExternalServiceError(service: String, message: Option<String>): (e: AppError)
    ensures e.statusCode == 502 && e.details == map["service" := Text(service)]
    ensures TruthyStr(message) ==> e.message == message.value
    ensures !TruthyStr(message) ==> e.message == "Failed to communicate with " + service
  {
    AppException(if TruthyStr(message) then message.value else "Failed to communicate with " + service,
                 "EXTERNAL_SERVICE_ERROR", 502, Some(map["service" := Text(service)]))
  }

  function GoogleOAuthError(message: String): AppError { ExternalServiceError("Google OAuth", Some(message)) }

  function StripeError(message: String): AppError { ExternalServiceError("Stripe", Some(message)) }

  function OpenAIError(message: String): AppError { ExternalServiceError("OpenAI", Some(message)) }

  function RateLimitExceededError(retryAfter: Option<int>): (e: AppError)
    ensures e.statusCode == 429
    ensures "retry_after_seconds" in e.details <==> Truthy(retryAfter)
    ensures !Truthy(retryAfter) ==> e.details == map[]
  {
    AppException("Too many requests. Please try again later.", "RATE_LIMIT_EXCEEDED", 429,
                 if Truthy(retryAfter) then Some(map["retry_after_seconds" := Number(retryAfter.value)]) else None)
  }

  /** Each family carries its own status code, whatever the subclass. */
  lemma FamilyStatusCodes(message: String, code: String, field: Option<String>, details: Option<Details>,
                          resource: String, id: Option<String>, service: String, text: Option<String>, retry: Option<int>)
    ensures AuthenticationError(message, code, details).statusCode == 401
    ensures InvalidCredentialsError().statusCode == 401 && AccountInactiveError().statusCode == 401
    ensures InvalidTokenError(message, code).statusCode == 401 && TokenExpiredError(code).statusCode == 401
    ensures AuthorizationError(message, code, details).statusCode == 403 && MentorNotApprovedError().statusCode == 403
    ensures ValidationError(message, code, field, details).statusCode == 422
    ensures EmailAlreadyExistsError().statusCode == 422 && InvalidResetTokenError().statusCode == 422
    ensures ResourceNotFoundError(resource, id).statusCode == 404 && UserNotFoundError(id).statusCode == 404
    ensures BusinessError(message, code, details).statusCode == 400 && AlreadyMemberError(resource).statusCode == 400
    ensures ExternalServiceError(service, text).statusCode == 502 && GoogleOAuthError(message).statusCode == 502
    ensures RateLimitExceededError(retry).statusCode == 429
  {
  }

  /** The body of every family carries its own code and message; errors
      with a field name always report it. */
  lemma FieldAlwaysReported(message: String, code: String, field: String, details: Option<Details>)
    requires field != []
    ensures ToDict(ValidationError(message, code, Some(field), details)).details.Some?
    ensures ToDict(ValidationError(message, code, Some(field), details)).details.value["field"] == Text(field)
  {
  }

  // ---------------------------------------------------------------------
  // What the client receives
  // ---------------------------------------------------------------------

  /** An HTTP response: status and JSON body. */
  datatype Response = ErrorResponse(status: int, body: ErrorBody) | PlainDetail(status: int, detail: String)

  /** The application registers handlers only for request-validation errors
      and for `Exception` (app/main.py); an `AppException` is neither an
      `HTTPException` nor a validation error, so it reaches the catch-all,
      which answers 500 with the exception text in debug mode and the
      generic text otherwise. */
  function ResponseAsWritten(e: AppError, debug: bool): (r: Response)
    ensures r.status == 500
  {
    PlainDetail(500, if debug then e.message else InternalError)
  }

  /** The response the hierarchy is designed for: the family's status code
      with the `to_dict` body. */
  function IntendedResponse(e: AppError): (r: Response)
    ensures r.status == e.statusCode && r.ErrorResponse? && r.body == ToDict(e)
  {
    ErrorResponse(e.statusCode, ToDict(e))
  }

  /** A wrong password is answered 500 as written, where 401 with
      INVALID_CREDENTIALS is intended. */
  lemma InvalidCredentialsIs500AsWritten(debug: bool)
    ensures ResponseAsWritten(InvalidCredentialsError(), debug).status == 500
    ensures IntendedResponse(InvalidCredentialsError()).status == 401
    ensures IntendedResponse(InvalidCredentialsError()).body.errorCode == "INVALID_CREDENTIALS"
  {
  }
}
