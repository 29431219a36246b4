/**
 * The service error taxonomy and its translation into HTTP errors.
 * An error is a value carrying its class, message, machine-readable code and
 * details; the constructors below are the classes' `__init__` methods.
 */
module Errors {
  import opened Wrappers
  import Strings

  /** A value stored in an error's details. */
  datatype DetailValue = Text(text: string) | Number(number: int)

  type Details = map<string, DetailValue>

  /** Which class of the hierarchy an error was raised as. */
  datatype ErrorKind = Generic | Validation | NotFound | Conflict

  datatype ServiceError = ServiceError(kind: ErrorKind, message: string, errorCode: string, details: Details)

  const ServiceErrorCode := "SERVICE_ERROR"
  const ValidationErrorCode := "VALIDATION_ERROR"
  const NotFoundErrorCode := "NOT_FOUND"
  const ConflictErrorCode := "CONFLICT"

  /** `str(value)` of a detail. */
  function Show(v: DetailValue): string {
    match v
    case Text(t) => t
    case Number(n) => Strings.IntToString(n)
  }

  /** `ServiceError(message, error_code, details)`. */
  function NewServiceError(message: string, errorCode: string := ServiceErrorCode, details: Details := map[]): (e: ServiceError)
    ensures e.kind == Generic && e.message == message && e.errorCode == errorCode
    ensures e.details == details
  {
    ServiceError(Generic, message, errorCode, details)
  }

  /** `ValidationError(message, field, details)`: `field` is recorded only when it is a non-empty string. */
  function NewValidationError(message: string, field: Option<string> := None, details: Details := map[]): (e: ServiceError)
    ensures e.kind == Validation && e.errorCode == ValidationErrorCode && e.message == message
    ensures "field" in e.details <==> "field" in details || (field.Some? && field.value != "")
    ensures field.Some? && field.value != "" ==> e.details["field"] == Text(field.value)
    ensures forall k :: k in details && k != "field" ==> k in e.details && e.details[k] == details[k]
    ensures forall k :: k in e.details ==> k in details || k == "field"
  {
    var d := if field.Some? && field.value != "" then details["field" := Text(field.value)] else details;
    ServiceError(Validation, message, ValidationErrorCode, d)
  }

  /**
   * `NotFoundError(resource_type, resource_id, details)`: the message names the
   * resource and the details gain its type and id.
   */
  function NewNotFoundError(resourceType: string, resourceId: DetailValue, details: Details := map[]): (e: ServiceError)
    ensures e.kind == NotFound && e.errorCode == NotFoundErrorCode
    ensures e.message == resourceType + " with ID " + Show(resourceId) + " not found"
    ensures e.details.Keys == details.Keys + {"resource_type", "resource_id"}
    ensures e.details["resource_type"] == Text(resourceType) && e.details["resource_id"] == resourceId
    ensures forall k :: k in details && k !in {"resource_type", "resource_id"} ==> e.details[k] == details[k]
  {
    var message := resourceType + " with ID " + Show(resourceId) + " not found";
    ServiceError(NotFound, message, NotFoundErrorCode,
      details["resource_type" := Text(resourceType)]["resource_id" := resourceId])
  }

  /** `ConflictError(message, conflicting_field, details)`. */
  function NewConflictError(message: string, conflictingField: Option<string> := None, details: Details := map[]): (e: ServiceError)
    ensures e.kind == Conflict && e.errorCode == ConflictErrorCode && e.message == message
    ensures "conflicting_field" in e.details <==>
              "conflicting_field" in details || (conflictingField.Some? && conflictingField.value != "")
    ensures conflictingField.Some? && conflictingField.value != "" ==>
              e.details["conflicting_field"] == Text(conflictingField.value)
    ensures forall k :: k in details && k != "conflicting_field" ==> k in e.details && e.details[k] == details[k]
    ensures forall k :: k in e.details ==> k in details || k == "conflicting_field"
  {
    var d := if conflictingField.Some? && conflictingField.value != ""
      then details["conflicting_field" := Text(conflictingField.value)] else details;
    ServiceError(Conflict, message, ConflictErrorCode, d)
  }

  /** The body of an HTTP error: a plain string, or the structured `{error, message, details}`. */
  datatype HttpDetail =
    | Plain(text: string)
    | Structured(error: string, message: string, details: Details)

  datatype HttpException = HttpException(statusCode: int, detail: HttpDetail)

  const HTTP_400_BAD_REQUEST := 400
  const HTTP_404_NOT_FOUND := 404
  const HTTP_409_CONFLICT := 409
  const HTTP_422_UNPROCESSABLE_ENTITY := 422

  function StatusFor(kind: ErrorKind): int {
    match kind
    case Validation => HTTP_422_UNPROCESSABLE_ENTITY
    case NotFound => HTTP_404_NOT_FOUND
    case Conflict => HTTP_409_CONFLICT
    case Generic => HTTP_400_BAD_REQUEST
  }

  /** `service_error_to_http_exception`: the status follows the class, the detail carries the error unchanged. */
  function ToHttpException(e: ServiceError): (h: HttpException)
    ensures h.statusCode in {400, 404, 409, 422}
    ensures h.statusCode == 422 <==> e.kind == Validation
    ensures h.statusCode == 404 <==> e.kind == NotFound
    ensures h.statusCode == 409 <==> e.kind == Conflict
    ensures h.statusCode == 400 <==> e.kind == Generic
    ensures h.detail == Structured(e.errorCode, e.message, e.details)
  {
    HttpException(StatusFor(e.kind), Structured(e.errorCode, e.message, e.details))
  }

  /** Distinct classes give distinct statuses, so the status identifies the class. */
  lemma StatusIdentifiesKind(a: ErrorKind, b: ErrorKind)
    ensures StatusFor(a) == StatusFor(b) <==> a == b
  {
  }

  /** Whatever constructor built an error, its code and its HTTP status agree. */
  lemma ConstructedErrorsMapConsistently(message: string, field: Option<string>, resourceType: string, id: DetailValue)
    ensures var h := ToHttpException(NewValidationError(message, field));
      h.statusCode == 422 && h.detail.error == "VALIDATION_ERROR"
    ensures var h := ToHttpException(NewNotFoundError(resourceType, id));
      h.statusCode == 404 && h.detail.error == "NOT_FOUND"
    ensures var h := ToHttpException(NewConflictError(message, field));
      h.statusCode == 409 && h.detail.error == "CONFLICT"
    ensures var h := ToHttpException(NewServiceError(message));
      h.statusCode == 400 && h.detail.error == "SERVICE_ERROR"
  {
  }
}
