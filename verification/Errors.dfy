/** What a handler can answer instead of a result (AppError), mostly without its texts. */
module Errors {
  import opened ObjectKeys

  // Panicked stands for a handler that panics; it is no value of the program's type.
  datatype AppError =
    | DataNotFound
    | Forbidden
    | DatabaseConflict
    | ApiRuleConflict(ruleId: Uuid)
    | ValidationError
    | ValidationMessage(about: string)
    | UnexpectedError
    | Panicked
}
