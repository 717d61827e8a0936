/** The failures the service can raise or report. */
module Errors {

  datatype Error =
    /** The translation provider answered with an HTTP error status (`raise_for_status`). */
    | ProviderError(status: int)
    /** The provider's JSON body does not have the shape the parser walks
        (an `AttributeError` or `TypeError` in Python). */
    | ShapeError
    /** A row or a built record does not fit the `WordInfo` schema (pydantic validation). */
    | ValidationError
    /** A listing row lacks a field that a flag asked for (a Python `KeyError`). */
    | KeyError(key: string)
    /** The delete handler's 404 "Word not found". */
    | NotFound
}
