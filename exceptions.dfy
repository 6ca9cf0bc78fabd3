/** Failure values shared by the model: an Option, a Result, and the typed
    errors the text-generation endpoints raise (horde.exceptions). */
module Exceptions {

  datatype Option<+T> = None | Some(value: T)

  /** The reason a Python `str.format_map` call raises ValueError, or why a
      template falls outside the part of the format language that is modelled. */
  datatype FormatError =
    | SingleCloseBrace      // a '}' that is not part of '}}'
    | SingleOpenBrace       // a '{' as the last character
    | UnclosedField         // '{name' with no closing '}'
    | PositionalField       // '{}' or '{0}': format_map has no positional arguments
    | OutsideSubset         // conversions, format specs, attribute or index fields

  /** The errors raised by the endpoints. `rc` is the return code handed to the
      exception; `None` means the exception's own default code. */
  datatype HordeError =
    | KudosUpfront(required: real, rc: Option<string>)
    | BadRequest(message: string, rc: Option<string>)
    | RequestNotFound(id: string)
    | UserNotFound(userId: string)
    | FormatFailure(reason: FormatError)   // ValueError escaping str.format_map
    | EmptyStyleCollection                 // IndexError from colstyles[0]

  datatype Result<+T> = Ok(value: T) | Err(error: HordeError)
}
