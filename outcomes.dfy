/** Optional values, the failures the transfer pipeline can raise, and a result
    type that carries either a value or one of those failures. */
module Outcomes {

  datatype Option<+T> = None | Some(value: T)

  /** The exceptions that escape the pipeline, one constructor per distinct cause. */
  datatype Error =
    | IndexError                // a list index out of range: no "/playlist/" in the link, or an empty artist list
    | AttributeError            // `.get` called on a null track object
    | CredentialsMissing        // "Spotify credentials not configured"
    | TokenRejected(status: int) // "Failed to get access token"
    | NetworkError              // the HTTP library raised: the requested URL is not served
    | ApiError(status: int)     // "Spotify API error: <status>"
    | SetupFailed               // the destination session could not be built from the header text
    | CreateFailed              // the destination rejected the playlist creation
    | NoSongsFound              // "No songs found on YouTube Music"

  datatype Result<+T> = Ok(value: T) | Err(error: Error)
}
