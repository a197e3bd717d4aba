/** Values that cross the boundary between the two components and the code they
    call but that is not modelled: the microphone library, the browser's URL
    and fetch facilities, and the backend reached through axios. */
module Effects {

  /** What a promise returned by an unmodelled library or service settles to:
      resolved with a value, or rejected. */
  datatype Outcome<+T> = Ok(value: T) | Fail

  datatype Option<+T> = None | Some(value: T)

  /** A handle made by `URL.createObjectURL`; such a handle is never empty. */
  type Url = u: string | u != "" witness "blob:"

  type Bytes = seq<bv8>
}
