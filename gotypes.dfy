/** The Go built-in types that the model needs: `byte` and `error`. */
module GoTypes {
  import opened Wrappers

  type byte = bv8

  /** Why `strconv` refused a number (strconv.ErrSyntax, strconv.ErrRange). */
  datatype NumReason = ErrSyntax | ErrRange

  /**
   * A Go `error` value. The model keeps the structure of the errors the core
   * builds itself and treats every error a collaborator returns as `External`.
   */
  datatype Error =
    | Message(text: string)                                  // errors.New, fmt.Errorf
    | NumError(fn: string, num: string, reason: NumReason)   // *strconv.NumError
    | Joined(errs: seq<Error>)                               // errors.Join of non-nil errors
    | External(origin: string, detail: string)               // returned by a collaborator

  /** io.EOF */
  const EOF: Error := Message("EOF")
}
