/** The optional value used for TypeScript's optional fields (`claimId?`,
    `isPreset?`, `relatedId?`) and for the result of `Array.prototype.find`. */
module Optional {

  datatype Option<+T> = None | Some(value: T) {

    /** The value, or `default` when there is none (JavaScript's `x ?? default`). */
    function GetOr(default: T): T {
      match this
      case Some(v) => v
      case None => default
    }
  }
}
