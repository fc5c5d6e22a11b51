/** Optional values: JavaScript's `null` / `undefined` next to a present value. */
module Wrappers {

  datatype Option<+T> = None | Some(value: T) {

    /** The value if present, else the default (the `??` operator). */
    function GetOr(default: T): T {
      match this
      case Some(v) => v
      case None => default
    }
  }
}

/** The signed-in Supabase user, as far as the client looks at it. */
module Users {
  import opened Wrappers

  /** `id` is the auth uid; `email` is optional on a Supabase user. */
  datatype User = User(id: string, email: Option<string>)
}
