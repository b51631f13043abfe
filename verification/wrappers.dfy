/** Optional values, used wherever the skill may find nothing (an unparsable
    level, an unreadable level file, a config key that is not set). */
module Wrappers {

  datatype Option<+T> = None | Some(value: T) {

    /** The carried value, or `default` when there is none. */
    function GetOr(default: T): T {
      match this
      case Some(v) => v
      case None => default
    }
  }
}
