/** The nullable values the source works with (a parsed element that may be
    missing, a database row that may be absent) become Option values. */
module Wrappers {

  datatype Option<+T> = None | Some(value: T)

}
