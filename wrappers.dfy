/** Python's `None`-or-value, as used for scraped texts and for the
    recorder's return value. */
module Wrappers {
  datatype Option<+T> = None | Some(value: T)
}
