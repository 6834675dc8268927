/** Optional values, standing for Python's `None` and for a key that is
    absent from the session store. */
module Wrappers {

  datatype Option<+T> = None | Some(value: T)
}
