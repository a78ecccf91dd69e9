/** The nullable-value idiom shared by the other modules: `None` stands for the
    source's null pointers and invalid (infinite) sentinels. */
module Wrappers {

  datatype Option<+T> = None | Some(value: T)
}
