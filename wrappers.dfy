/** The missing-value wrapper used for every table cell: `None` stands for pandas' NaN. */
module Wrappers {

  datatype Option<+T> = None | Some(value: T)
}
