/** The result of parsing a control's text: `None` stands for the NaN that
    `parseInt`/`parseFloat` give back on text that is not a number. */
module Wrappers {
  datatype Option<+T> = None | Some(value: T)
}
