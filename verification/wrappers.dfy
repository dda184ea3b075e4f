/** The optional-value datatype shared by the other modules: PHP's `strpos`
    returns either an index or `false`, and a Slack payload either carries an
    `attachments` list or has no such key at all. */
module Wrappers {

  datatype Option<+T> = None | Some(value: T)
}
