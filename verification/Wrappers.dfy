/** Datatypes shared by every module of the model. */
module Wrappers {

  datatype Option<+T> = None | Some(value: T)

  /** The two deployment stages of an app (src/common/constants.go). */
  datatype Stage = DEV | PROD
}
