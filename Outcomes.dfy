/** The exceptions the Python code can raise, as values. */
module Outcomes {

  /** IndexError: a list or tuple index out of range; KeyError: a missing dictionary key;
      ValueError: `max` of an empty list; AssertionError: a failed `assert`;
      NameError: a module global read before any function assigned it;
      AttributeError: a method called on a module global that is still None. */
  datatype Error = IndexError | KeyError | ValueError | AssertionError | NameError | AttributeError

  datatype Result<T> = Success(value: T) | Failure(error: Error)

  datatype Option<T> = None | Some(value: T)
}
