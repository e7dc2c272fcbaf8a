/** Small shared datatypes: optional values, the failures a view callback can
    raise, and the result of a callback. */
module Basics {

  datatype Option<+T> = None | Some(value: T)

  /** What a callback raises instead of returning a figure. */
  datatype Failure =
    | MissingKey(key: string)        // `data[key]` on a snapshot without that view (KeyError)
    | WrongShape(key: string)        // the view holds records of another kind (a KeyError on its first column)
    | MissingColumn(column: string)  // `df[column]` on a frame without that column (KeyError)
    | NoSuchRow(key: string)         // `.iloc[0]` on an empty selection (IndexError)

  datatype Result<+T> = Ok(value: T) | Err(failure: Failure)
}
