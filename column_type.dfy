/** The column types an active enum can declare as its `db_type`, as a plain
    tag: `String(Some(1))` is a string column of length one. Only the types
    the active enums of this model use are listed. */
module ColumnTypes {

  import opened Options

  datatype ColumnType =
    | String(length: Option<nat>)
    | TinyInteger
    | SmallInteger
    | Integer
    | BigInteger
}
