/** The exceptions the modelled code raises, as values. */
module Exceptions {
  import opened PhpArray
  import opened Values

  datatype DbError =
    /** DatabaseConnectionException */
    | ConnectionError(message: string)
    /** InvalidQueryException raised by the named-array transformer for an array
        under a numeric key; its message, built with var_export, is not modelled. */
    | UnnamedArrayParameter(key: Key, value: Value)
    /** InvalidQueryException raised by an adapter */
    | InvalidQuery(message: string)
    /** FetchException */
    | FetchError(message: string)
    /** TransactionException */
    | TransactionError(message: string)
    /** DatabaseException */
    | DatabaseError(message: string)
    /** the PHP Error of calling getAdapter() on a master connection that was never added */
    | NullMaster
}
