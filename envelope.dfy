/** The three-field response every RPC of the SQL service returns, and the
    fixed strings that fill its fields (spelling, spaces and typo included). */
module Envelope {

  // Status field. The source declares the admission statuses and the request
  // statuses as two groups of constants; the strings coincide, so each is
  // declared once here.
  const StatusOk: string := "OK"
  const StatusAborted: string := "ABORTED"
  const StatusUnauthorized: string := "UNAUTHORIZED"
  const StatusNotFound: string := "NOT FOUND"

  // Result field, when it does not carry a serialized result set.
  const ResultOk: string := "OK"
  const ResultInternal: string := "INTERNAL ERROR"
  const ResultInvalidForm: string := "INVALID FORM"
  const ResultBadDbConnection: string := "BAD DATABSE CONNECTION"
  const ResultQueryError: string := "QUERY ERROR"

  // Error field when there is no error.
  const ErrorNull: string := "NULL"

  /** The response message; `requestOutput` in the source builds exactly this
      (its second return value is always nil). */
  datatype Output = Output(status: string, result: string, error: string)
}
