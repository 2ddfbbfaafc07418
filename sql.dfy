/** The errors a database query reports: database/sql's `ErrNoRows` sentinel, or any other driver error. */
module Sql {

  datatype Error = ErrNoRows | DriverError(message: string)
}
