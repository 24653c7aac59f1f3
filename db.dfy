/** What the handlers see of the database beyond the tables themselves. */
module Db {
  /** The message the ORM raises when an insert would duplicate a unique
      column. */
  const UniqueViolation: string := "Validation error"
}
