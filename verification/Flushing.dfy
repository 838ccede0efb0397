/** What a session writes of a row it loaded: the columns it changed (app/database.py turns autoflush off, and no row
    carries a version). */
module Flushing {

  /** The column after a session that loaded `loaded` and computed `result` flushes over `now`. */
  function Column<T(==)>(now: T, loaded: T, result: T): T {
    if result == loaded then now else result
  }
}
