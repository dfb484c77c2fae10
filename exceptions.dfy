/**
 * The exceptions the command layer can raise: the application's own hierarchy
 * (custom_exceptions.py) and the two built-in Python exceptions that the
 * handlers let escape.
 */
module Exceptions {

  datatype Error =
    /** CommandParseException: a handler got too few arguments. */
    | CommandParse(msg: string)
    /** NoCommandFoundException: the command name is not registered. */
    | NoCommandFound(msg: string)
    /** Built-in KeyError raised by `dict.pop` of a missing key. */
    | KeyError(key: string)
    /** Built-in ValueError raised by `key, val = args` with too many values. */
    | TooManyValues(expected: nat)

  /** True for the subclasses of CommandException, the only ones the read loop catches. */
  predicate IsCommandException(e: Error) {
    e.CommandParse? || e.NoCommandFound?
  }

  /** The message every handler attaches to its arity error. */
  const NotEnoughArgs: string := "Not enough args"

  /** The message of the lookup failure for command name `key`. */
  function NotFoundMessage(key: string): string {
    "Not found command `" + key + "`"
  }
}
