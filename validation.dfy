/**
 * The command-line options after flag parsing, and the check of the four
 * required ones (main.go:37-59).
 */
module Validation {
  import opened Wrappers

  /** The parsed options; `domain` is optional, the other strings are required. */
  datatype Options = Options(
    server: string,
    username: string,
    password: string,
    domain: string,
    port: int,
    useTls: bool,
    verifyCert: bool,
    command: string)

  /** The required options, named by the diagnostic of their check. */
  datatype Field = Server | Username | Password | Command

  /** The position of a field's check in the fixed order server, username, password, command. */
  function Rank(f: Field): (position: nat)
  {
    match f
    case Server => 0
    case Username => 1
    case Password => 2
    case Command => 3
  }

  /** The value given for a required field. */
  function Value(opts: Options, f: Field): (value: string)
  {
    match f
    case Server => opts.server
    case Username => opts.username
    case Password => opts.password
    case Command => opts.command
  }

  /**
   * The first required option left empty, in check order, or None when all four
   * are given. The domain is not among them: an empty domain never stops the run.
   */
  function FirstMissing(opts: Options): (missing: Option<Field>)
    ensures missing == None <==> forall f: Field :: Value(opts, f) != []
    ensures missing.Some? ==> Value(opts, missing.value) == []
    ensures missing.Some? ==> forall f: Field :: Rank(f) < Rank(missing.value) ==> Value(opts, f) != []
  {
    if opts.server == [] then assert Value(opts, Server) == []; Some(Server)
    else if opts.username == [] then assert Value(opts, Username) == []; Some(Username)
    else if opts.password == [] then assert Value(opts, Password) == []; Some(Password)
    else if opts.command == [] then assert Value(opts, Command) == []; Some(Command)
    else None
  }

  /** The check ignores the domain and the connection settings. */
  lemma FirstMissingIgnoresDomain(opts: Options, domain: string, port: int, useTls: bool, verifyCert: bool)
    ensures FirstMissing(opts.(domain := domain, port := port, useTls := useTls, verifyCert := verifyCert)) == FirstMissing(opts)
  {
  }
}
