# winrmshell, modelled in Dafny

winrmshell is a one-file command-line client for Windows Remote Management
(WinRM). It takes a server, credentials, an optional Active Directory domain and
a command line. It connects with NTLM authentication, opens a remote shell, runs
the command and prints a 4096-byte buffer holding what one read of the command's
standard output returned, zero-padded.
Nearly all of the work is done by a WinRM client library that is not part of
this model. What remains, and what is modelled here, is the decision logic in
`main`:

- `Validation`: the parsed options and the check of the four required ones,
  in the fixed order server, username, password, command.
- `Principal`: the authentication principal, `username` or `username@domain`.
- `Tokenizer`: the split of the command line on single spaces, following Go's
  `strings.Split`, and the choice between submitting the bare command string and
  submitting a program with its arguments.
- `Session`: the run itself, as an imperative method (`Session.Run`). Each
  library call is replaced by its outcome, given in advance as a `Transport`
  value. The run returns its exit status and a trace of steps: log lines, the
  usage text and the calls to the remote side. The standard-output read fills a
  zero-initialised array of 4096 bytes (`byte` is the integers 0 to 255).

`Wrappers` holds the `Option` type. Flag parsing is not modelled; its results
are the `Options` value. Its defaults are an empty string for every text option,
port 5985, and `false` for TLS and certificate verification.

The code does not close the shell or the client and does not check the port
range, so the model claims neither. The context is cancelled only by the
deferred `cancel()` when `main` returns, after the output is printed, so no
remote wait is ever interrupted. A failed read is logged and the run still
ends with status 0. After a rejected submission the run goes on to the read
instead of exiting; what happens at that read is not modelled (see "Left out").

## Model

| member | source | states |
|---|---|---|
| `Validation.FirstMissing` | main.go:37-59 | None exactly when server, username, password and command are all non-empty. Otherwise it names an empty field, and every field checked before it is non-empty. |
| `Validation.FirstMissingIgnoresDomain` | main.go:37-63 | The domain, port, TLS and verify settings have no effect on validation, so an empty domain never stops a run. |
| `Principal.Identity` | main.go:70-75 | The principal equals the username exactly when the domain is empty. It always starts with the username. With a domain, an `@` follows the username and the domain comes after it. |
| `Principal.IdentityRoundTrip` | main.go:70-75 | For a username without `@`, the username and the domain (empty for a local account) are recovered from the principal by splitting at its first `@`. |
| `Principal.IdentityAmbiguous` | main.go:70-75 | A local username that contains `@` gives the same principal as a domain-qualified one, so the round trip needs its precondition. |
| `Tokenizer.Split` | main.go:91 | Any command line, the empty one included, gives at least one token. |
| `Tokenizer.JoinSplit` | main.go:91 | Joining the tokens with single spaces gives back the original command line. |
| `Tokenizer.SplitSepFree` | main.go:91 | No token contains a space. |
| `Tokenizer.SplitCount` | main.go:91 | There is one more token than there are spaces in the command line. |
| `Tokenizer.SplitJoin` | main.go:91 | Splitting the join of a non-empty list of space-free tokens gives back that list. So the split is the only tokenisation with these properties. |
| `Tokenizer.SplitOneWord` | main.go:91-94 | `"ipconfig"` is a single token. |
| `Tokenizer.SplitProgramAndArgs` | main.go:91-96 | `"cmd /c dir"` becomes `["cmd", "/c", "dir"]`. |
| `Tokenizer.SplitDoubledSpace` | main.go:91 | `"a  b"` becomes `["a", "", "b"]`: two spaces in a row give an empty token. |
| `Tokenizer.Dispatch` | main.go:91-97 | A command line without spaces is submitted unchanged with no arguments. In every case, the program followed by the arguments is exactly the token list. There are no arguments exactly when there is no space. There is one argument per space, and neither the program nor any argument contains a space. |
| `Tokenizer.DispatchRoundTrip` | main.go:91-97 | Joining the program and its arguments gives back the command line, so no argument is dropped or reordered. |
| `Session.ReadCount` | main.go:104 | One read moves at most 4096 bytes and at most the bytes delivered. It moves all of the delivered bytes, or 4096. |
| `Session.Captured` | main.go:103-104 | The buffer after the read is 4096 bytes long. The bytes read come first, every byte after them is zero, and longer output is cut to its first 4096 bytes. |
| `Session.Render` | main.go:109 | The printed text starts with the ASCII bytes of "Output of command:\n", then the whole buffer, then a newline. Its length does not depend on how many bytes were read. `Session.Run` ends a successful run with this text rendered from the captured buffer. |
| `Session.ReadInto` | main.go:104 | The read copies the delivered bytes into the front of the buffer, as many as fit, and leaves every later byte unchanged. |
| `Session.CaptureStdout` | main.go:103-104 | A zeroed 4096-byte array read once yields exactly `Captured` of the delivered bytes. |
| `Session.Submit` | main.go:91-109 | Submits the dispatched command. A rejection is logged, the read is still attempted, and the run ends at that read. Otherwise one bounded read follows, a read error is logged, and the header with the whole captured buffer is printed, with status 0. Neither path emits the domain warning or another shell request. |
| `Session.Run` | main.go:37-109 | Gives the exact trace and exit status of each path. The first empty required option logs its name and shows usage, ends with status 0, and makes no remote call. An empty domain gives a warning and nothing else. A client failure ends with status 1 before any shell is requested. A shell failure ends with status 2 before anything is submitted. After the shell is created, the rest of the trace and the status are those of `Session.Submit`. |

## Left out

- Flag parsing, usage text and log formatting (main.go:14-35): standard-library glue. The options are an input, and a log line is an abstract `Log(level, message)` step.
- The WinRM library (main.go:65-68, 76, 82, 94-96, 104): building the endpoint, the NTLM client, shell creation, command submission and the stdout read are foreign network I/O. Each one is modelled only by the outcome the `Transport` input gives it. The read receives the bytes the stream delivers to that one call.
- The context and its `cancel` (main.go:88-89): the context is cancelled only by the deferred `cancel()` when `main` returns, after the output is printed, so no remote wait is ever interrupted; the model leaves the context out.
- Text encoding: Go strings are byte strings, while the model's options are sequences of Unicode characters. Space and `@` are single bytes, so splitting and joining give the same result as Go for every valid UTF-8 input; an option value that is not valid UTF-8 cannot be written as a model input.
- Closing the shell or the client: main.go never does it, so the model claims no release.
- Session.Run: after a rejected submission, the read at main.go:104 goes through the command handle that the library returned with the error. What that read does (in practice, a nil dereference) depends on library code that is not part of this model. The run ends there with status `ReadOnFailedCommand`. No output and no exit status are claimed.
- Session.ReadInto: a real `Read` may move fewer bytes than it was offered. The model lets the `Transport` input choose what is delivered to the one call, which covers that case.
