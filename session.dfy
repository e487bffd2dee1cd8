/**
 * One run of the program (main.go:37-109): validate the options, connect with
 * NTLM, open a shell, submit the command, read its standard output once into
 * a 4096-byte buffer and print that buffer.
 *
 * Every call into the WinRM library is replaced by its outcome, fixed in
 * advance by a Transport value, and every operator-visible effect (a log line,
 * the usage text) and every remote call is recorded as a Step of the run's trace.
 */
module Session {
  import opened Wrappers
  import opened Tokenizer
  import opened Principal
  import opened Validation

  /** An octet, as Go's `byte`. */
  newtype byte = x: int | 0 <= x < 256

  /** The size of the one read of the command's standard output (main.go:103). */
  const BufferSize: nat := 4096

  /** Where and how to connect (main.go:65). */
  datatype Endpoint = Endpoint(host: string, port: int, useTls: bool, verifyCert: bool)

  function EndpointOf(opts: Options): (endpoint: Endpoint)
  {
    Endpoint(opts.server, opts.port, opts.useTls, opts.verifyCert)
  }

  datatype Level = Info | Warning | Error

  /** What a log line reports. */
  datatype Message =
    | Missing(field: Field)          // a required option is empty
    | LocalAuthentication            // no domain: the account is local to the target
    | AuthenticationFailed
    | ShellCreationFailed
    | ExecutionFailed
    | ReadFailed
    | CommandOutput(text: seq<byte>)   // the printed text: header, buffer, newline

  /** One event of a run: a log line, the usage text, or a call to the remote side. */
  datatype Step =
    | Log(level: Level, message: Message)
    | Usage
    | Connect(endpoint: Endpoint, identity: string, password: string)
    | CreateShell
    | Execute(invocation: Invocation)
    | ReadStdout(capacity: nat)
  {
    /** Steps that reach the WinRM library, and through it the network. */
    predicate IsRemote()
    {
      Connect? || CreateShell? || Execute? || ReadStdout?
    }
  }

  /**
   * The outcome of each library call: whether the authenticated client is built,
   * whether the shell is created, whether the command is accepted, the bytes the
   * stdout stream hands to the one read, and whether that read reports an error.
   */
  datatype Transport = Transport(clientOk: bool, shellOk: bool, executeOk: bool, delivered: seq<byte>, readOk: bool)

  /**
   * How a run ends: with a process exit status (0 for a return from main), or by
   * reading from the handle that a rejected submission left behind, whose result
   * lies in the library and is not part of this model.
   */
  datatype Status = Exit(code: int) | ReadOnFailedCommand

  /** The steps of a run that passed validation, up to the connection attempt (main.go:61-76). */
  function Opening(opts: Options): (steps: seq<Step>)
  {
    (if opts.domain == [] then [Log(Warning, LocalAuthentication)] else [])
    + [Connect(EndpointOf(opts), Identity(opts.username, opts.domain), opts.password)]
  }

  /** How many bytes one read moves: what is delivered, at most the buffer's size. */
  function ReadCount(delivered: seq<byte>): (n: nat)
    ensures n <= BufferSize && n <= |delivered|
    ensures n == |delivered| || n == BufferSize
  {
    if |delivered| < BufferSize then |delivered| else BufferSize
  }

  /** The buffer after the read: the bytes read at the front, zeros behind them. */
  function Captured(delivered: seq<byte>): (buffer: seq<byte>)
    ensures |buffer| == BufferSize
    ensures buffer[..ReadCount(delivered)] == delivered[..ReadCount(delivered)]
    ensures forall i :: ReadCount(delivered) <= i < BufferSize ==> buffer[i] == 0
    ensures |delivered| >= BufferSize ==> buffer == delivered[..BufferSize]
  {
    var n := ReadCount(delivered);
    delivered[..n] + seq(BufferSize - n, _ => 0)
  }

  /** The text of the last log line: its header, the whole buffer, a newline (main.go:109). */
  const OutputHeader: string := "Output of command:\n"

  function Ascii(s: string): (bytes: seq<byte>)
    requires forall i :: 0 <= i < |s| ==> s[i] as int < 128
    ensures |bytes| == |s|
    ensures forall i :: 0 <= i < |s| ==> bytes[i] as int == s[i] as int
  {
    seq(|s|, i requires 0 <= i < |s| => s[i] as int as byte)
  }

  /** The printed output: whatever the read count was, all of the buffer follows the header. */
  function Render(buffer: seq<byte>): (text: seq<byte>)
    ensures |text| == |OutputHeader| + |buffer| + 1
    ensures text[..|OutputHeader|] == Ascii(OutputHeader)
    ensures text[|OutputHeader|..|OutputHeader| + |buffer|] == buffer
    ensures text[|text| - 1] == 0x0A
  {
    Ascii(OutputHeader) + buffer + [0x0A]
  }

  /**
   * One Read on the command's stdout (main.go:104): copies the delivered bytes,
   * as many as fit, to the front of the buffer and leaves the rest untouched.
   */
  method ReadInto(buffer: array<byte>, delivered: seq<byte>) returns (n: nat)
    modifies buffer
    ensures n <= buffer.Length && n <= |delivered|
    ensures n == |delivered| || n == buffer.Length
    ensures buffer[..n] == delivered[..n]
    ensures buffer[n..] == old(buffer[n..])
  {
    n := if |delivered| < buffer.Length then |delivered| else buffer.Length;
    forall i | 0 <= i < n {
      buffer[i] := delivered[i];
    }
  }

  /**
   * main.go:103-104: a zeroed 4096-byte buffer receives one read; the count the
   * read returns is not used, so the whole buffer is the result.
   */
  method CaptureStdout(delivered: seq<byte>) returns (output: seq<byte>)
    ensures output == Captured(delivered)
  {
    var buffer := new byte[BufferSize](_ => 0);
    ghost var zeros := buffer[..];
    var count := ReadInto(buffer, delivered);
    forall i | 0 <= i < BufferSize
      ensures buffer[i] == Captured(delivered)[i]
    {
      if i < count {
        assert buffer[..count][i] == delivered[..count][i];
      } else {
        assert buffer[count..][i - count] == zeros[count..][i - count];
      }
    }
    output := buffer[..];
  }

  /** The steps from submission to the end of the run, once a shell exists (main.go:91-109). */
  function Submitted(command: string, net: Transport): (steps: seq<Step>)
  {
    [Execute(Dispatch(command))]
    + (if net.executeOk then [ReadStdout(BufferSize)] + (if net.readOk then [] else [Log(Error, ReadFailed)])
                              + [Log(Info, CommandOutput(Render(Captured(net.delivered))))]
       else [Log(Error, ExecutionFailed), ReadStdout(BufferSize)])
  }

  /**
   * The second half of the run (main.go:91-109): submit the dispatched command;
   * a rejection is logged and the read is still attempted; otherwise one
   * bounded read, a failed read is logged, and the whole buffer is printed.
   */
  method Submit(command: string, net: Transport) returns (status: Status, steps: seq<Step>)
    ensures !net.executeOk ==>
      status == ReadOnFailedCommand &&
      steps == [Execute(Dispatch(command)), Log(Error, ExecutionFailed), ReadStdout(BufferSize)]
    ensures net.executeOk ==>
      status == Exit(0) &&
      steps == [Execute(Dispatch(command)), ReadStdout(BufferSize)]
               + (if net.readOk then [] else [Log(Error, ReadFailed)])
               + [Log(Info, CommandOutput(Render(Captured(net.delivered))))]
    ensures Log(Warning, LocalAuthentication) !in steps && CreateShell !in steps
  {
    var invocation := Dispatch(command);
    steps := [Execute(invocation)];
    if !net.executeOk {
      steps := steps + [Log(Error, ExecutionFailed)];
    }

    steps := steps + [ReadStdout(BufferSize)];
    if !net.executeOk {
      return ReadOnFailedCommand, steps;
    }
    var output := CaptureStdout(net.delivered);
    if !net.readOk {
      steps := steps + [Log(Error, ReadFailed)];
    }
    steps := steps + [Log(Info, CommandOutput(Render(output)))];
    status := Exit(0);
  }

  /** The program's main flow, with the library's answers given by `net`. */
  method Run(opts: Options, net: Transport) returns (status: Status, trace: seq<Step>)
    // main.go:37-59: the first empty required option ends the run normally, before any remote call
    ensures FirstMissing(opts).Some? ==>
      status == Exit(0) && trace == [Log(Info, Missing(FirstMissing(opts).value)), Usage]
    ensures FirstMissing(opts).Some? ==> forall i :: 0 <= i < |trace| ==> !trace[i].IsRemote()
    // main.go:61-63: an empty domain only warns
    ensures Log(Warning, LocalAuthentication) in trace <==> FirstMissing(opts).None? && opts.domain == []
    // main.go:76-80: no client, exit status 1, no shell requested
    ensures FirstMissing(opts).None? && !net.clientOk ==>
      status == Exit(1) && trace == Opening(opts) + [Log(Error, AuthenticationFailed)]
    // main.go:82-86: no shell, exit status 2, nothing submitted
    ensures FirstMissing(opts).None? && net.clientOk && !net.shellOk ==>
      status == Exit(2) && trace == Opening(opts) + [CreateShell, Log(Error, ShellCreationFailed)]
    // main.go:91-109: with a shell, the run goes on as Submit describes
    ensures FirstMissing(opts).None? && net.clientOk && net.shellOk ==>
      status == (if net.executeOk then Exit(0) else ReadOnFailedCommand) &&
      trace == Opening(opts) + [CreateShell] + Submitted(opts.command, net)
    ensures status == Exit(1) ==> CreateShell !in trace
    ensures status == Exit(2) ==> forall i :: 0 <= i < |trace| ==> !trace[i].Execute?
  {
    var missing := FirstMissing(opts);
    if missing.Some? {
      trace := [Log(Info, Missing(missing.value)), Usage];
      return Exit(0), trace;
    }

    trace := [];
    if opts.domain == [] {
      trace := trace + [Log(Warning, LocalAuthentication)];
    }
    var endpoint := EndpointOf(opts);
    var identity := Identity(opts.username, opts.domain);
    trace := trace + [Connect(endpoint, identity, opts.password)];
    if !net.clientOk {
      trace := trace + [Log(Error, AuthenticationFailed)];
      return Exit(1), trace;
    }

    trace := trace + [CreateShell];
    if !net.shellOk {
      trace := trace + [Log(Error, ShellCreationFailed)];
      return Exit(2), trace;
    }

    var rest;
    status, rest := Submit(opts.command, net);
    trace := trace + rest;
  }
}
