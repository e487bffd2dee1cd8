/**
 * Tokenisation of the command line and the choice between the two forms of
 * submission (main.go:91-97). The command string is cut on a single space with
 * the semantics of Go's `strings.Split(s, " ")`: there is no quoting, and two
 * consecutive spaces give an empty token.
 */
module Tokenizer {

  /** The one delimiter. */
  const Sep: char := ' '

  /**
   * `strings.Split(s, " ")`: the pieces of `s` between its spaces, in order.
   * The empty string gives the one empty token, as in Go.
   */
  function Split(s: string): (tokens: seq<string>)
    ensures |tokens| >= 1
  {
    if s == [] then [[]]
    else
      var rest := Split(s[1..]);
      if s[0] == Sep then [[]] + rest
      else [[s[0]] + rest[0]] + rest[1..]
  }

  /** `strings.Join(tokens, " ")`: the tokens with one space between neighbours. */
  function Join(tokens: seq<string>): (line: string)
  {
    if tokens == [] then []
    else if |tokens| == 1 then tokens[0]
    else tokens[0] + [Sep] + Join(tokens[1..])
  }

  /** No token holds the delimiter. */
  ghost predicate SepFree(tokens: seq<string>)
  {
    forall i :: 0 <= i < |tokens| ==> Sep !in tokens[i]
  }

  /** Joining the tokens again gives back the command line, character for character. */
  lemma {:induction false} JoinSplit(s: string)
    ensures Join(Split(s)) == s
  {
    if s != [] {
      var rest := Split(s[1..]);
      JoinSplit(s[1..]);
      if s[0] == Sep {
        assert Split(s) == [[]] + rest;
        assert s == [Sep] + s[1..];
      } else {
        JoinPrepend([s[0]], rest);
        assert s == [s[0]] + s[1..];
      }
    }
  }

  /** Gluing a prefix onto the first token prepends it to the joined line. */
  lemma {:induction false} JoinPrepend(x: string, tokens: seq<string>)
    requires |tokens| >= 1
    ensures Join([x + tokens[0]] + tokens[1..]) == x + Join(tokens)
  {
    var glued := [x + tokens[0]] + tokens[1..];
    if |tokens| > 1 {
      assert glued[1..] == tokens[1..];
      assert Join(glued) == (x + tokens[0]) + [Sep] + Join(tokens[1..]);
    }
  }

  /** No token contains a space. */
  lemma {:induction false} SplitSepFree(s: string)
    ensures SepFree(Split(s))
  {
    if s != [] {
      SplitSepFree(s[1..]);
      var rest := Split(s[1..]);
      if s[0] != Sep {
        assert Sep !in rest[0];
        forall i | 0 <= i < |Split(s)| ensures Sep !in Split(s)[i] {
          if i > 0 { assert Split(s)[i] == rest[i]; }
        }
      }
    }
  }

  /** There is one token more than there are spaces. */
  lemma {:induction false} SplitCount(s: string)
    ensures |Split(s)| == multiset(s)[Sep] + 1
  {
    if s != [] {
      SplitCount(s[1..]);
      assert s == [s[0]] + s[1..];
      assert multiset(s) == multiset{s[0]} + multiset(s[1..]);
    }
  }

  /** Splitting a line that starts with a space-free word glues the word to the line's first token. */
  lemma {:induction false} SplitPrefix(word: string, line: string)
    requires Sep !in word
    ensures Split(word + line) == [word + Split(line)[0]] + Split(line)[1..]
  {
    if word != [] {
      SplitPrefix(word[1..], line);
      assert (word + line)[1..] == word[1..] + line;
      assert (word + line)[0] == word[0];
      assert [word[0]] + (word[1..] + Split(line)[0]) == word + Split(line)[0];
    } else {
      assert word + line == line;
      assert word + Split(line)[0] == Split(line)[0];
      assert Split(line) == [Split(line)[0]] + Split(line)[1..];
    }
  }

  /**
   * Conversely, splitting the join of space-free tokens gives the tokens back:
   * Split is one-to-one between command lines and non-empty, space-free token lists.
   */
  lemma {:induction false} SplitJoin(tokens: seq<string>)
    requires |tokens| >= 1 && SepFree(tokens)
    ensures Split(Join(tokens)) == tokens
  {
    if |tokens| == 1 {
      SplitPrefix(tokens[0], []);
      assert tokens[0] + [] == tokens[0];
    } else {
      var tail := Join(tokens[1..]);
      SplitJoin(tokens[1..]);
      assert Join(tokens) == tokens[0] + ([Sep] + tail);
      SplitPrefix(tokens[0], [Sep] + tail);
      assert ([Sep] + tail)[0] == Sep && ([Sep] + tail)[1..] == tail;
      assert Split([Sep] + tail) == [[]] + tokens[1..];
      assert tokens[0] + [] == tokens[0];
      assert tokens == [tokens[0]] + tokens[1..];
    }
  }

  /** A single word is one token: it is submitted unchanged. */
  lemma SplitOneWord()
    ensures Split("ipconfig") == ["ipconfig"]
  {
    SplitPrefix("ipconfig", []);
    assert "ipconfig" + [] == "ipconfig";
  }

  /** A program with arguments: the first token is the program. */
  lemma SplitProgramAndArgs()
    ensures Split("cmd /c dir") == ["cmd", "/c", "dir"]
  {
    var tokens: seq<string> := ["cmd", "/c", "dir"];
    assert Join(tokens[2..]) == "dir";
    assert Join(tokens[1..]) == "/c dir";
    assert Join(tokens) == "cmd /c dir";
    SplitJoin(tokens);
  }

  /** A doubled space gives an empty token between the two words. */
  lemma SplitDoubledSpace()
    ensures Split("a  b") == ["a", "", "b"]
  {
    var tokens: seq<string> := ["a", "", "b"];
    assert Join(tokens[2..]) == "b";
    assert Join(tokens[1..]) == " b";
    assert Join(tokens) == "a  b";
    SplitJoin(tokens);
  }

  /** What is handed to the shell: a program and its arguments. */
  datatype Invocation = Invocation(program: string, args: seq<string>)

  /** The command line that an invocation stands for. */
  function CommandLine(inv: Invocation): (line: string)
  {
    Join([inv.program] + inv.args)
  }

  /**
   * main.go:93-97. One token: the unmodified command string, no arguments.
   * Several: token 0 is the program, the others are its arguments in order.
   */
  function Dispatch(command: string): (inv: Invocation)
    ensures Sep !in command ==> inv == Invocation(command, [])
    ensures [inv.program] + inv.args == Split(command)
    ensures inv.args == [] <==> Sep !in command
    ensures |inv.args| == multiset(command)[Sep]
    ensures Sep !in inv.program && SepFree(inv.args)
  {
    var tokens := Split(command);
    SplitCount(command);
    SplitSepFree(command);
    JoinSplit(command);
    if |tokens| == 1 then Invocation(command, []) else Invocation(tokens[0], tokens[1..])
  }

  /** Nothing is dropped: the program and arguments rebuild the command line exactly. */
  lemma DispatchRoundTrip(command: string)
    ensures CommandLine(Dispatch(command)) == command
  {
    JoinSplit(command);
  }
}
