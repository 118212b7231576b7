/**
 * What `print` writes to. Every `print(message)` of the program is one
 * message on the console, in order; with an `EmittingStream` installed as
 * `sys.stdout`, `LogStream.PrintAll` says which log lines those messages
 * become.
 */
module Terminal {

  /** The messages printed so far, oldest first. */
  class Console {
    var printed: seq<string>

    constructor ()
      ensures printed == []
    {
      printed := [];
    }

    /** `print(message)`. */
    method Print(message: string)
      modifies this
      ensures printed == old(printed) + [message]
    {
      printed := printed + [message];
    }

    /** The `print` calls of a routine whose output is given as a list, one after the other. */
    method PrintEach(messages: seq<string>)
      modifies this
      ensures printed == old(printed) + messages
    {
      for i := 0 to |messages|
        invariant printed == old(printed) + messages[..i]
      {
        Print(messages[i]);
        assert messages[..i + 1] == messages[..i] + [messages[i]];
      }
      assert messages[..|messages|] == messages;
    }
  }
}
