/** The commands a program hands to the operating system, in order. */
module Executions {

  /** What a configurator has run: command lines, and restore files given as lists of lines. */
  class Dependencies {
    var executed: seq<seq<string>>
    var restored: seq<(string, seq<string>)>

    constructor ()
      ensures executed == [] && restored == []
    {
      executed, restored := [], [];
    }

    method RunOrFail(command: seq<string>)
      modifies this
      ensures executed == old(executed) + [command] && restored == old(restored)
    {
      executed := executed + [command];
    }

    method RunQuietlyAndIgnore(command: seq<string>)
      modifies this
      ensures executed == old(executed) + [command] && restored == old(restored)
    {
      executed := executed + [command];
    }

    method RestoreOrFail(command: string, lines: seq<string>)
      modifies this
      ensures restored == old(restored) + [(command, lines)] && executed == old(executed)
    {
      restored := restored + [(command, lines)];
    }
  }
}
