/** The command-line front end: one package-level root command, created by
    `Init`, to which `AddCommand` attaches subcommands. */
module Cli {
  import opened Wrappers

  /** Returned by `AddCommand` when `Init` has not run. */
  const ErrNotInitialized := Error("not initialized")

  /** A cobra command as this package fills it in: its name (`Use`), its
      short and long descriptions, the handler it runs, and its subcommands. */
  datatype Command = Command(use: string, short: string, long: string, handler: Option<string>, children: seq<Command>)

  /** The package-level `cmd` variable, nil until `Init`. */
  class Registry {
    var root: Option<Command>

    constructor ()
      ensures root == None
    {
      root := None;
    }

    /** Makes a new root named `appID` described by `appDescription`,
        replacing any earlier root and the commands added to it. */
    method Init(appID: string, appDescription: string)
      modifies this
      ensures root == Some(Command(appID, appDescription, appDescription, None, []))
    {
      root := Some(Command(appID, appDescription, appDescription, None, []));
    }

    /** Adds a subcommand named `command` that runs `handler`; fails with
        ErrNotInitialized, registering nothing, before `Init`. */
    method AddCommand(command: string, description: string, handler: string) returns (err: Option<Error>)
      modifies this
      ensures old(root).None? ==> err == Some(ErrNotInitialized) && root == None
      ensures old(root).Some? ==>
                && err == None
                && root == Some(old(root).value.(children := old(root).value.children
                                                 + [Command(command, description, description, Some(handler), [])]))
    {
      if root.None? {
        return Some(ErrNotInitialized);
      }
      var child := Command(command, description, description, Some(handler), []);
      root := Some(root.value.(children := root.value.children + [child]));
      return None;
    }
  }
}
