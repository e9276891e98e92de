/** The host the back-end runs on, reduced to what it observes: child
    processes of the `aws` tool, local TCP ports, and the clock. */
module Platform {
  import opened Text

  /** A child process to start: program, arguments, and environment variables
      set on top of the inherited environment. */
  datatype Command = Command(program: string, args: seq<string>, env: map<string, string>)

  /** How a child that is run to completion ends: it could not be started or
      waited for (with the I/O error text), or it exited with a status and
      its captured output. */
  datatype Exit =
    | SpawnFailed(reason: string)
    | Exited(success: bool, stdout: string, stderr: string)

  /** How starting a detached child (terminal I/O inherited) ends. */
  datatype Launch = Launched(pid: nat) | LaunchFailed(reason: string)

  /** A running child the caller owns. */
  datatype Child = Child(command: Command, pid: nat)

  /** What the host answers. */
  datatype Host = Host(
    cliInstalled: bool,          // `aws --version` runs and exits successfully
    run: Command -> Exit,        // run a child to completion, output captured
    spawn: Command -> Launch,    // start a child and return without waiting
    portInUse: uint16 -> bool)   // binding 127.0.0.1:<port> fails

  /** The wall clock, in Unix seconds. */
  class Clock {
    var now: int

    constructor (start: int)
      ensures now == start
    {
      now := start;
    }

    /** `tokio::time::sleep`: returns no earlier than `seconds` later. */
    method Sleep(seconds: nat)
      modifies this
      ensures now >= old(now) + seconds
    {
      now := now + seconds;
    }
  }
}
