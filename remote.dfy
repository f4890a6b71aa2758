/** What the backend does on a remote host over SSH, recorded as a log of
    actions, and what one remote command returns. */
module Remote {
  import opened JsonValue

  /** `exec_command`'s result: `recv_exit_status()`, stdout and stderr decoded as text. */
  datatype CommandOutcome = CommandOutcome(exitStatus: int, stdout: string, stderr: string)

  /** One interaction with the outside world, in the order it happens. */
  datatype RemoteAction =
    | Connect(host: string)
    | Exec(command: string)
    | Download(path: string)
    | Upload(path: string, document: Json)
    | Probe(host: string, serverName: string)
    | Close

  /** The session is closed exactly once, as the last action. */
  predicate ClosedOnce(actions: seq<RemoteAction>) {
    |actions| > 0 && actions[|actions| - 1] == Close
    && forall i :: 0 <= i < |actions| - 1 ==> actions[i] != Close
  }

  /** Closing a session that was not closed yet closes it once. */
  lemma {:induction false} CloseOnce(actions: seq<RemoteAction>)
    requires forall i :: 0 <= i < |actions| ==> actions[i] != Close
    ensures ClosedOnce(actions + [Close])
  {
  }

  /** No upload of any document to `path`. */
  predicate NoUploadTo(actions: seq<RemoteAction>, path: string) {
    forall i :: 0 <= i < |actions| ==> !(actions[i].Upload? && actions[i].path == path)
  }
}
