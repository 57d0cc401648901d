/** The outside world as qvm sees it. An external command either succeeds or
    fails with the standard output and error it printed; which one happens
    is an input of the model (a Runner). A run of qvm is recorded as the
    sequence of effects it asks the host for, in order. */
module Host {
  import opened YamlValues

  /** The end of one external command: exit status 0, or a
      `CalledProcessError` carrying the captured output. */
  datatype Outcome = Succeeded | Failed(output: string)

  /** What running each argument list yields, as `subprocess.check_output`
      would see it. */
  type Runner = seq<string> -> Outcome

  /** An effect on the host: a directory made, a dictionary written to a
      file as YAML, an external command, the copy of a cloud image onto a
      block device (written, flushed and synced), or a ZFS snapshot made
      through libzfs_core. */
  datatype Event =
    | MakeDir(path: string)
    | WriteYaml(path: string, content: Dict)
    | Exec(argv: seq<string>)
    | CopyImage(source: string, device: string)
    | Snapshot(name: string)
}
