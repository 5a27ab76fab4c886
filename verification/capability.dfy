/**
 * The Reader and Writer capabilities that connect inputs, the fan-out loop and
 * outputs, and the error values that travel through them.
 */
module Capability {
  import opened Proto

  /**
   * Go error values, compared by identity. The input and the output packages
   * each declare their own "reading stopped" error, and they are different
   * values; io.EOF is a third. Every other error is told apart by a code.
   */
  datatype Error = OutputStopped | InputStopped | EOF | Other(code: int)

  /** Outcome of a Reader's PluginRead that returned (a blocked read has no outcome). */
  datatype ReadResult = Got(msg: Message) | Failed(err: Error)

  /**
   * Outcome of a Writer's PluginWrite: the byte count and error it returned, or
   * Blocked when the call would wait (a full queue) and has changed nothing yet.
   */
  datatype WriteResult = Written(n: int, err: Option<Error>) | Blocked

  datatype Option<T> = None | Some(value: T)
}
