/** Failure-compatible wrappers and the errors the queue raises. */
module Results {

  datatype Option<+T> = None | Some(value: T)

  datatype Result<+T, +E> = Ok(value: T) | Err(error: E)

  /** The exceptions raised by the queue, one variant per raise site. */
  datatype QueueError =
    | ValueError      // add: a list not made only of dicts, or an unsupported item type
    | NoBuffer        // add on a queue not opened in mode "in" (AttributeError in the source)
    | BadQueueName    // the queue name holds a brace `str.format` cannot read as text
                      // (ValueError, IndexError, KeyError, AttributeError or TypeError
                      // in the source)
    | WriteFailed     // the segment file could not be written
    | BadLockFile     // the lock file does not hold a decimal process id
    | AlreadyLocked   // get_todo_items while the queue is locked
    | InputMode       // complete on a queue opened in mode "in"
    | Missing         // complete on a path that does not exist
    | MoveFailed      // the move into done/ failed and was re-raised
}
