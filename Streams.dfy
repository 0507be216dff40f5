/**
 * The controller of a ReadableStream, as the relay in the request handler uses it:
 * a queue of byte chunks handed to the reader and a close that may happen once.
 */
module Streams {
  import Js

  class Controller {
    /** The chunks enqueued so far, in order. */
    var queue: seq<Js.Bytes>
    var closed: bool
    /** How many times close() has been called. */
    var closeCount: nat

    ghost predicate Valid()
      reads this
    {
      closeCount <= 1 && (closed <==> closeCount == 1)
    }

    constructor ()
      ensures Valid() && queue == [] && !closed && closeCount == 0
    {
      queue, closed, closeCount := [], false, 0;
    }

    /** enqueue(chunk): only an open stream accepts chunks (a closed one throws). */
    method Enqueue(chunk: Js.Bytes)
      requires Valid() && !closed
      modifies this
      ensures Valid()
      ensures queue == old(queue) + [chunk]
      ensures closed == old(closed) && closeCount == old(closeCount)
    {
      queue := queue + [chunk];
    }

    /** close(): only an open stream can be closed (closing twice throws). */
    method Close()
      requires Valid() && !closed
      modifies this
      ensures Valid() && closed
      ensures closeCount == old(closeCount) + 1
      ensures queue == old(queue)
    {
      closed := true;
      closeCount := closeCount + 1;
    }
  }
}
