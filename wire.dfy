/** The response stream a handler writes to (`wfile`). */
module Wire {

  /** Everything written so far, in order, and how much of it has been flushed. */
  class Sink<T> {
    var written: seq<T>
    var flushed: nat

    ghost predicate Valid()
      reads this
    {
      flushed <= |written|
    }

    constructor ()
      ensures Valid() && written == [] && flushed == 0
    {
      written := [];
      flushed := 0;
    }

    /** `wfile.write(x)`. */
    method Write(x: T)
      requires Valid()
      modifies this
      ensures Valid()
      ensures written == old(written) + [x] && flushed == old(flushed)
    {
      written := written + [x];
    }

    /** `wfile.flush()`: everything written so far has left the handler. */
    method Flush()
      requires Valid()
      modifies this
      ensures Valid()
      ensures written == old(written) && flushed == |written|
    {
      flushed := |written|;
    }
  }
}
