/**
  Holding back a build's response until its request body has been read
  (`wrapOutputBufferedUntilRequestRead`, `rcNotifier` and `wcf` in
  daemon/server/router/build/build_routes.go). The response writer buffers
  everything written to it until the body reader reports an error (end of
  body included) or is closed; that notification copies the buffer out
  once, forwards a flush that was asked for meanwhile, and from then on
  writes pass straight through.
*/
module BufferedOutput {
  import opened Common

  /**
    The writer being wrapped: the bytes it received and how many flushes
    reached it. A writer that cannot flush is given a flusher that does
    nothing (`nopFlusher`), so its flushes are not counted.
  */
  class Sink {
    var data: Bytes
    var flushes: nat
    const canFlush: bool

    constructor (canFlush: bool)
      ensures data == [] && flushes == 0 && this.canFlush == canFlush
    {
      data := [];
      flushes := 0;
      this.canFlush := canFlush;
    }

    method Write(b: Bytes)
      modifies this
      ensures data == old(data) + b && flushes == old(flushes)
    {
      data := data + b;
    }

    method Flush()
      modifies this
      ensures data == old(data)
      ensures flushes == old(flushes) + (if canFlush then 1 else 0)
    {
      if canFlush {
        flushes := flushes + 1;
      }
    }
  }

  /** `wcf`: a writer that holds its output back until it is notified. */
  class Wcf {
    const out: Sink
    var buf: Bytes
    var ready: bool
    var flushed: bool
    /** Every byte written to this writer, in order. */
    ghost var written: Bytes
    /** What the wrapped writer held when it was wrapped. */
    ghost const base: Bytes
    /** How many flushes had reached the wrapped writer when it was wrapped. */
    ghost const baseFlushes: nat

    /**
      Before the notification nothing reaches the wrapped writer and the
      buffer holds every write; afterwards the wrapped writer holds every
      write, in order, and the buffer is empty.
    */
    ghost predicate Valid()
      reads this, out
    {
      (!ready ==> out.data == base && out.flushes == baseFlushes && buf == written) &&
      (ready ==> out.data == base + written && buf == [])
    }

    constructor (out: Sink)
      ensures this.out == out && Valid()
      ensures buf == [] && !ready && !flushed && written == []
      ensures base == out.data && baseFlushes == out.flushes
    {
      this.out := out;
      buf := [];
      ready := false;
      flushed := false;
      written := [];
      base := out.data;
      baseFlushes := out.flushes;
    }

    /**
      `Flush`: records that a flush was asked for, and passes it on only once
      the writer is ready.
    */
    method Flush()
      requires Valid()
      modifies this, out
      ensures Valid() && flushed
      ensures ready == old(ready) && buf == old(buf) && written == old(written) && out.data == old(out.data)
      ensures out.flushes == old(out.flushes) + (if ready && out.canFlush then 1 else 0)
    {
      flushed := true;
      if !ready {
        return;
      }
      out.Flush();
    }

    /** `Flushed`: whether a flush was ever asked for. */
    method Flushed() returns (b: bool)
      ensures b == flushed
    {
      b := flushed;
    }

    /**
      `Write`: before the notification the bytes go to the buffer and
      nothing reaches the wrapped writer; afterwards they go straight to it.
    */
    method Write(b: Bytes)
      requires Valid()
      modifies this, out
      ensures Valid()
      ensures written == old(written) + b
      ensures ready == old(ready) && flushed == old(flushed) && out.flushes == old(out.flushes)
      ensures !ready ==> buf == old(buf) + b && out.data == old(out.data)
      ensures ready ==> out.data == old(out.data) + b
    {
      written := written + b;
      if !ready {
        buf := buf + b;
        return;
      }
      out.Write(b);
    }

    /**
      `notify`: the first call copies the buffer to the wrapped writer, in
      order, flushes it when a flush was asked for meanwhile and makes the
      writer ready; later calls change nothing.
    */
    method Notify()
      requires Valid()
      modifies this, out
      ensures Valid() && ready
      ensures written == old(written) && flushed == old(flushed)
      ensures old(ready) ==> out.data == old(out.data) && out.flushes == old(out.flushes) && buf == old(buf)
      ensures !old(ready) ==> out.data == old(out.data) + old(buf) && buf == []
      ensures !old(ready) ==> out.flushes == old(out.flushes) + (if flushed && out.canFlush then 1 else 0)
    {
      if !ready {
        if |buf| > 0 {
          out.Write(buf);
          buf := [];
        }
        if flushed {
          out.Flush();
        }
        ready := true;
      }
    }
  }

  /**
    `rcNotifier` over a request body: the bytes not yet read, the error the
    body ends with (end of file or a transport error), and the writer it
    notifies.
  */
  class RcNotifier {
    var remaining: Bytes
    const endError: string
    const closeError: Option<string>
    var closed: bool
    const w: Wcf
    /** Whether the writer had been notified when the body was closed. */
    ghost var notifiedBeforeClose: bool

    constructor (body: Bytes, endError: string, closeError: Option<string>, w: Wcf)
      ensures remaining == body && this.endError == endError && this.closeError == closeError
      ensures this.w == w && !closed && !notifiedBeforeClose
    {
      remaining := body;
      this.endError := endError;
      this.closeError := closeError;
      closed := false;
      this.w := w;
      notifiedBeforeClose := false;
    }

    /**
      `Read` of at most `max` bytes: the next bytes of the body, or, once it
      is exhausted, its ending error, upon which the writer is notified.
    */
    method Read(max: nat) returns (data: Bytes, err: Option<string>)
      requires w.Valid()
      modifies this, w, w.out
      ensures w.Valid() && closed == old(closed) && notifiedBeforeClose == old(notifiedBeforeClose)
      ensures data + remaining == old(remaining) && |data| <= max
      ensures err.Some? <==> old(remaining) == [] && max > 0
      ensures err.Some? ==> err.value == endError && w.ready
      ensures max > 0 && old(remaining) != [] ==> data != []
      ensures err.None? ==> w.ready == old(w.ready) && w.out.data == old(w.out.data)
    {
      if max == 0 {
        return [], None;
      }
      if remaining == [] {
        w.Notify();
        return [], Some(endError);
      }
      var n := if max < |remaining| then max else |remaining|;
      data := remaining[..n];
      remaining := remaining[n..];
      err := None;
    }

    /** `Close`: notifies the writer, then closes the body and returns its error. */
    method Close() returns (err: Option<string>)
      requires w.Valid()
      modifies this, w, w.out
      ensures w.Valid() && w.ready && closed && notifiedBeforeClose
      ensures err == closeError && remaining == old(remaining)
    {
      w.Notify();
      notifiedBeforeClose := w.ready;
      closed := true;
      err := closeError;
    }
  }

  /** The request body and response writer the build handler goes on with. */
  datatype Wrapped = Unwrapped | Wrapped(rc: RcNotifier, w: Wcf)

  /**
    `wrapOutputBufferedUntilRequestRead`: an empty body (the first byte
    cannot be peeked) leaves the body and writer as they are; otherwise the
    body is read through a notifier and the writer holds its output back
    until the notifier fires.
  */
  method Wrap(body: Bytes, endError: string, closeError: Option<string>, out: Sink) returns (r: Wrapped)
    ensures r.Unwrapped? <==> body == []
    ensures r.Wrapped? ==>
      fresh(r.rc) && fresh(r.w) && r.rc.w == r.w && r.w.out == out && r.w.Valid() &&
      !r.w.ready && !r.w.flushed && r.w.written == [] && r.w.base == out.data &&
      r.rc.remaining == body && r.rc.endError == endError && r.rc.closeError == closeError && !r.rc.closed
  {
    var w := new Wcf(out);
    if body == [] {
      return Unwrapped;
    }
    var rc := new RcNotifier(body, endError, closeError, w);
    r := Wrapped(rc, w);
  }
}
