/** The console stream handlers (bugtrace/report/streaming.py). Both print through the
    status reporter; here each handler keeps the reporter calls it made as a log of
    events, so the contracts can say what was shown as well as what is returned. */
module Streaming {
  import opened Strings

  /** A reporter call: `stream_start(title)`, `stream_token(text)`, `stream_end()`. */
  datatype Event = StreamStart(title: string) | StreamToken(text: string) | StreamEnd

  /** The token texts shown since the last `StreamStart` of a log (all of them when
      there is none), in order. */
  function Shown(log: seq<Event>): seq<string> {
    if log == [] then []
    else
      var e := log[|log| - 1];
      if e.StreamStart? then []
      else if e.StreamToken? then Shown(log[..|log| - 1]) + [e.text]
      else Shown(log[..|log| - 1])
  }

  lemma ShownSnoc(log: seq<Event>, e: Event)
    ensures Shown(log + [e]) == if e.StreamStart? then []
                                else if e.StreamToken? then Shown(log) + [e.text]
                                else Shown(log)
  {
    assert (log + [e])[..|log|] == log;
  }

  lemma ConcatSnoc(parts: seq<string>, last: string)
    ensures Concat(parts + [last]) == Concat(parts) + last
  {
    ConcatAppend(parts, [last]);
    assert Concat([last]) == last;
  }

  /** `StreamingHandler`: tokens are echoed as they arrive and kept for the response. */
  class StreamingHandler {
    var buffer: seq<string>
    var isStreaming: bool
    var log: seq<Event>

    /** The response so far is exactly what has been shown since the last start. */
    ghost predicate Valid()
      reads this
    {
      buffer == Shown(log)
    }

    constructor()
      ensures Valid() && buffer == [] && !isStreaming && log == []
    {
      buffer := [];
      isStreaming := false;
      log := [];
    }

    /** `start(title)` */
    method Start(title: string)
      modifies this
      ensures Valid()
      ensures buffer == [] && isStreaming && log == old(log) + [StreamStart(title)]
    {
      buffer := [];
      isStreaming := true;
      log := log + [StreamStart(title)];
      ShownSnoc(old(log), StreamStart(title));
    }

    /** `write(token)`: kept and shown while streaming, dropped otherwise. */
    method Write(token: string)
      requires Valid()
      modifies this
      ensures Valid() && isStreaming == old(isStreaming)
      ensures old(isStreaming) ==> buffer == old(buffer) + [token] && log == old(log) + [StreamToken(token)]
      ensures !old(isStreaming) ==> buffer == old(buffer) && log == old(log)
    {
      if isStreaming {
        buffer := buffer + [token];
        log := log + [StreamToken(token)];
        ShownSnoc(old(log), StreamToken(token));
      }
    }

    /** `finish()`: ends the stream if one is open and returns every token kept since
        the last start, which is what was shown. */
    method Finish() returns (r: string)
      requires Valid()
      modifies this
      ensures Valid() && !isStreaming && buffer == old(buffer)
      ensures log == old(log) + (if old(isStreaming) then [StreamEnd] else [])
      ensures r == Concat(buffer) == Concat(Shown(log))
    {
      if isStreaming {
        log := log + [StreamEnd];
        ShownSnoc(old(log), StreamEnd);
        isStreaming := false;
      }
      r := Concat(buffer);
    }

    /** `get_response()`: the same text, with nothing changed. */
    method GetResponse() returns (r: string)
      requires Valid()
      ensures r == Concat(Shown(log))
    {
      r := Concat(buffer);
    }
  }

  /** `BufferedStreamHandler`: tokens are shown `chunkSize` at a time. */
  class BufferedStreamHandler {
    var buffer: seq<string>
    const chunkSize: int
    var chunksWritten: int
    var log: seq<Event>
    /** The tokens written since the last start (or since construction). */
    ghost var written: seq<string>
    /** Whether `finish` has run since the last start. */
    ghost var finished: bool

    /** The buffer stays below the chunk size (and is empty when the size is below 1).
        Until `finish`, one shown piece was written per flush, and the pieces shown
        followed by the buffer make up everything written. */
    ghost predicate Valid()
      reads this
    {
      Bounded() && Accounted()
    }

    ghost predicate Bounded()
      reads this
    {
      && (chunkSize >= 1 ==> |buffer| < chunkSize)
      && (chunkSize < 1 ==> buffer == [])
    }

    ghost predicate Accounted()
      reads this
    {
      && (!finished ==> chunksWritten == |Shown(log)|)
      && (!finished ==> Concat(Shown(log)) + Concat(buffer) == Concat(written))
    }

    constructor(chunkSize: int)
      ensures Valid() && this.chunkSize == chunkSize
      ensures buffer == [] && chunksWritten == 0 && log == [] && written == [] && !finished
    {
      this.chunkSize := chunkSize;
      buffer := [];
      chunksWritten := 0;
      log := [];
      written := [];
      finished := false;
    }

    /** `start(title)` */
    method Start(title: string)
      requires Valid()
      modifies this
      ensures Valid()
      ensures buffer == [] && chunksWritten == 0 && log == old(log) + [StreamStart(title)]
      ensures written == [] && !finished
    {
      buffer := [];
      chunksWritten := 0;
      log := log + [StreamStart(title)];
      written := [];
      finished := false;
      ShownSnoc(old(log), StreamStart(title));
    }

    /** `write(token)`: the token joins the buffer; a buffer that reaches the chunk
        size is shown as one piece and emptied. */
    method Write(token: string)
      requires Valid()
      modifies this
      ensures Valid() && written == old(written) + [token] && finished == old(finished)
      ensures var full := old(buffer) + [token];
              if |full| >= chunkSize then
                buffer == [] && log == old(log) + [StreamToken(Concat(full))] && chunksWritten == old(chunksWritten) + 1
              else
                buffer == full && log == old(log) && chunksWritten == old(chunksWritten)
    {
      Push(token);
      if |buffer| >= chunkSize {
        EmitBuffer();
      }
    }

    /** The first two steps of `write`. */
    method Push(token: string)
      requires Accounted()
      modifies this
      ensures Accounted() && buffer == old(buffer) + [token] && written == old(written) + [token]
      ensures log == old(log) && chunksWritten == old(chunksWritten) && finished == old(finished)
    {
      buffer := buffer + [token];
      written := written + [token];
      ConcatSnoc(old(buffer), token);
      ConcatSnoc(old(written), token);
    }

    /** The flush of `write`: the buffer shown as one piece, then emptied. */
    method EmitBuffer()
      requires Accounted()
      modifies this
      ensures Valid() && buffer == [] && log == old(log) + [StreamToken(Concat(old(buffer)))]
      ensures chunksWritten == old(chunksWritten) + 1 && written == old(written) && finished == old(finished)
    {
      var chunk := Concat(buffer);
      log := log + [StreamToken(chunk)];
      ShownSnoc(old(log), StreamToken(chunk));
      ConcatSnoc(Shown(old(log)), chunk);
      buffer := [];
      chunksWritten := chunksWritten + 1;
    }

    /** `finish()`: shows what is left in the buffer, ends the stream and returns the
        buffer, which is only the part not shown before; the buffer is kept. After a
        first `finish`, everything written since start has been shown. */
    method Finish() returns (r: string)
      requires Valid()
      modifies this
      ensures Valid() && finished && buffer == old(buffer) && chunksWritten == old(chunksWritten)
      ensures written == old(written)
      ensures log == old(log) + (if old(buffer) != [] then [StreamToken(Concat(old(buffer)))] else []) + [StreamEnd]
      ensures r == Concat(buffer)
      ensures !old(finished) ==> Concat(Shown(log)) == Concat(written)
      ensures !old(finished) ==> Concat(Shown(old(log))) + r == Concat(written)
    {
      Flush();
      r := GetFullResponse();
    }

    /** The first two steps of `finish`, shared with `FinishComplete`. */
    method Flush()
      requires Valid()
      modifies this
      ensures Valid() && finished && buffer == old(buffer) && chunksWritten == old(chunksWritten)
      ensures written == old(written)
      ensures log == old(log) + (if old(buffer) != [] then [StreamToken(Concat(old(buffer)))] else []) + [StreamEnd]
      ensures !old(finished) ==> Concat(Shown(log)) == Concat(written)
    {
      if buffer != [] {
        var chunk := Concat(buffer);
        log := log + [StreamToken(chunk)];
        ShownSnoc(old(log), StreamToken(chunk));
        ConcatSnoc(Shown(old(log)), chunk);
      }
      var shown := log;
      log := log + [StreamEnd];
      ShownSnoc(shown, StreamEnd);
      finished := true;
    }

    /** `get_full_response()`: the buffer's text. */
    method GetFullResponse() returns (r: string)
      requires Valid()
      ensures r == Concat(buffer)
      ensures !finished ==> Concat(Shown(log)) + r == Concat(written)
    {
      r := Concat(buffer);
    }

    /** `finish()` as its docstring describes it: the same flush and end, returning the
        whole response, every piece shown since start. */
    method FinishComplete() returns (r: string)
      requires Valid()
      modifies this
      ensures Valid() && finished && buffer == old(buffer) && written == old(written)
      ensures log == old(log) + (if old(buffer) != [] then [StreamToken(Concat(old(buffer)))] else []) + [StreamEnd]
      ensures !old(finished) ==> r == Concat(written)
    {
      Flush();
      r := Concat(Shown(log));
    }
  }

  /** With a chunk size of 2, writing "a" then "b" shows "ab" as one piece; `finish`
      then returns the empty buffer, while the corrected finish returns "ab". */
  method FinishReturnsOnlyTail() returns (returned: string, complete: string)
    ensures returned == "" && complete == "ab"
  {
    var h := new BufferedStreamHandler(2);
    h.Start("AI Response");
    h.Write("a");
    h.Write("b");
    returned := h.Finish();
    var g := new BufferedStreamHandler(2);
    g.Start("AI Response");
    g.Write("a");
    g.Write("b");
    assert Concat(g.written) == "ab" by {
      assert g.written == ["a", "b"];
      assert ["a", "b"][1..] == ["b"];
    }
    complete := g.FinishComplete();
  }
}
