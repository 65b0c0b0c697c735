/** The bounded serial-console history (`ch_driver/actor.rs`). */
module Consoles {
  import opened Prelude

  type Byte = n: nat | n < 256

  const CONSOLE_SPOOL_SIZE: nat := 1024 * 1024

  /** All bytes of a chunk list, oldest first. */
  function Flatten(chunks: seq<seq<Byte>>): seq<Byte> {
    if chunks == [] then [] else chunks[0] + Flatten(chunks[1..])
  }

  /** The last `n` bytes, or everything when there are fewer. */
  function LastBytes(bytes: seq<Byte>, n: nat): seq<Byte> {
    if |bytes| > n then bytes[|bytes| - n..] else bytes
  }

  /** The chunks read before the stream ends with an empty read or an error. */
  function UntilClosed(input: seq<Option<seq<Byte>>>): seq<seq<Byte>> {
    if input == [] || input[0].None? || input[0].value == [] then []
    else [input[0].value] + UntilClosed(input[1..])
  }

  /** It is the longest run of reads that brought bytes. */
  lemma {:induction false} DrainingStopsAtTheEnd(input: seq<Option<seq<Byte>>>)
    ensures var chunks := UntilClosed(input);
      && |chunks| <= |input|
      && (forall i :: 0 <= i < |chunks| ==> input[i] == Some(chunks[i]) && chunks[i] != [])
      && (|chunks| < |input| ==> input[|chunks|] == None || input[|chunks|] == Some([]))
  {
    if input != [] && input[0].Some? && input[0].value != [] {
      DrainingStopsAtTheEnd(input[1..]);
    }
  }

  lemma {:induction false} FlattenAppend(chunks: seq<seq<Byte>>, chunk: seq<Byte>)
    ensures Flatten(chunks + [chunk]) == Flatten(chunks) + chunk
  {
    if chunks == [] {
      assert [chunk][1..] == [];
    } else {
      assert (chunks + [chunk])[1..] == chunks[1..] + [chunk];
      FlattenAppend(chunks[1..], chunk);
    }
  }

  class Console {
    var ring: seq<seq<Byte>>
    var len: nat

    function Retained(): seq<Byte>
      reads this
    {
      Flatten(ring)
    }

    ghost predicate Valid()
      reads this
    {
      len == |Retained()| && len <= CONSOLE_SPOOL_SIZE
    }

    constructor ()
      ensures Valid() && Retained() == []
    {
      ring, len := [], 0;
    }

    /** Appends a chunk, of which at most the spool size can matter, and trims. */
    method Push(chunk: seq<Byte>)
      requires Valid()
      modifies this
      ensures Valid()
      ensures Retained() == LastBytes(old(Retained()) + chunk, CONSOLE_SPOOL_SIZE)
    {
      var kept := LastBytes(chunk, CONSOLE_SPOOL_SIZE);
      TrimEarly(Retained(), chunk, CONSOLE_SPOOL_SIZE);
      Append(kept);
    }

    method Append(kept: seq<Byte>)
      requires Valid()
      modifies this
      ensures Valid()
      ensures Retained() == LastBytes(old(Retained()) + kept, CONSOLE_SPOOL_SIZE)
    {
      FlattenAppend(ring, kept);
      len := len + |kept|;
      ring := ring + [kept];
      Trim();
    }

    /**
     * Drops the oldest bytes beyond the spool size, cutting the oldest chunk when only part of
     * it has to go.  The loop terminates even on empty chunks and never meets an empty ring.
     */
    method Trim()
      requires len == |Retained()|
      modifies this
      ensures Valid()
      ensures Retained() == LastBytes(old(Retained()), CONSOLE_SPOOL_SIZE)
    {
      while len > CONSOLE_SPOOL_SIZE
        invariant len == |Flatten(ring)|
        invariant LastBytes(Flatten(ring), CONSOLE_SPOOL_SIZE) == LastBytes(old(Retained()), CONSOLE_SPOOL_SIZE)
        decreases len, |ring|
      {
        var excess := len - CONSOLE_SPOOL_SIZE;
        if ring != [] {
          var oldest := ring[0];
          if |oldest| > excess {
            CutOldest(ring, excess, CONSOLE_SPOOL_SIZE);
            len := len - excess;
            ring := [oldest[excess..]] + ring[1..];
          } else {
            DropOldest(ring, CONSOLE_SPOOL_SIZE);
            len := len - |oldest|;
            ring := ring[1..];
          }
        } else {
          assert false;
        }
      }
    }

    /** The task draining the socket: pushes what it reads until the end of the stream or an error. */
    method Spool(input: seq<Option<seq<Byte>>>)
      requires Valid()
      modifies this
      ensures Valid()
      ensures Retained() == LastBytes(old(Retained()) + Flatten(UntilClosed(input)), CONSOLE_SPOOL_SIZE)
    {
      HistoryIsStreamTail(Retained(), UntilClosed(input));
      assert input[0..] == input;
      for i := 0 to |input|
        invariant Valid()
        invariant RetainedAfter(Retained(), UntilClosed(input[i..])) == RetainedAfter(old(Retained()), UntilClosed(input))
      {
        if input[i].None? || input[i].value == [] {
          return;
        }
        assert input[i..][1..] == input[i + 1..];
        assert UntilClosed(input[i..])[1..] == UntilClosed(input[i + 1..]);
        Push(input[i].value);
      }
    }

    /** Everything that is retained, oldest bytes first. */
    method History() returns (history: seq<Byte>)
      requires Valid()
      ensures history == Retained() && |history| == len
    {
      history := [];
      for i := 0 to |ring|
        invariant history + Flatten(ring[i..]) == Flatten(ring)
      {
        assert ring[i..][1..] == ring[i + 1..];
        history := history + ring[i];
      }
      assert ring[|ring|..] == [];
    }
  }

  /** Bytes in front of enough bytes do not matter. */
  lemma FrontIsIgnored(front: seq<Byte>, bytes: seq<Byte>, n: nat)
    requires |bytes| >= n
    ensures LastBytes(front + bytes, n) == LastBytes(bytes, n)
  {
    assert (front + bytes)[|front + bytes| - n..] == bytes[|bytes| - n..];
  }

  lemma DropOldest(ring: seq<seq<Byte>>, n: nat)
    requires ring != [] && |Flatten(ring)| >= |ring[0]| + n
    ensures |Flatten(ring[1..])| == |Flatten(ring)| - |ring[0]|
    ensures LastBytes(Flatten(ring[1..]), n) == LastBytes(Flatten(ring), n)
  {
    FrontIsIgnored(ring[0], Flatten(ring[1..]), n);
  }

  lemma CutOldest(ring: seq<seq<Byte>>, excess: nat, n: nat)
    requires ring != [] && excess < |ring[0]| && |Flatten(ring)| == excess + n
    ensures var cut := [ring[0][excess..]] + ring[1..];
      |Flatten(cut)| == n && LastBytes(Flatten(cut), n) == LastBytes(Flatten(ring), n)
  {
    var cut := [ring[0][excess..]] + ring[1..];
    assert cut[1..] == ring[1..];
    assert Flatten(ring) == ring[0][..excess] + Flatten(cut) by {
      assert ring[0] == ring[0][..excess] + ring[0][excess..];
    }
    FrontIsIgnored(ring[0][..excess], Flatten(cut), n);
  }

  lemma CutEarly(before: seq<Byte>, front: seq<Byte>, cut: seq<Byte>)
    ensures LastBytes(before + (front + cut), |cut|) == LastBytes(before + cut, |cut|)
  {
    FrontIsIgnored(before, cut, |cut|);
    FrontIsIgnored(before + front, cut, |cut|);
    assert before + (front + cut) == (before + front) + cut;
  }

  /** Cutting an oversized chunk before appending it changes nothing. */
  lemma TrimEarly(before: seq<Byte>, chunk: seq<Byte>, n: nat)
    ensures LastBytes(before + LastBytes(chunk, n), n) == LastBytes(before + chunk, n)
  {
    if |chunk| > n {
      var front, cut := chunk[..|chunk| - n], chunk[|chunk| - n..];
      assert chunk == front + cut;
      CutEarly(before, front, cut);
    }
  }

  /** What a console retains after pushing `chunks` one by one. */
  function RetainedAfter(retained: seq<Byte>, chunks: seq<seq<Byte>>): seq<Byte>
    decreases |chunks|
  {
    if chunks == [] then retained
    else RetainedAfter(LastBytes(retained + chunks[0], CONSOLE_SPOOL_SIZE), chunks[1..])
  }

  /** After any sequence of pushes the history is the tail of the whole stream. */
  lemma {:induction false} HistoryIsStreamTail(earlier: seq<Byte>, chunks: seq<seq<Byte>>)
    ensures RetainedAfter(LastBytes(earlier, CONSOLE_SPOOL_SIZE), chunks)
         == LastBytes(earlier + Flatten(chunks), CONSOLE_SPOOL_SIZE)
    decreases |chunks|
  {
    if chunks == [] {
      assert earlier + [] == earlier;
    } else {
      var longer := earlier + chunks[0];
      TailOfTail(earlier, chunks[0], CONSOLE_SPOOL_SIZE);
      HistoryIsStreamTail(longer, chunks[1..]);
      assert longer + Flatten(chunks[1..]) == earlier + Flatten(chunks);
    }
  }

  lemma TailOfTail(earlier: seq<Byte>, chunk: seq<Byte>, n: nat)
    ensures LastBytes(LastBytes(earlier, n) + chunk, n) == LastBytes(earlier + chunk, n)
  {
    if |earlier| > n {
      var tail := earlier[|earlier| - n..];
      assert earlier + chunk == earlier[..|earlier| - n] + (tail + chunk);
      FrontIsIgnored(earlier[..|earlier| - n], tail + chunk, n);
    }
  }

  /** The history of a new console after its stream was drained is the stream's tail. */
  method DrainedHistory(input: seq<Option<seq<Byte>>>) returns (history: seq<Byte>)
    ensures history == LastBytes(Flatten(UntilClosed(input)), CONSOLE_SPOOL_SIZE)
  {
    var console := new Console();
    console.Spool(input);
    assert [] + Flatten(UntilClosed(input)) == Flatten(UntilClosed(input));
    history := console.History();
  }
}
