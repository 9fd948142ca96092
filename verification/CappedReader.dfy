/**
  Reading the output of a process up to a cap (`process.rs`, `read_capped_text`).

  `bytes` is what the program keeps; turning it into text is not modelled.
*/
module CappedReader {
  import opened Wrappers

  /** What a stream has to offer next: some bytes, of which none means the end, or an error. */
  datatype Outcome = Data(bytes: seq<bv8>) | Failed(message: string)

  /** All bytes a reader gets from the stream before its end or its first error. */
  function Delivered(outcomes: seq<Outcome>): seq<bv8> {
    if outcomes == [] || outcomes[0].Failed? || outcomes[0].bytes == [] then []
    else outcomes[0].bytes + Delivered(outcomes[1..])
  }

  function Failure(outcomes: seq<Outcome>): Option<string> {
    if outcomes == [] then None
    else if outcomes[0].Failed? then Some(outcomes[0].message)
    else if outcomes[0].bytes == [] then None
    else Failure(outcomes[1..])
  }

  /** Bounds the number of reads. */
  function Supply(outcomes: seq<Outcome>): nat {
    if outcomes == [] then 0
    else 1 + (if outcomes[0].Data? then |outcomes[0].bytes| else 0) + Supply(outcomes[1..])
  }

  datatype ReadResult = Ok(count: nat) | Err(message: string)

  /** A stream fills as much of the buffer as its next bytes allow. */
  class Stream {
    var upcoming: seq<Outcome>

    constructor (outcomes: seq<Outcome>)
      ensures upcoming == outcomes
    {
      upcoming := outcomes;
    }

    method Read(buffer: array<bv8>) returns (r: ReadResult)
      requires buffer.Length > 0
      modifies this, buffer
      ensures r.Err? ==> Delivered(old(upcoming)) == [] && Failure(old(upcoming)) == Some(r.message)
      ensures r == Ok(0) ==> Delivered(old(upcoming)) == [] && Failure(old(upcoming)) == None
      ensures r.Ok? && r.count > 0 ==>
                && r.count <= buffer.Length
                && Delivered(old(upcoming)) == buffer[..r.count] + Delivered(upcoming)
                && Failure(old(upcoming)) == Failure(upcoming)
                && Supply(upcoming) < Supply(old(upcoming))
    {
      if upcoming == [] {
        return Ok(0);
      }
      var next := upcoming[0];
      if next.Failed? {
        upcoming := upcoming[1..];
        return Err(next.message);
      }
      var n := if |next.bytes| <= buffer.Length then |next.bytes| else buffer.Length;
      forall i | 0 <= i < n {
        buffer[i] := next.bytes[i];
      }
      assert buffer[..n] == next.bytes[..n];
      if n == |next.bytes| {
        upcoming := upcoming[1..];
      } else {
        var was := upcoming;
        upcoming := [Data(next.bytes[n..])] + upcoming[1..];
        assert upcoming[1..] == was[1..];
        assert Delivered(was) == next.bytes[..n] + (next.bytes[n..] + Delivered(was[1..]));
      }
      r := Ok(n);
    }
  }

  datatype CappedText = CappedText(bytes: seq<bv8>, truncated: bool, errorMessage: Option<string>)

  function Min(a: nat, b: nat): nat { if a < b then a else b }

  /** What is kept of a stream: a prefix, whether it is a proper one, and the error. */
  function Capped(outcomes: seq<Outcome>, cap: nat): CappedText {
    var all := Delivered(outcomes);
    CappedText(all[..Min(cap, |all|)], |all| > cap,
               match Failure(outcomes)
               case None => None
               case Some(message) => Some("could not read process output: " + message))
  }

  const BUFFER_BYTES := 8192

  method ReadCappedText(reader: Stream, cap: nat) returns (text: CappedText)
    modifies reader
    ensures text == Capped(old(reader.upcoming), cap)
  {
    var bytes: seq<bv8> := [];
    var truncated := false;
    var buffer := new bv8[BUFFER_BYTES];
    ghost var seen: seq<bv8> := [];
    ghost var all := Delivered(reader.upcoming);
    while true
      invariant all == seen + Delivered(reader.upcoming)
      invariant Failure(old(reader.upcoming)) == Failure(reader.upcoming)
      invariant bytes == seen[..Min(cap, |seen|)]
      invariant truncated <==> |seen| > cap
      invariant fresh(buffer)
      decreases Supply(reader.upcoming)
    {
      var read := reader.Read(buffer);
      if read.Err? {
        assert all == seen;
        return CappedText(bytes, truncated, Some("could not read process output: " + read.message));
      }
      if read.count == 0 {
        assert all == seen;
        break;
      }
      var remaining := if |bytes| <= cap then cap - |bytes| else 0;
      if remaining > 0 {
        var storedCount := Min(remaining, read.count);
        bytes := bytes + buffer[..storedCount];
      }
      if read.count > remaining {
        truncated := true;
      }
      seen := seen + buffer[..read.count];
    }
    text := CappedText(bytes, truncated, None);
  }

  // ------------------------------------------------------ the splitting does not matter

  function Flatten(chunks: seq<seq<bv8>>): seq<bv8> {
    if chunks == [] then [] else chunks[0] + Flatten(chunks[1..])
  }

  function Reads(chunks: seq<seq<bv8>>): seq<Outcome> {
    if chunks == [] then [] else [Data(chunks[0])] + Reads(chunks[1..])
  }

  lemma {:induction false} DeliversAll(chunks: seq<seq<bv8>>, rest: seq<Outcome>)
    requires [] !in chunks
    ensures Delivered(Reads(chunks) + rest) == Flatten(chunks) + Delivered(rest)
    ensures Failure(Reads(chunks) + rest) == Failure(rest)
  {
    if chunks == [] {
      assert Reads(chunks) + rest == rest;
    } else {
      assert chunks[0] in chunks;
      assert Reads(chunks) + rest == [Data(chunks[0])] + (Reads(chunks[1..]) + rest);
      DeliversFirst(chunks[0], Reads(chunks[1..]) + rest);
      hide Delivered, Failure;
      DeliversAll(chunks[1..], rest);
    }
  }

  lemma DeliversFirst(chunk: seq<bv8>, rest: seq<Outcome>)
    requires chunk != []
    ensures Delivered([Data(chunk)] + rest) == chunk + Delivered(rest)
    ensures Failure([Data(chunk)] + rest) == Failure(rest)
  {
    assert ([Data(chunk)] + rest)[1..] == rest;
  }

  /** An error-free stream is kept up to the cap, and marked as truncated exactly when it is
      longer, however it is split into reads. */
  lemma SplitDoesNotMatter(chunks: seq<seq<bv8>>, cap: nat)
    requires [] !in chunks
    ensures Capped(Reads(chunks), cap)
         == CappedText(Flatten(chunks)[..Min(cap, |Flatten(chunks)|)], |Flatten(chunks)| > cap, None)
  {
    DeliversAll(chunks, []);
    assert Reads(chunks) + [] == Reads(chunks);
    assert Flatten(chunks) + [] == Flatten(chunks);
  }

  /** A stream that fails keeps what came before the failure, and what comes after the
      failure has no influence. */
  lemma FailureKeepsPrefix(chunks: seq<seq<bv8>>, message: string, later: seq<Outcome>, cap: nat)
    requires [] !in chunks
    ensures Capped(Reads(chunks) + [Failed(message)] + later, cap)
         == Capped(Reads(chunks), cap).(errorMessage := Some("could not read process output: " + message))
  {
    DeliversAll(chunks, [Failed(message)] + later);
    assert Reads(chunks) + ([Failed(message)] + later) == Reads(chunks) + [Failed(message)] + later;
    SplitDoesNotMatter(chunks, cap);
    assert Flatten(chunks) + [] == Flatten(chunks);
  }
}
