/** The length-delimited copy of an upload, cul868_flasher/app/hexfile.py:39-66. */
module Upload {
  import opened Common

  const MAX_HEX_FILE_BYTES := 512 * 1024

  /** What the n-th read of the request body returns; `None` stands for an exception. */
  type Stream = nat -> Option<seq<Byte>>

  function Joined(stream: Stream, n: nat): seq<Byte>
  {
    if n == 0 then [] else Joined(stream, n - 1) + (if stream(n - 1).Some? then stream(n - 1).value else [])
  }

  /** The first n reads deliver something, and never beyond the declared length. */
  ghost predicate Delivers(stream: Stream, n: nat, declared: int)
  {
    forall k :: 0 <= k < n ==> stream(k).Some? && stream(k).value != [] && |Joined(stream, k + 1)| <= declared
  }

  lemma {:induction false} JoinedGrows(stream: Stream, m: nat, n: nat)
    requires m <= n
    ensures |Joined(stream, m)| <= |Joined(stream, n)|
  {
    if m < n {
      JoinedGrows(stream, m, n - 1);
    }
  }

  /**
   `write_upload`: the copied file holds exactly the declared number of bytes, in order; any stream
   that delivers them is accepted, every other one is refused.
   */
  method WriteUpload(stream: Stream, declared: int) returns (content: Option<seq<Byte>>)
    ensures content.Some? <==> 1 <= declared <= MAX_HEX_FILE_BYTES
                               && exists n: nat :: Delivers(stream, n, declared) && |Joined(stream, n)| == declared
    ensures content.Some? ==> |content.value| == declared
                               && exists n: nat :: Delivers(stream, n, declared) && content.value == Joined(stream, n)
  {
    if !(1 <= declared <= MAX_HEX_FILE_BYTES) {
      return None;
    }
    var written, remaining, n := [], declared, 0;
    while remaining != 0
      invariant written == Joined(stream, n) && remaining == declared - |written| >= 0
      invariant Delivers(stream, n, declared)
      decreases remaining
    {
      var chunk := stream(n);
      if chunk.None? || chunk.value == [] || |chunk.value| > remaining {
        NoneDelivers(stream, n, declared);
        return None;
      }
      OneMore(stream, n, declared);
      written, remaining, n := written + chunk.value, remaining - |chunk.value|, n + 1;
    }
    content := Some(written);
  }

  lemma DeliveredEach(stream: Stream, n: nat, declared: int, k: nat)
    requires Delivers(stream, n, declared)
    ensures k < n ==> stream(k).Some? && stream(k).value != [] && |Joined(stream, k)| + |stream(k).value| <= declared
  {
    assert Joined(stream, k + 1) == Joined(stream, k) + (if stream(k).Some? then stream(k).value else []);
  }

  /** A stream that failed before it was complete never delivers the declared length. */
  lemma NoneDelivers(stream: Stream, k: nat, declared: int)
    requires |Joined(stream, k)| < declared
    requires stream(k).None? || stream(k).value == [] || |Joined(stream, k)| + |stream(k).value| > declared
    ensures forall n: nat :: Delivers(stream, n, declared) ==> |Joined(stream, n)| != declared
  {
    forall n: nat | Delivers(stream, n, declared) ensures |Joined(stream, n)| != declared {
      DeliveredEach(stream, n, declared, k);
      JoinedGrows(stream, n, k);
    }
  }

  lemma OneMore(stream: Stream, n: nat, declared: int)
    requires Delivers(stream, n, declared) && stream(n).Some? && stream(n).value != []
    requires |Joined(stream, n)| + |stream(n).value| <= declared
    ensures Delivers(stream, n + 1, declared) && Joined(stream, n + 1) == Joined(stream, n) + stream(n).value
  {
  }
}
