/**
 The state word of an event (src/event.c): two bits for each side and one for
 CLOSED in 32 bits, changed by compare-and-swap loops and fetch operations.

 EventProtocol takes each of these as one step on the sides it names. Here the
 loops are followed attempt by attempt, with other threads rewriting the word
 between the load and the exchange, and the bits are tied to the sides.
 */
module EventWord {
  import opened EventProtocol

  const READY: bv32 := 1
  const BUSY: bv32 := 2
  const CLOSED: bv32 := 16

  /** ntt_event_side_shift, applied. */
  function Bit(side: Side, bit: bv32): bv32 { if side == Readable then bit else bit << 2 }

  predicate Has(word: bv32, mask: bv32) { word & mask != 0 }

  /** The word carries what the protocol says of the event. */
  predicate Represents(word: bv32, s: State) {
    && (Has(word, Bit(Readable, READY)) <==> s.read.ready) && (Has(word, Bit(Readable, BUSY)) <==> s.read.busy)
    && (Has(word, Bit(Writable, READY)) <==> s.write.ready) && (Has(word, Bit(Writable, BUSY)) <==> s.write.busy)
    && (Has(word, CLOSED) <==> s.closed)
  }

  // ---------------------------------------------------------------------------
  // The updates
  // ---------------------------------------------------------------------------

  predicate MayClaim(word: bv32, side: Side) {
    Has(word, Bit(side, READY)) && !Has(word, Bit(side, BUSY) | CLOSED)
  }

  function Claimed(word: bv32, side: Side): bv32 { (word & !Bit(side, READY)) | Bit(side, BUSY) }

  predicate MustGoOn(word: bv32, side: Side) {
    Has(word, Bit(side, READY)) && !Has(word, CLOSED)
  }

  function GivenUp(word: bv32, side: Side): bv32 {
    if MustGoOn(word, side) then word & !Bit(side, READY) else word & !(Bit(side, READY) | Bit(side, BUSY))
  }

  /** ntt_event_side_state. */
  function SideBits(read: bool, write: bool, bits: bv32): bv32 {
    (if read then Bit(Readable, bits) else 0) | (if write then Bit(Writable, bits) else 0)
  }

  /** The bits of one side and CLOSED, one by one. */
  predicate Bits(word: bv32, side: Side, ready: bool, busy: bool, closed: bool) {
    (Has(word, Bit(side, READY)) <==> ready) && (Has(word, Bit(side, BUSY)) <==> busy)
        && (Has(word, CLOSED) <==> closed)
  }

  /** Represents, side by side. */
  lemma RepresentsBits(word: bv32, s: State)
    ensures Represents(word, s) <==>
            Bits(word, Readable, s.read.ready, s.read.busy, s.closed)
                && Bits(word, Writable, s.write.ready, s.write.busy, s.closed)
  {
  }

  lemma MayClaimBits(word: bv32, side: Side, ready: bool, busy: bool, closed: bool)
    requires Bits(word, side, ready, busy, closed)
    ensures MayClaim(word, side) <==> ready && !busy && !closed
  {
    assert side == Readable ==> (word & 18 != 0 <==> word & 2 != 0 || word & 16 != 0);
    assert side == Writable ==> (word & 24 != 0 <==> word & 8 != 0 || word & 16 != 0);
  }

  lemma ClaimBits(word: bv32, side: Side, ready: bool, busy: bool, closed: bool)
    requires Bits(word, side, ready, busy, closed)
    ensures Bits(Claimed(word, side), side, false, true, closed)
  {
  }

  lemma ClaimElsewhere(word: bv32, side: Side, ready: bool, busy: bool, closed: bool)
    requires Bits(word, Other(side), ready, busy, closed)
    ensures Bits(Claimed(word, side), Other(side), ready, busy, closed)
  {
  }

  /** The claim of the word is the claim of the protocol, and touches neither the other side nor CLOSED. */
  lemma ClaimRefines(word: bv32, s: State, s': State, t: nat)
    requires Represents(word, s) && t < |s.agents| && s.agents[t].Claim? && ClaimStep(s, s', t)
    ensures var side := s.agents[t].side;
            && (MayClaim(word, side) <==> CanClaim(s, side))
            && Represents(if MayClaim(word, side) then Claimed(word, side) else word, s')
  {
    hide Represents, Bits, MayClaim, Claimed;
    var side := s.agents[t].side;
    var here, there := s.At(side), s.At(Other(side));
    RepresentsBits(word, s);
    MayClaimBits(word, side, here.ready, here.busy, s.closed);
    ClaimBits(word, side, here.ready, here.busy, s.closed);
    ClaimElsewhere(word, side, there.ready, there.busy, s.closed);
    RepresentsBits(word, s');
    RepresentsBits(Claimed(word, side), s');
  }

  lemma LeaveRefines(word: bv32, s: State, s': State, t: nat)
    requires Represents(word, s) && t < |s.agents| && (s.agents[t].ServeCall? || s.agents[t].TaskCall?)
             && EventProtocol.LeaveStep(s, s', t)
    ensures var side := s.agents[t].side;
            (MustGoOn(word, side) <==> MustServeAgain(s, side))
                && (s.At(side).busy ==> Represents(GivenUp(word, side), s'))
  {
  }

  lemma PublishRefines(word: bv32, s: State, s': State, t: nat)
    requires Represents(word, s) && t < |s.agents| && s.agents[t].Publish? && PublishStep(s, s', t)
    ensures Represents(word | SideBits(s.agents[t].read, s.agents[t].write, READY), s')
  {
  }

  lemma CloseRefines(word: bv32, s: State, s': State, t: nat)
    requires Represents(word, s) && t < |s.agents| && s.agents[t].CancelClose? && CancelStep(s, s', t)
    ensures Represents(Shut(word), s')
  {
  }

  /** READY and BUSY of both sides agree. */
  predicate SameSides(a: bv32, b: bv32) {
    && (Has(a, Bit(Readable, READY)) <==> Has(b, Bit(Readable, READY)))
        && (Has(a, Bit(Readable, BUSY)) <==> Has(b, Bit(Readable, BUSY)))
    && (Has(a, Bit(Writable, READY)) <==> Has(b, Bit(Writable, READY)))
        && (Has(a, Bit(Writable, BUSY)) <==> Has(b, Bit(Writable, BUSY)))
  }

  function Shut(word: bv32): bv32 { word | CLOSED }

  /** Setting CLOSED leaves the sides alone. */
  lemma ShutBits(word: bv32)
    ensures Has(Shut(word), CLOSED) && SameSides(Shut(word), word)
  {
  }

  // ---------------------------------------------------------------------------
  // The loops
  // ---------------------------------------------------------------------------

  /** What an exchange meets: the word others have left there by then, and whether it fails for no reason. */
  datatype Attempt = Attempt(word: bv32, spurious: bool)

  class Word {
    var state: bv32

    constructor (word: bv32)
      ensures state == word
    {
      state := word;
    }

    /** atomic_compare_exchange_weak_explicit: `seen` becomes what was there. */
    method Exchange(seen: bv32, desired: bv32, attempt: Attempt) returns (ok: bool, there: bv32)
      modifies this
      ensures there == attempt.word
      ensures ok <==> attempt.word == seen && !attempt.spurious
      ensures state == if ok then desired else attempt.word
    {
      state := attempt.word;
      there := state;
      ok := state == seen && !attempt.spurious;
      if ok {
        state := desired;
      }
    }

    /**
     ntt_event_claim_side, over the attempts it makes. It acts on one word that
     was there at one moment: it takes the side of that word, or finds it not
     to be taken. `done` says that it returned within the attempts given.
     */
    method ClaimSide(side: Side, attempts: seq<Attempt>) returns (done: bool, taken: bool, ghost at: bv32)
      modifies this
      ensures done ==> at == old(state) || exists a :: a in attempts && a.word == at
      ensures done ==> taken == MayClaim(at, side) && state == if taken then Claimed(at, side) else at
      ensures !done ==> |attempts| == 0 || state == attempts[|attempts| - 1].word
    {
      hide MayClaim, Claimed;
      var seen := state;
      at := seen;
      for k := 0 to |attempts|
        invariant seen == state == at
        invariant at == old(state) || exists a :: a in attempts && a.word == at
        invariant k > 0 ==> state == attempts[k - 1].word
      {
        if !MayClaim(seen, side) {
          return true, false, at;
        }
        var ok, there := Exchange(seen, Claimed(seen, side), attempts[k]);
        assert attempts[k] in attempts;
        at := there;
        if ok {
          return true, true, at;
        }
        seen := there;
      }
      return false, false, at;
    }

    /** ntt_event_leave_side, over the attempts it makes. */
    method LeaveSide(side: Side, attempts: seq<Attempt>) returns (done: bool, again: bool, ghost at: bv32)
      modifies this
      ensures done ==> exists a :: a in attempts && a.word == at
      ensures done ==> again == MustGoOn(at, side) && state == GivenUp(at, side)
      ensures !done ==> |attempts| == 0 || state == attempts[|attempts| - 1].word
    {
      hide MustGoOn, GivenUp;
      var seen := state;
      at := seen;
      for k := 0 to |attempts|
        invariant seen == state
        invariant k > 0 ==> state == attempts[k - 1].word
      {
        again := MustGoOn(seen, side);
        var ok, there := Exchange(seen, GivenUp(seen, side), attempts[k]);
        assert attempts[k] in attempts;
        at := there;
        if ok {
          return true, again, at;
        }
        seen := there;
      }
      return false, false, at;
    }

    /** The fetch that publishes readiness, both sides at once. */
    method Publish(read: bool, write: bool)
      modifies this
      ensures forall side, bit | bit == READY || bit == BUSY ::
                Has(state, Bit(side, bit)) <==>
                Has(old(state), Bit(side, bit)) || (bit == READY && if side == Readable then read else write)
      ensures Has(state, CLOSED) <==> Has(old(state), CLOSED)
    {
      state := state | SideBits(read, write, READY);
    }

    /** The fetch that closes: true for the one caller that set the bit. */
    method Close() returns (mine: bool)
      modifies this
      ensures mine <==> !Has(old(state), CLOSED)
      ensures Has(state, CLOSED) && SameSides(state, old(state)) && state == Shut(old(state))
    {
      hide Has, SameSides, Shut;
      ShutBits(state);
      mine := !Has(state, CLOSED);
      state := Shut(state);
    }
  }

  // ---------------------------------------------------------------------------
  // Handles
  // ---------------------------------------------------------------------------

  /** ntt_event_handle_of. */
  function Handle(index: bv32, generation: bv32): bv64 { (index as bv64) | ((generation as bv64) << 32) }

  function IndexOf(handle: bv64): bv32 { (handle & 0xFFFF_FFFF) as bv32 }

  function GenerationOf(handle: bv64): bv32 { (handle >> 32) as bv32 }

  /** A handle gives back the slot and the generation it was made of. */
  lemma HandleRoundTrip(index: bv32, generation: bv32, handle: bv64)
    ensures IndexOf(Handle(index, generation)) == index && GenerationOf(Handle(index, generation)) == generation
    ensures Handle(IndexOf(handle), GenerationOf(handle)) == handle
  {
  }
}
