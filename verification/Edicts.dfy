/** What an edict and the leftovers of a transaction mean for each output, said without the functions that
    compute them. */
module Edicts {
  import opened Wrappers
  import opened Types
  import opened RunesSpec
  import opened RunesProofs

  /** How many of the first `k` outputs can be spent. */
  function Spendable(outputs: seq<Output>, k: nat): nat
    requires k <= |outputs|
  {
    |set o: nat | o < k && !IsOpReturn(outputs[o].script)|
  }

  /** The edict speaks of this rune: by its id, or by the default id of the rune etched here. */
  predicate Concerns(e: Edict, etched: Option<Etched>, id: RuneId) {
    if e.id == DEFAULT_RUNE_ID then etched.Some? && etched.value.id == id else id == e.id
  }

  /** What an output holds more of a rune in one split than in another. */
  function Gain(b: Split, z: Split, id: RuneId, o: nat): int
    requires o < |b.alloc| == |z.alloc|
  {
    Get(z.alloc[o], id) - Get(b.alloc[o], id)
  }

  /** One output gets the whole balance, or the amount if that is given and less. */
  ghost predicate GivesOne(e: Edict, id: RuneId, b: Split, z: Split)
    requires id in b.un && |b.alloc| == |z.alloc|
  {
    var moved := if e.amount == 0 then b.un[id] else Min(e.amount, b.un[id]);
    && Get(z.un, id) == b.un[id] - moved
    && forall o | 0 <= o < |b.alloc| :: Gain(b, z, id, o) == if o == e.output then moved else 0
  }

  /** Spendable outputs share the balance evenly, the first ones getting one more where it does not divide;
      without a spendable output it stays. */
  ghost predicate GivesEvenly(outputs: seq<Output>, id: RuneId, b: Split, z: Split)
    requires id in b.un && |b.alloc| == |z.alloc| == |outputs|
  {
    var n := Spendable(outputs, |outputs|);
    && Get(z.un, id) == (if n == 0 then b.un[id] else 0)
    && forall o | 0 <= o < |outputs| :: Gain(b, z, id, o) ==
         if n == 0 || IsOpReturn(outputs[o].script) then 0
         else b.un[id] / n + if Spendable(outputs, o) < b.un[id] % n then 1 else 0
  }

  /** Spendable outputs get the amount each, in order, or what the ones before them left. */
  ghost predicate GivesEach(outputs: seq<Output>, amount: nat, id: RuneId, b: Split, z: Split)
    requires id in b.un && |b.alloc| == |z.alloc| == |outputs|
  {
    && Get(z.un, id) == Max(0, b.un[id] - Spendable(outputs, |outputs|) * amount)
    && forall o | 0 <= o < |outputs| :: Gain(b, z, id, o) ==
         if IsOpReturn(outputs[o].script) then 0
         else Min(amount, Max(0, b.un[id] - Spendable(outputs, o) * amount))
  }

  /** An edict took one split to another. */
  ghost predicate Edicted(tx: Tx, etched: Option<Etched>, e: Edict, b: Split, z: Split) {
    && |b.alloc| == |z.alloc| == |tx.outputs|
    && ((forall id | Concerns(e, etched, id) :: id !in b.un) ==> z == b)
    && (forall id | !Concerns(e, etched, id) ::
          && Get(z.un, id) == Get(b.un, id)
          && forall o | 0 <= o < |tx.outputs| :: Gain(b, z, id, o) == 0)
    && (forall id | Concerns(e, etched, id) && id in b.un ::
          if e.output < |tx.outputs| then GivesOne(e, id, b, z)
          else if e.amount == 0 then GivesEvenly(tx.outputs, id, b, z)
          else GivesEach(tx.outputs, e.amount, id, b, z))
  }

  /** Edicts took what was gathered from one split to the next, in order. */
  ghost predicate EdictsFollowed(
    tx: Tx, etched: Option<Etched>, edicts: seq<Edict>, un: Balances, steps: seq<Split>)
  {
    && |steps| == |edicts| + 1 && steps[0] == Split(un, Empties(|tx.outputs|))
    && forall k | 0 <= k < |edicts| :: Edicted(tx, etched, edicts[k], steps[k], steps[k + 1])
  }

  // --- destinations by rank

  lemma SpendableStep(outputs: seq<Output>, k: nat)
    requires k <= |outputs|
    ensures k == 0 ==> Spendable(outputs, k) == 0
    ensures k > 0 ==>
      Spendable(outputs, k) == Spendable(outputs, k - 1) + if IsOpReturn(outputs[k - 1].script) then 0 else 1
  {
    if k > 0 {
      var before := set o: nat | o < k - 1 && !IsOpReturn(outputs[o].script);
      assert (set o: nat | o < k && !IsOpReturn(outputs[o].script))
          == if IsOpReturn(outputs[k - 1].script) then before else before + {k - 1};
    }
  }

  /** The i-th destination is the spendable output with i spendable ones before it. */
  lemma {:induction false} Ranked(outputs: seq<Output>, k: nat)
    requires k <= |outputs|
    ensures |Destinations(outputs, k)| == Spendable(outputs, k)
    ensures forall i | 0 <= i < |Destinations(outputs, k)| :: Spendable(outputs, Destinations(outputs, k)[i]) == i
    decreases k
  {
    hide Spendable;
    SpendableStep(outputs, k);
    if k > 0 {
      Ranked(outputs, k - 1);
    }
  }

  lemma RankOf(outputs: seq<Output>, o: nat) returns (i: nat)
    requires o < |outputs| && !IsOpReturn(outputs[o].script)
    ensures i < |Destinations(outputs, |outputs|)| && Destinations(outputs, |outputs|)[i] == o
    ensures i == Spendable(outputs, o) && |Destinations(outputs, |outputs|)| == Spendable(outputs, |outputs|)
  {
    hide Spendable;
    Ranked(outputs, |outputs|);
    assert o in Destinations(outputs, |outputs|);
    i :| 0 <= i < |Destinations(outputs, |outputs|)| && Destinations(outputs, |outputs|)[i] == o;
  }

  // --- each branch of an edict

  lemma SharedGain(outputs: seq<Output>, id: RuneId, b: Split, z: Split, share: nat -> nat, o: nat)
    requires |b.alloc| == |z.alloc| == |outputs| && o < |outputs|
    requires var dests := Destinations(outputs, |outputs|); SharedOut(b, z, id, dests, |dests|, share)
    ensures Gain(b, z, id, o) == if IsOpReturn(outputs[o].script) then 0 else share(Spendable(outputs, o))
  {
    hide Spendable, Destinations;
    var dests := Destinations(outputs, |outputs|);
    assert dests[..|dests|] == dests;
    if IsOpReturn(outputs[o].script) {
      assert o !in dests;
    } else {
      var i := RankOf(outputs, o);
    }
  }

  /** Every other rune stays where it was. */
  ghost predicate OthersKept(b: Split, z: Split, id: RuneId) {
    && |b.alloc| == |z.alloc|
    && forall x | x != id ::
         && Get(z.un, x) == Get(b.un, x)
         && forall o | 0 <= o < |b.alloc| :: Gain(b, z, x, o) == 0
  }

  lemma SharedOthers(b: Split, z: Split, id: RuneId, dests: seq<nat>, share: nat -> nat)
    requires Fits(b, dests) && |b.alloc| == |z.alloc| && SharedOut(b, z, id, dests, |dests|, share)
    ensures OthersKept(b, z, id)
  {
    forall x, o: nat | x != id && o < |b.alloc|
      ensures Gain(b, z, x, o) == 0
    {
      assert Get(z.alloc[o], x) == Get(b.alloc[o], x);
    }
  }

  lemma EvenlyGiven(tx: Tx, id: RuneId, b: Split)
    requires |b.alloc| == |tx.outputs| && id in b.un
    ensures var dests := Destinations(tx.outputs, |tx.outputs|);
            var z := EvenShares(b, id, dests, |dests|);
            GivesEvenly(tx.outputs, id, b, z) && OthersKept(b, z, id)
  {
    hide Spendable, Destinations, EvenShares, SharedOut, LargerFirst, GivesEvenly, OthersKept;
    var dests := Destinations(tx.outputs, |tx.outputs|);
    if dests == [] {
      Ranked(tx.outputs, |tx.outputs|);
      NothingShared(b, id, dests);
      NothingGiven(tx.outputs, id, b);
    } else {
      EvenSplit(tx, b, id);
      EvenlyShared(tx.outputs, id, b, EvenShares(b, id, dests, |dests|));
    }
  }

  lemma EvenlyShared(outputs: seq<Output>, id: RuneId, b: Split, z: Split)
    requires |b.alloc| == |z.alloc| == |outputs| && id in b.un && Get(z.un, id) == 0
    requires var dests := Destinations(outputs, |outputs|);
             dests != [] && SharedOut(b, z, id, dests, |dests|, EvenShare(b.un[id], |dests|))
    ensures GivesEvenly(outputs, id, b, z) && OthersKept(b, z, id)
  {
    hide Spendable, Destinations, SharedOut, Gain, GivesEvenly, OthersKept, EvenShare, IsOpReturn;
    var dests := Destinations(outputs, |outputs|);
    var share := EvenShare(b.un[id], |dests|);
    Ranked(outputs, |outputs|);
    SharedOthers(b, z, id, dests, share);
    forall o: nat | o < |outputs|
      ensures Gain(b, z, id, o) == if IsOpReturn(outputs[o].script) then 0 else share(Spendable(outputs, o))
    {
      SharedGain(outputs, id, b, z, share, o);
    }
    EvenGains(outputs, id, b, z);
  }

  lemma NothingGiven(outputs: seq<Output>, id: RuneId, b: Split)
    requires id in b.un && |b.alloc| == |outputs| && Spendable(outputs, |outputs|) == 0
    ensures GivesEvenly(outputs, id, b, b) && OthersKept(b, b, id)
  {
    hide Spendable;
    NoGain(b);
  }

  lemma EvenGains(outputs: seq<Output>, id: RuneId, b: Split, z: Split)
    requires id in b.un && |b.alloc| == |z.alloc| == |outputs| && Spendable(outputs, |outputs|) > 0
    requires Get(z.un, id) == 0
    requires forall o: nat | o < |outputs| ::
      Gain(b, z, id, o) ==
      if IsOpReturn(outputs[o].script) then 0
      else EvenShare(b.un[id], Spendable(outputs, |outputs|))(Spendable(outputs, o))
    ensures GivesEvenly(outputs, id, b, z)
  {
    hide Spendable, Gain;
  }

  lemma NothingShared(b: Split, id: RuneId, dests: seq<nat>)
    requires id in b.un && dests == []
    ensures EvenShares(b, id, dests, 0) == b
    ensures forall amount: nat :: CappedShares(b, id, amount, dests, 0) == b
  {
  }

  lemma NoGain(b: Split)
    ensures forall id, o: nat | o < |b.alloc| :: Gain(b, b, id, o) == 0
    ensures forall id :: OthersKept(b, b, id)
  {
  }

  lemma EachGiven(tx: Tx, id: RuneId, amount: nat, b: Split)
    requires |b.alloc| == |tx.outputs| && id in b.un
    ensures var dests := Destinations(tx.outputs, |tx.outputs|);
            var z := CappedShares(b, id, amount, dests, |dests|);
            GivesEach(tx.outputs, amount, id, b, z) && OthersKept(b, z, id)
  {
    hide Spendable, Destinations, CappedShares, Left, SharedOut, Gain;
    var dests := Destinations(tx.outputs, |tx.outputs|);
    var z := CappedShares(b, id, amount, dests, |dests|);
    Ranked(tx.outputs, |tx.outputs|);
    CappedLeft(b, id, amount, dests, |dests|);
    LeftClosed(b.un[id], amount, |dests|);
    if dests == [] {
      NothingShared(b, id, dests);
      NoGain(b);
    } else {
      CappedSplit(b, id, amount, dests, |dests|);
      SharedOthers(b, z, id, dests, CappedShare(b.un[id], amount));
    }
    forall o: nat | o < |tx.outputs|
      ensures Gain(b, z, id, o) ==
        if IsOpReturn(tx.outputs[o].script) then 0
        else Min(amount, Max(0, b.un[id] - Spendable(tx.outputs, o) * amount))
    {
      if dests != [] {
        SharedGain(tx.outputs, id, b, z, CappedShare(b.un[id], amount), o);
        LeftClosed(b.un[id], amount, Spendable(tx.outputs, o));
      } else if !IsOpReturn(tx.outputs[o].script) {
        var i := RankOf(tx.outputs, o);
      }
    }
  }

  lemma OneGiven(id: RuneId, e: Edict, b: Split)
    requires e.output < |b.alloc| && id in b.un
    ensures var z := Allocate(b, id, if e.amount == 0 then b.un[id] else Min(e.amount, b.un[id]), e.output);
            |z.alloc| == |b.alloc| && GivesOne(e, id, b, z) && OthersKept(b, z, id)
  {
  }

  lemma Concerned(tx: Tx, etched: Option<Etched>, e: Edict, id: RuneId, b: Split, z: Split)
    requires |b.alloc| == |tx.outputs| && Concerns(e, etched, id) && id in b.un && OthersKept(b, z, id)
    requires if e.output < |tx.outputs| then GivesOne(e, id, b, z)
             else if e.amount == 0 then GivesEvenly(tx.outputs, id, b, z)
             else GivesEach(tx.outputs, e.amount, id, b, z)
    ensures Edicted(tx, etched, e, b, z)
  {
    hide GivesOne, GivesEvenly, GivesEach, Gain;
    assert forall x | Concerns(e, etched, x) :: x == id;
  }

  /** What an edict does, in all its cases. */
  lemma StepEdicted(tx: Tx, etched: Option<Etched>, e: Edict, b: Split)
    requires |b.alloc| == |tx.outputs| && e.output <= |tx.outputs|
    ensures Edicted(tx, etched, e, b, EdictStep(tx, etched, e, b))
  {
    hide GivesOne, GivesEvenly, GivesEach, EvenShares, CappedShares, Allocate, Destinations, Gain, Edicted, OthersKept;
    var rune := EdictRune(e, etched);
    var z := EdictStep(tx, etched, e, b);
    if rune.Some? && rune.value in b.un {
      if e.output < |tx.outputs| {
        OneGiven(rune.value, e, b);
      } else if e.amount == 0 {
        EvenlyGiven(tx, rune.value, b);
      } else {
        EachGiven(tx, rune.value, e.amount, b);
      }
      Concerned(tx, etched, e, rune.value, b, z);
    } else {
      Unconcerned(tx, etched, e, b);
    }
  }

  lemma Unconcerned(tx: Tx, etched: Option<Etched>, e: Edict, b: Split)
    requires |b.alloc| == |tx.outputs| && forall id | Concerns(e, etched, id) :: id !in b.un
    ensures Edicted(tx, etched, e, b, b)
  {
  }

  // --- leftovers

  /** The output that gets the leftovers: the one the runestone names, or the first that can be spent if it
      names none. A cenotaph leaves them to nobody. */
  predicate Receives(tx: Tx, v: nat) {
    && v < |tx.outputs|
    && !(tx.artifact.Some? && tx.artifact.value.Cenotaph?)
    && if tx.artifact.Some? && tx.artifact.value.Runestone? && tx.artifact.value.pointer.Some?
       then v == tx.artifact.value.pointer.value
       else !IsOpReturn(tx.outputs[v].script) && forall o | 0 <= o < v :: IsOpReturn(tx.outputs[o].script)
  }

  lemma DefaultReceives(tx: Tx, v: nat)
    ensures DefaultOutput(tx) == Some(v) <==> Receives(tx, v)
  {
    var dests := Destinations(tx.outputs, |tx.outputs|);
    if v < |tx.outputs| && !IsOpReturn(tx.outputs[v].script) {
      assert v in dests;
    }
    if dests != [] {
      assert forall o | 0 <= o < dests[0] :: o !in dests;
    }
  }

  /** Leftovers added to one output and to no other. */
  ghost predicate LeftTo(left: Split, alloc: seq<Balances>, v: nat) {
    && |alloc| == |left.alloc|
    && forall o, id | 0 <= o < |alloc| ::
         Get(alloc[o], id) == Get(left.alloc[o], id) + if o == v then Get(left.un, id) else 0
  }

  lemma LeftAdded(left: Split, v: nat)
    requires v < |left.alloc|
    ensures LeftTo(left, left.alloc[v := AddPositive(left.alloc[v], left.un)], v)
  {
  }
}
