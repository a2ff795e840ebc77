/** The rank-change column of the top list: each shown entry is compared
    with its position in the list saved before the last fetch. */
module Rank {
  import opened Records
  import TopN

  /** A hash not in the earlier list, one at the same place, or one that
      moved down or up from earlier rank `was` (counted from 1). */
  datatype Change = NewEntry | NoChange | Down(was: nat) | Up(was: nat)

  /** The index of the last entry of `prior` with hash `h`, or -1: the
      inverted map keeps the index written last. */
  function PriorIndex(prior: seq<Entry>, h: string): (r: int)
    ensures -1 <= r < |prior|
  {
    if prior == [] then -1
    else if prior[|prior| - 1].hash == h then |prior| - 1
    else PriorIndex(prior[..|prior| - 1], h)
  }

  /** -1 exactly when the hash is absent; otherwise an index holding it with
      no later one. */
  lemma {:induction false} PriorIndexSpec(prior: seq<Entry>, h: string)
    ensures var r := PriorIndex(prior, h);
            && (r == -1 <==> forall i :: 0 <= i < |prior| ==> prior[i].hash != h)
            && (r >= 0 ==> prior[r].hash == h && forall j :: r < j < |prior| ==> prior[j].hash != h)
  {
    if prior != [] && prior[|prior| - 1].hash != h {
      var init := prior[..|prior| - 1];
      PriorIndexSpec(init, h);
      forall i | 0 <= i < |init|
        ensures init[i] == prior[i]
      {
      }
    }
  }

  /** How the entry with hash `h` shown at index `pos` moved against
      `prior`. */
  function ChangeOf(pos: nat, h: string, prior: seq<Entry>): Change
  {
    var k := PriorIndex(prior, h);
    if k == -1 then NewEntry
    else if pos == k then NoChange
    else if pos > k then Down(k + 1)
    else Up(k + 1)
  }

  /** A new entry exactly when the hash is absent; a rank it moved from is
      one the hash held, below the shown one for a move down and above it
      for a move up. */
  lemma ChangeOfSpec(pos: nat, h: string, prior: seq<Entry>)
    ensures var c := ChangeOf(pos, h, prior);
            && (c == NewEntry <==> forall i :: 0 <= i < |prior| ==> prior[i].hash != h)
            && (c == NoChange ==> pos < |prior| && prior[pos].hash == h)
            && (c.Down? ==> 0 < c.was <= pos && c.was <= |prior| && prior[c.was - 1].hash == h)
            && (c.Up? ==> pos + 1 < c.was <= |prior| && prior[c.was - 1].hash == h)
  {
    PriorIndexSpec(prior, h);
  }

  /** The prior list as a map from hash to position, the later of two
      positions winning. */
  method InvertPrior(prior: seq<Entry>) returns (inv: map<string, nat>)
    ensures forall h :: h in inv <==> PriorIndex(prior, h) >= 0
    ensures forall h :: h in inv ==> inv[h] == PriorIndex(prior, h)
  {
    inv := map[];
    for i := 0 to |prior|
      invariant forall h :: h in inv <==> PriorIndex(prior[..i], h) >= 0
      invariant forall h :: h in inv ==> inv[h] == PriorIndex(prior[..i], h)
    {
      assert prior[..i + 1][..i] == prior[..i];
      inv := inv[prior[i].hash := i];
    }
    assert prior[..|prior|] == prior;
  }

  /** The rank-change loop of the top-list display: one change per shown
      entry, at most the display size of them. */
  method RankChanges(list: seq<Entry>, prior: seq<Entry>, subscribed: bool) returns (changes: seq<Change>)
    ensures |changes| == if |list| < TopN.TopNSize(subscribed) then |list| else TopN.TopNSize(subscribed)
    ensures forall i :: 0 <= i < |changes| ==> changes[i] == ChangeOf(i, list[i].hash, prior)
  {
    changes := [];
    if |list| == 0 {
      return;
    }
    var inv := InvertPrior(prior);
    var size := TopN.TopNSize(subscribed);
    for i := 0 to |list|
      invariant |changes| == i && i < size
      invariant forall j :: 0 <= j < i ==> changes[j] == ChangeOf(j, list[j].hash, prior)
    {
      var c := ChangeAt(inv, prior, |changes|, list[i].hash);
      changes := changes + [c];
      if |changes| == size {
        break;
      }
    }
  }

  /** One step of the rank-change loop: the change of the entry with hash
      `h` shown at `pos`, looked up in the inverted prior list. */
  method ChangeAt(inv: map<string, nat>, prior: seq<Entry>, pos: nat, h: string) returns (c: Change)
    requires forall h :: h in inv <==> PriorIndex(prior, h) >= 0
    requires forall h :: h in inv ==> inv[h] == PriorIndex(prior, h)
    ensures c == ChangeOf(pos, h, prior)
  {
    if h !in inv {
      c := NewEntry;
    } else {
      var oldPos := inv[h];
      if pos == oldPos {
        c := NoChange;
      } else if pos > oldPos {
        c := Down(oldPos + 1);
      } else {
        c := Up(oldPos + 1);
      }
    }
  }

  /** Without duplicates, an entry whose hash sits at the same index of the
      earlier list has not moved. */
  lemma SamePlaceNoChange(list: seq<Entry>, prior: seq<Entry>, i: nat)
    requires TopN.NoDupHashes(prior)
    requires i < |list| && i < |prior| && list[i].hash == prior[i].hash
    ensures ChangeOf(i, list[i].hash, prior) == NoChange
  {
    PriorIndexSpec(prior, list[i].hash);
  }

  /** Against an unchanged ranking nothing moved. */
  lemma UnchangedRanking(list: seq<Entry>)
    requires TopN.NoDupHashes(list)
    ensures forall i :: 0 <= i < |list| ==> ChangeOf(i, list[i].hash, list) == NoChange
  {
    forall i | 0 <= i < |list|
      ensures ChangeOf(i, list[i].hash, list) == NoChange
    {
      SamePlaceNoChange(list, list, i);
    }
  }

  /** An entry that was first in the earlier list and is now shown lower
      moved down from rank 1. */
  lemma MovedFromTop(list: seq<Entry>, prior: seq<Entry>, i: nat)
    requires TopN.NoDupHashes(prior) && prior != []
    requires 0 < i < |list| && list[i].hash == prior[0].hash
    ensures ChangeOf(i, list[i].hash, prior) == Down(1)
  {
    PriorIndexSpec(prior, list[i].hash);
  }
}
