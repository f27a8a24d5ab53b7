/**
 * One frame of the main loop: the creatures are updated one after another,
 * in place, each against the whole population as it stands at that moment.
 */
module Simulation {
  import opened Vectors
  import opened Flocking
  import opened Creatures

  /** No creature appears twice (the program owns each through its own pointer). */
  ghost predicate Distinct(cs: seq<Creature>) {
    forall i, j :: 0 <= i < j < |cs| ==> cs[i] != cs[j]
  }

  /**
   * The main loop's update half: collect the creatures' pointers in order,
   * then call `update` on each creature in turn with all of them.
   */
  method StepAll(creatures: array<Creature>, cubeSize: real, norm: Normalizer)
    requires Distinct(creatures[..])
    modifies set k | 0 <= k < creatures.Length :: creatures[k]
    ensures States(creatures[..]) == Tick(old(States(creatures[..])), cubeSize, norm)
  {
    var pointers: seq<Creature> := [];
    for i := 0 to creatures.Length
      invariant pointers == creatures[..i]
    {
      pointers := pointers + [creatures[i]];
    }
    assert pointers == creatures[..];
    ghost var initial := States(pointers);

    for i := 0 to |pointers|
      invariant StepFrom(States(pointers), i, cubeSize, norm) == Tick(initial, cubeSize, norm)
    {
      ghost var before := States(pointers);
      UpdateAt(pointers, i, cubeSize, norm);
      StepFromNext(before, i, cubeSize, norm);
    }
  }

  /**
   * `c->update(creaturePointers, CUBE_SIZE)` for the `i`-th creature: its state
   * becomes `Step` of its old state against the others' current states, and
   * no other creature changes.
   */
  method UpdateAt(pointers: seq<Creature>, i: nat, cubeSize: real, norm: Normalizer)
    requires Distinct(pointers) && i < |pointers|
    modifies pointers[i]
    ensures var before := old(States(pointers));
      States(pointers) == before[i := Step(before[i], Without(before, i), cubeSize, norm)]
  {
    ghost var before := States(pointers);
    OthersWithout(pointers, i);
    pointers[i].Update(pointers, cubeSize, norm);
    forall k | 0 <= k < |pointers| && k != i
      ensures pointers[k].State() == before[k]
    {
      assert pointers[k] != pointers[i];
    }
    StatesUpdated(pointers, before, i, Step(before[i], Without(before, i), cubeSize, norm));
  }

  lemma StatesUpdated(cs: seq<Creature>, before: seq<Boid>, i: nat, b: Boid)
    requires |before| == |cs| && i < |cs|
    requires cs[i].State() == b
    requires forall k :: 0 <= k < |cs| && k != i ==> cs[k].State() == before[k]
    ensures States(cs) == before[i := b]
  {
  }

  /** For distinct creatures, the others of creature `i` are everyone's states but its own. */
  lemma OthersWithout(cs: seq<Creature>, i: nat)
    requires Distinct(cs) && i < |cs|
    ensures Others(cs, cs[i]) == Without(States(cs), i)
  {
    var mask := SelfMask(cs, cs[i]);
    forall k | 0 <= k < |cs|
      ensures mask[k] == (k == i)
    {
      if k < i {
        assert cs[k] != cs[i];
      } else if k > i {
        assert cs[i] != cs[k];
      }
    }
    UnmaskedOne(States(cs), mask, i);
  }

  /** Clearing every entry but `i` drops exactly entry `i`. */
  lemma {:induction false} UnmaskedOne(s: seq<Boid>, mask: seq<bool>, i: nat)
    requires |s| == |mask| && i < |s|
    requires forall k :: 0 <= k < |s| ==> mask[k] == (k == i)
    ensures Unmasked(s, mask) == s[..i] + s[i + 1..]
  {
    var n := |s| - 1;
    if i == n {
      UnmaskedNone(s[..n], mask[..n]);
    } else {
      UnmaskedOne(s[..n], mask[..n], i);
      assert s[..n][..i] == s[..i];
      assert s[..n][i + 1..] + [s[n]] == s[i + 1..];
    }
  }

  /** With no entry masked, nothing is dropped. */
  lemma {:induction false} UnmaskedNone(s: seq<Boid>, mask: seq<bool>)
    requires |s| == |mask|
    requires forall k :: 0 <= k < |s| ==> !mask[k]
    ensures Unmasked(s, mask) == s
  {
    if s != [] {
      var n := |s| - 1;
      UnmaskedNone(s[..n], mask[..n]);
      assert s[..n] + [s[n]] == s;
    }
  }
}
