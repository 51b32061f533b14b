/**
 * The particle emitter's ring buffer: each update turns a spawn count into a
 * batch of fresh particles, runs the registered initializers over the batch,
 * and writes it into the GPU buffer at the insertion index, wrapping to slot 0
 * when the batch does not fit before the end.
 *
 * The spawn count is an input (the emission-rate accumulator is float code).
 * A particle is seen through the initializers that have run on it, in order;
 * the GPU buffer through the log of sub-data writes it received.
 */
module Particles {

  /** A spawned particle, recorded as the ids of the initializers applied to it, in order. */
  datatype Particle = Particle(initializedBy: seq<nat>)

  /** At most this many particles are spawned in one update. */
  const SPAWN_CAP: nat := 100

  /** One UpdateSubData call: the items written starting at slot `offset`. */
  datatype SubDataWrite = SubDataWrite(offset: nat, items: seq<Particle>)

  /** One particle written to one slot. */
  datatype Placed = Placed(slot: nat, particle: Particle)

  /** The slot-by-slot effect of one write. */
  function PlaceWrite(w: SubDataWrite): (ps: seq<Placed>)
    ensures |ps| == |w.items|
    ensures forall j :: 0 <= j < |ps| ==> ps[j] == Placed(w.offset + j, w.items[j])
  {
    seq(|w.items|, j requires 0 <= j < |w.items| => Placed(w.offset + j, w.items[j]))
  }

  /** The slot-by-slot effect of a sequence of writes, in the order they happen. */
  function Placement(ws: seq<SubDataWrite>): seq<Placed>
    decreases |ws|
  {
    if ws == [] then [] else PlaceWrite(ws[0]) + Placement(ws[1..])
  }

  /** A batch of `count` value-initialised particles after the given initializers ran over it. */
  function Fresh(count: nat, inits: seq<nat>): seq<Particle> {
    seq(count, _ => Particle(inits))
  }

  /** One initializer run over the whole batch. */
  function RunInitializer(batch: seq<Particle>, id: nat): seq<Particle> {
    seq(|batch|, k requires 0 <= k < |batch| => Particle(batch[k].initializedBy + [id]))
  }

  /** The writes one update issues: one contiguous write, or the part that fits and the rest at slot 0. */
  function BatchWrites(index: nat, capacity: nat, batch: seq<Particle>): seq<SubDataWrite>
    requires index <= capacity
  {
    if index + |batch| <= capacity then [SubDataWrite(index, batch)]
    else [SubDataWrite(index, batch[..capacity - index]), SubDataWrite(0, batch[capacity - index..])]
  }

  /** The insertion index after writing `count` particles, reset to 0 when it reaches the capacity. */
  function NextIndex(index: nat, capacity: nat, count: nat): nat
    requires index <= capacity
  {
    var n := if index + count <= capacity then index + count else count - (capacity - index);
    if n >= capacity then 0 else n
  }

  class GpuParticleBuffer {
    var writes: seq<SubDataWrite>

    constructor ()
      ensures writes == []
    {
      writes := [];
    }

    method UpdateSubData(items: seq<Particle>, offset: nat)
      modifies this
      ensures writes == old(writes) + [SubDataWrite(offset, items)]
    {
      writes := writes + [SubDataWrite(offset, items)];
    }
  }

  class ParticleEmitter {
    const maxParticles: nat
    var insertionIndex: nat
    var initializers: seq<nat>
    var spawnBuffer: seq<Particle>

    /** The insertion index is a slot of the buffer (or 0 for a buffer without slots). */
    ghost predicate Valid()
      reads this
    {
      insertionIndex < maxParticles || insertionIndex == 0
    }

    constructor (maxParticles: nat)
      ensures Valid() && this.maxParticles == maxParticles
      ensures insertionIndex == 0 && initializers == [] && spawnBuffer == []
    {
      this.maxParticles := maxParticles;
      insertionIndex := 0;
      initializers := [];
      spawnBuffer := [];
    }

    /** Initializers run in the order they were added. */
    method AddInitializer(id: nat)
      modifies this
      ensures initializers == old(initializers) + [id]
      ensures insertionIndex == old(insertionIndex) && spawnBuffer == old(spawnBuffer)
    {
      initializers := initializers + [id];
    }

    /**
     * A non-positive count changes nothing.  Otherwise the count is capped at
     * SPAWN_CAP, a fresh batch goes through every initializer in order, and
     * the batch is written at the insertion index (split at the end of the
     * buffer), after which the index is a slot of the buffer again.
     */
    method Update(spawnCounts: int, buffer: GpuParticleBuffer)
      requires Valid()
      modifies this, buffer
      ensures Valid() && initializers == old(initializers)
      ensures spawnCounts <= 0 ==> unchanged(this) && unchanged(buffer)
      ensures spawnCounts > 0 ==>
                var count := if spawnCounts > SPAWN_CAP then SPAWN_CAP else spawnCounts;
                && spawnBuffer == Fresh(count, initializers)
                && buffer.writes == old(buffer.writes) + BatchWrites(old(insertionIndex), maxParticles, spawnBuffer)
                && insertionIndex == NextIndex(old(insertionIndex), maxParticles, count)
    {
      if spawnCounts <= 0 {
        return;
      }
      var count: nat := if spawnCounts > SPAWN_CAP then SPAWN_CAP else spawnCounts;
      spawnBuffer := Fresh(count, []);

      var i := 0;
      while i < |initializers|
        invariant 0 <= i <= |initializers|
        invariant spawnBuffer == Fresh(count, initializers[..i])
        invariant insertionIndex == old(insertionIndex) && buffer.writes == old(buffer.writes)
        invariant initializers == old(initializers)
      {
        spawnBuffer := RunInitializer(spawnBuffer, initializers[i]);
        assert initializers[..i + 1] == initializers[..i] + [initializers[i]];
        i := i + 1;
      }
      assert initializers[..i] == initializers;

      if insertionIndex + count <= maxParticles {
        buffer.UpdateSubData(spawnBuffer, insertionIndex);
        insertionIndex := insertionIndex + count;
      } else {
        var firstPartCount := maxParticles - insertionIndex;
        var secondPartCount := count - firstPartCount;
        var firstPart := spawnBuffer[..firstPartCount];
        var secondPart := spawnBuffer[firstPartCount..];
        buffer.UpdateSubData(firstPart, insertionIndex);
        buffer.UpdateSubData(secondPart, 0);
        insertionIndex := secondPartCount;
      }
      if insertionIndex >= maxParticles {
        insertionIndex := 0;
      }
    }
  }

  lemma ModAboveOnce(x: nat, m: nat)
    requires 0 < m <= x < 2 * m
    ensures x % m == x - m
  {
  }

  lemma PlacementOfOne(w: SubDataWrite)
    ensures Placement([w]) == PlaceWrite(w)
  {
    assert [w][1..] == [];
  }

  lemma PlacementOfTwo(w1: SubDataWrite, w2: SubDataWrite)
    ensures Placement([w1, w2]) == PlaceWrite(w1) + PlaceWrite(w2)
  {
    assert [w1, w2][1..] == [w2];
    PlacementOfOne(w2);
  }

  /** The ring property of one update's writes, for either way the batch is laid out. */
  ghost predicate LandsAsRing(index: nat, capacity: nat, batch: seq<Particle>)
    requires index <= capacity && 0 < capacity
  {
    var ps := Placement(BatchWrites(index, capacity, batch));
    && |ps| == |batch|
    && (forall k :: 0 <= k < |batch| ==> ps[k] == Placed((index + k) % capacity, batch[k]))
    && NextIndex(index, capacity, |batch|) == (index + |batch|) % capacity
  }

  /**
   * A batch no larger than the buffer lands as a ring: its k-th particle goes
   * to slot (index + k) mod capacity, and the index moves on by the batch
   * size modulo the capacity.
   */
  lemma RingPlacement(index: nat, capacity: nat, batch: seq<Particle>)
    requires index < capacity && |batch| <= capacity
    ensures var ps := Placement(BatchWrites(index, capacity, batch));
      && |ps| == |batch|
      && forall k :: 0 <= k < |batch| ==> ps[k] == Placed((index + k) % capacity, batch[k])
    ensures NextIndex(index, capacity, |batch|) == (index + |batch|) % capacity
  {
    if index + |batch| <= capacity {
      RingContiguous(index, capacity, batch);
    } else {
      RingWrapped(index, capacity, batch);
    }
  }

  lemma RingContiguous(index: nat, capacity: nat, batch: seq<Particle>)
    requires index < capacity && index + |batch| <= capacity
    ensures LandsAsRing(index, capacity, batch)
  {
    var w := SubDataWrite(index, batch);
    PlacementOfOne(w);
    var ps := PlaceWrite(w);
    forall k | 0 <= k < |batch|
      ensures ps[k] == Placed((index + k) % capacity, batch[k])
    {
      ModBelow(index + k, capacity);
    }
    if index + |batch| < capacity {
      ModBelow(index + |batch|, capacity);
    }
  }

  lemma RingWrapped(index: nat, capacity: nat, batch: seq<Particle>)
    requires index < capacity < index + |batch| && |batch| <= capacity
    ensures LandsAsRing(index, capacity, batch)
  {
    var split := capacity - index;
    var w1 := SubDataWrite(index, batch[..split]);
    var w2 := SubDataWrite(0, batch[split..]);
    PlacementOfTwo(w1, w2);
    var ps := PlaceWrite(w1) + PlaceWrite(w2);
    forall k | 0 <= k < |batch|
      ensures ps[k] == Placed((index + k) % capacity, batch[k])
    {
      if k < split {
        assert ps[k] == PlaceWrite(w1)[k];
        ModBelow(index + k, capacity);
      } else {
        assert ps[k] == PlaceWrite(w2)[k - split];
        ModAboveOnce(index + k, capacity);
      }
    }
    ModAboveOnce(index + |batch|, capacity);
  }

  lemma ModBelow(x: nat, m: nat)
    requires x < m
    ensures x % m == x
  {
  }

  /**
   * Every slot an update writes is inside the buffer exactly when the batch
   * is at most twice the capacity minus the index.  A larger batch makes the
   * second part run past the end of the buffer; since the batch is capped at
   * SPAWN_CAP and the index can reach capacity - 1, that is possible exactly
   * when the capacity is at most 98.
   */
  lemma WritesInBoundsIff(index: nat, capacity: nat, batch: seq<Particle>)
    requires index < capacity || index == 0
    requires |batch| > 0
    ensures var ps := Placement(BatchWrites(index, capacity, batch));
      (forall m :: 0 <= m < |ps| ==> ps[m].slot < capacity) <==> |batch| + index <= 2 * capacity
  {
    if index + |batch| <= capacity {
      PlacementOfOne(SubDataWrite(index, batch));
    } else {
      var split := capacity - index;
      var w1 := SubDataWrite(index, batch[..split]);
      var w2 := SubDataWrite(0, batch[split..]);
      PlacementOfTwo(w1, w2);
      var ps := PlaceWrite(w1) + PlaceWrite(w2);
      assert ps[|ps| - 1] == PlaceWrite(w2)[|batch| - split - 1];
      forall m | 0 <= m < |ps| && |batch| + index <= 2 * capacity
        ensures ps[m].slot < capacity
      {
        if m >= split {
          assert ps[m] == PlaceWrite(w2)[m - split];
        }
      }
    }
  }

  /**
   * A run that overruns a 60-slot buffer: spawning 59 particles leaves the
   * index at 59, and a capped batch of 100 is then written as one particle
   * at slot 59 and the other 99 from slot 0, the last of them at slot 98.
   */
  method OverrunWithSixtySlots() returns (lastWrite: SubDataWrite)
    ensures lastWrite.offset == 0 && |lastWrite.items| == 99
    ensures lastWrite.offset + |lastWrite.items| - 1 >= 60
  {
    var emitter := new ParticleEmitter(60);
    var buffer := new GpuParticleBuffer();
    emitter.Update(59, buffer);
    assert emitter.insertionIndex == 59;
    emitter.Update(250, buffer);
    lastWrite := buffer.writes[|buffer.writes| - 1];
  }
}
