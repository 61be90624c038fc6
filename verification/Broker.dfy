/**
 * Broker admission: a counting semaphore over lease files. A lease is live while its file is
 * locked; any holder may let go at any moment, also while a handler is counting.
 */
module Broker {
  import Text

  /** A lease file name, `uid.index` or `uid.sup.index`. */
  datatype Lease = Lease(uid: string, supervised: bool, index: string)

  function Slot(uid: string, supervised: bool, n: nat): Lease {
    Lease(uid, supervised, Text.Decimal(n))
  }

  datatype Admission =
    | Admitted(lease: Lease)
    | OverCapacity
    | NoFreeIndex

  /** The leases of one agent and class. */
  ghost function Of(leases: set<Lease>, uid: string, supervised: bool): set<Lease> {
    set l | l in leases && l.uid == uid && l.supervised == supervised
  }

  lemma SubsetSize<T>(a: set<T>, b: set<T>)
    requires a <= b
    ensures |a| <= |b|
  {
    if a != {} {
      var x :| x in a;
      SubsetSize(a - {x}, b - {x});
    }
  }

  lemma SlotsDiffer(uid: string, supervised: bool, m: nat, n: nat)
    requires m != n
    ensures Slot(uid, supervised, m) != Slot(uid, supervised, n)
  {
    Text.DecimalRoundTrip(m);
    Text.DecimalRoundTrip(n);
  }

  /** The first n indices of an agent. */
  ghost function Slots(uid: string, supervised: bool, n: nat): set<Lease> {
    if n == 0 then {} else Slots(uid, supervised, n - 1) + {Slot(uid, supervised, n - 1)}
  }

  lemma {:induction false} SlotBeyond(uid: string, supervised: bool, n: nat, m: nat)
    requires n <= m
    ensures Slot(uid, supervised, m) !in Slots(uid, supervised, n)
  {
    if n > 0 {
      SlotBeyond(uid, supervised, n - 1, m);
      SlotsDiffer(uid, supervised, n - 1, m);
    }
  }

  lemma {:induction false} SlotsAreMany(uid: string, supervised: bool, n: nat)
    ensures |Slots(uid, supervised, n)| == n
  {
    if n > 0 {
      SlotsAreMany(uid, supervised, n - 1);
      SlotBeyond(uid, supervised, n - 1, n - 1);
    }
  }

  /** If all indices below n are taken, at least n lease files exist. */
  lemma TakenIndices(files: set<Lease>, uid: string, supervised: bool, n: nat)
    requires Slots(uid, supervised, n) <= files
    ensures n <= |files|
  {
    SlotsAreMany(uid, supervised, n);
    SubsetSize(Slots(uid, supervised, n), files);
  }

  lemma OfOneMore(leases: set<Lease>, uid: string, supervised: bool, lease: Lease)
    requires lease !in leases
    ensures |Of(leases + {lease}, uid, supervised)|
         == |Of(leases, uid, supervised)| + if lease.uid == uid && lease.supervised == supervised then 1 else 0
  {
    if lease.uid == uid && lease.supervised == supervised {
      assert Of(leases + {lease}, uid, supervised) == Of(leases, uid, supervised) + {lease};
    } else {
      assert Of(leases + {lease}, uid, supervised) == Of(leases, uid, supervised);
    }
  }

  /** Taking one element from what is left to do. */
  lemma OneDone<T>(all: set<T>, done: set<T>, todo: set<T>, x: T)
    requires all == done + todo && done !! todo && x in todo
    ensures all == (done + {x}) + (todo - {x}) && done + {x} !! todo - {x} && |done + {x}| == |done| + 1
    ensures all - {x} == done + (todo - {x}) && done !! todo - {x}
  {
  }

  lemma OfSubset(a: set<Lease>, b: set<Lease>, uid: string)
    requires a <= b
    ensures |Of(a, uid, true)| <= |Of(b, uid, true)| && |Of(a, uid, false)| <= |Of(b, uid, false)|
  {
    SubsetSize(Of(a, uid, true), Of(b, uid, true));
    SubsetSize(Of(a, uid, false), Of(b, uid, false));
  }

  /** The attempts directory, its lease files and the locks held on them. */
  class Pool {
    const capacity: nat
    var files: set<Lease>
    var held: set<Lease>

    ghost predicate Valid()
      reads this
    {
      held <= files && |held| <= capacity
    }

    constructor (capacity: nat)
      requires capacity > 0
      ensures Valid() && this.capacity == capacity && held == {}
    {
      this.capacity := capacity;
      files, held := {}, {};
    }

    /** Any holders end, whenever they like; their files stay behind. */
    method Release()
      modifies this`held
      ensures held <= old(held) && |held| <= |old(held)|
    {
      var kept: set<Lease> :| kept <= held;
      SubsetSize(kept, held);
      held := kept;
    }

    /** Count the live leases and remove the files of dead ones, under the admission lock. */
    method Sweep() returns (live: nat)
      requires Valid()
      modifies this`files, this`held
      ensures Valid() && held <= old(held)
      ensures files <= old(held)
      ensures live == |files|
    {
      live := 0;
      var todo := files;
      ghost var kept: set<Lease> := {};
      while todo != {}
        invariant files == kept + todo && kept !! todo
        invariant |kept| == live
        invariant kept <= old(held)
        invariant held <= files && held <= old(held) && |held| <= capacity
        decreases |todo|
      {
        Release();
        var lease :| lease in todo;
        OneDone(files, kept, todo, lease);
        if lease in held {
          live := live + 1;
          kept := kept + {lease};
        } else {
          files := files - {lease};
        }
        todo := todo - {lease};
      }
    }

    /**
     * One launch connection. It is refused only when the pool was full when it took the lock; it
     * is never short of an index; and the pool is never overfull, whoever lets go meanwhile.
     */
    method Admit(uid: string, supervised: bool) returns (outcome: Admission)
      requires Valid() && capacity > 0 && Text.IsUid(uid)
      modifies this`files, this`held
      ensures Valid()
      ensures !outcome.NoFreeIndex?
      ensures files <= old(held) + if outcome.Admitted? then {outcome.lease} else {}
      ensures outcome.OverCapacity? ==> held <= old(held) && |old(held)| == capacity
      ensures outcome.Admitted? ==>
        && outcome.lease in held && held <= old(held) + {outcome.lease}
        && exists n: nat :: n < capacity && outcome.lease == Slot(uid, supervised, n)
    {
      var live := Sweep();
      SubsetSize(files, old(held));
      if live >= capacity {
        return OverCapacity;
      }
      var slot := 0;
      while Slot(uid, supervised, slot) in files
        invariant Slots(uid, supervised, slot) <= files
        invariant held <= files && held <= old(held) && files <= old(held) && live == |files|
        decreases |files| - slot
      {
        Release();
        TakenIndices(files, uid, supervised, slot + 1);
        slot := slot + 1;
      }
      TakenIndices(files, uid, supervised, slot);
      if slot >= capacity {
        return NoFreeIndex;
      }
      Release();
      var lease := Slot(uid, supervised, slot);
      SubsetSize(held, files);
      files := files + {lease};
      held := held + {lease};
      return Admitted(lease);
    }

    /** A lease query: it counts and removes nothing, and what it says lies between then and now. */
    method Query(uid: string) returns (supervised: nat, other: nat)
      requires Valid()
      modifies this`held
      ensures Valid() && held <= old(held)
      ensures |Of(held, uid, true)| <= supervised <= |Of(old(held), uid, true)|
      ensures |Of(held, uid, false)| <= other <= |Of(old(held), uid, false)|
    {
      supervised, other := 0, 0;
      var todo := files;
      ghost var seen: set<Lease> := {};
      while todo != {}
        invariant held <= files && held <= old(held) && |held| <= capacity
        invariant seen <= old(held) && held <= seen + todo && seen !! todo
        invariant supervised == |Of(seen, uid, true)|
        invariant other == |Of(seen, uid, false)|
        decreases |todo|
      {
        Release();
        var lease :| lease in todo;
        if lease in held {
          OfOneMore(seen, uid, true, lease);
          OfOneMore(seen, uid, false, lease);
          if lease.uid == uid {
            if lease.supervised {
              supervised := supervised + 1;
            } else {
              other := other + 1;
            }
          }
          seen := seen + {lease};
        }
        todo := todo - {lease};
      }
      OfSubset(held, seen, uid);
      OfSubset(seen, old(held), uid);
    }

    /** Connections in the order they take the lock, with releases at every point in between. */
    method Serve(requests: seq<Request>) returns (answers: seq<Admission>)
      requires Valid() && capacity > 0 && forall k | 0 <= k < |requests| :: Text.IsUid(requests[k].uid)
      modifies this`files, this`held
      ensures Valid()
      ensures NoFreeIndex !in answers
    {
      answers := [];
      for i := 0 to |requests|
        invariant Valid() && NoFreeIndex !in answers
      {
        Release();
        match requests[i]
        case Launch(uid, supervised) =>
          var answer := Admit(uid, supervised);
          answers := answers + [answer];
        case Leases(uid) =>
          var supervised, other := Query(uid);
      }
    }
  }

  datatype Request =
    | Launch(uid: string, supervised: bool)
    | Leases(uid: string)
}
