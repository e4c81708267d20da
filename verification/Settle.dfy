// The versioned store that every status write goes through, and the write
// that settles on it: composed from the copy held, refused when that copy is
// not the current version, and composed once more from a fresh one.
module Settle {
  import opened Basics

  // The store of one object. Its versions are the indices of history.
  class Store<S(==)> {
    var history: seq<S>

    ghost predicate Valid() reads this { |history| > 0 }

    constructor (first: S)
      ensures Valid() && history == [first]
    {
      history := [first];
    }

    // A write that states the version it read. A write over any version but
    // the last is refused.
    method Replace(version: nat, status: S) returns (stale: bool)
      requires Valid()
      modifies this
      ensures Valid()
      ensures stale == (version != |old(history)| - 1)
      ensures history == if stale then old(history) else old(history) + [status]
    {
      stale := version != |history| - 1;
      if !stale {
        history := history + [status];
      }
    }

    method WriteByOthers(writes: seq<S>)
      requires Valid()
      modifies this
      ensures Valid() && history == old(history) + writes
    {
      history := history + writes;
    }

    // compose answers the new status, or none to leave the object alone. The
    // other writers land refused between the first write and the read after
    // it, and late between that read and the second write; before the first
    // write they landed in the versions after version.
    //
    // Whatever they write, a write that lands is the one that compose makes of
    // the version just below it, and a call that does not land writes nothing. It
    // lands when the held version is the last, or the one read again stays so.
    method SettleStatus(version: nat, compose: S -> Option<S>, refused: seq<S>, late: seq<S>) returns (landed: bool)
      requires Valid() && version < |history|
      modifies this
      ensures Valid()
      ensures compose(old(history)[version]).None? ==> !landed && history == old(history)
      ensures compose(old(history)[version]).Some? && version == |old(history)| - 1 ==>
                landed && history == old(history) + [compose(old(history)[version]).value]
      ensures compose(old(history)[version]).Some? && version < |old(history)| - 1 ==>
                var read := old(history) + refused;
                var again := compose(read[|read| - 1]);
                if again.None? then !landed && history == read
                else if late == [] then landed && history == read + [again.value]
                else !landed && history == read + late
      ensures landed ==>
        exists before | before in {old(history), old(history) + refused, old(history) + refused + late} ::
          compose(before[|before| - 1]).Some? && history == before + [compose(before[|before| - 1]).value]
    {
      var next := compose(history[version]);
      if next.None? {
        return false;
      }
      var stale := Replace(version, next.value);
      if !stale {
        return true;
      }
      WriteByOthers(refused);
      ghost var read := history;
      var current := |history| - 1;
      next := compose(history[current]);
      if next.None? {
        return false;
      }
      WriteByOthers(late);
      ghost var before := history;
      stale := Replace(current, next.value);
      if !stale {
        assert late == [];
        assert before == read;
      }
      return !stale;
    }
  }
}
