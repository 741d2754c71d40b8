/** The writer of the size-rotated log, with the files it appends to, renames and removes. */
module Rotate {
  import opened RotateSpec

  class RotatingWriter {
    const size: int
    const keep: int
    /** The file system: the live file and its backups. */
    var disk: Files
    /** The live file is open, and holds n bytes. */
    var isOpen: bool
    var n: nat

    ghost predicate Valid()
      reads this
    {
      isOpen ==> 0 in disk && n == Size(disk[0])
    }

    constructor (disk: Files, size: int, keep: int)
      ensures Valid() && this.size == size && this.keep == keep && isOpen
      ensures this.disk == if 0 in disk then disk else disk[0 := []]
    {
      this.size, this.keep, this.disk := size, keep, if 0 in disk then disk else disk[0 := []];
      isOpen := true;
      n := Size(if 0 in disk then disk[0] else []);
    }

    method Open()
      modifies this
      ensures Valid() && isOpen
      ensures disk == if 0 in old(disk) then old(disk) else old(disk)[0 := []]
    {
      if 0 !in disk {
        disk := disk[0 := []];
      }
      isOpen := true;
      n := Size(disk[0]);
    }

    method Rename(from: nat, to: nat)
      requires from != to
      modifies this`disk
      ensures disk == if from in old(disk) then old(disk)[to := old(disk)[from]] - {from} else old(disk)
    {
      if from in disk {
        disk := disk[to := disk[from]] - {from};
      }
    }

    method Rotate()
      requires Valid() && isOpen
      modifies this
      ensures Valid() && isOpen
      ensures disk == Rotated(old(disk), keep)
    {
      hide Rotated;
      ghost var before := disk;
      isOpen := false;
      var i := keep;
      while i >= 1
        invariant i <= keep && (keep >= 1 ==> i >= 0)
        invariant !isOpen
        invariant forall j: nat :: Shifting(before, disk, keep, i, j)
      {
        ghost var now, below := disk, i - 1;
        if i == keep {
          disk := disk - {i};
        } else {
          Rename(i, i + 1);
        }
        forall j: nat
          ensures Shifting(before, disk, keep, below, j)
        {
          assert Shifting(before, now, keep, i, j);
          assert Shifting(before, now, keep, i, i) && Shifting(before, now, keep, i, i + 1);
        }
        i := i - 1;
      }
      ghost var moved := disk;
      if keep >= 1 {
        Rename(0, 1);
      } else {
        disk := disk - {0};
      }
      Open();
      RotatedIs(before, keep);
      forall j: nat
        ensures (j in disk <==> j in Rotated(before, keep)) && (j in disk ==> disk[j] == Rotated(before, keep)[j])
      {
        assert Shifting(before, moved, keep, i, j);
        assert Shifting(before, moved, keep, i, 0) && Shifting(before, moved, keep, i, 1);
      }
    }

    /**
     Where file j is while the backups above i have been moved: those at i and below are where they
     were, the place just above is free, and those further up hold what the place below them held.
     */
    static ghost predicate Shifting(before: Files, now: Files, keep: int, i: int, j: nat)
    {
      if i < j <= keep then
        (j in now <==> j > i + 1 && j - 1 in before) && (j in now ==> now[j] == before[j - 1])
      else
        (j in now <==> j in before) && (j in now ==> now[j] == before[j])
    }

    /** Appends one record, after a rotation when the live file would grow past the limit. */
    method Append(p: Record) returns (ok: bool)
      requires Valid()
      modifies this
      ensures Valid() && isOpen == old(isOpen) && ok == isOpen
      ensures disk == if old(isOpen) then Write(old(disk), size, keep, p) else old(disk)
    {
      if !isOpen {
        return false;
      }
      if n > 0 && n + |p| > size {
        Rotate();
      }
      assert (disk[0] + [p])[..|disk[0]|] == disk[0];
      disk := disk[0 := disk[0] + [p]];
      n := n + |p|;
      return true;
    }

    method Close()
      requires Valid()
      modifies this`isOpen
      ensures Valid() && !isOpen
    {
      isOpen := false;
    }
  }
}
