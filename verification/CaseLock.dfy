/** The per-case lock row (`CaseRunLock`) and the two transactions on it. */
module CaseLock {
  import opened BotTypes

  type CaseId = nat
  type JobId = nat

  /** What the lock rows mean: the job that owns each locked case. A case that
      has no row, or whose row is not locked, is absent. */
  type Owners = map<CaseId, JobId>

  predicate CanAcquire(owners: Owners, c: CaseId) {
    c !in owners
  }

  function Acquired(owners: Owners, c: CaseId, j: JobId): Owners {
    if CanAcquire(owners, c) then owners[c := j] else owners
  }

  function Released(owners: Owners, c: CaseId, j: JobId): Owners {
    if c in owners && owners[c] == j then owners - {c} else owners
  }

  /** Releasing undoes exactly one's own acquisition: it gives back the old owners
      when the lock was free, and a refused acquirer that is not the owner, or any
      other job, changes nothing. */
  lemma ReleaseUndoesAcquire(owners: Owners, c: CaseId, j: JobId)
    ensures CanAcquire(owners, c) ==> Released(Acquired(owners, c, j), c, j) == owners
    ensures !CanAcquire(owners, c) && owners[c] != j ==> Released(Acquired(owners, c, j), c, j) == owners
    ensures forall k: JobId, d: CaseId :: (k != j || d != c) && CanAcquire(owners, c) ==>
              c in Released(Acquired(owners, c, j), d, k) && Released(Acquired(owners, c, j), d, k)[c] == j
  {
    if CanAcquire(owners, c) {
      assert owners[c := j] - {c} == owners;
    }
  }

  datatype LockRow = LockRow(isLocked: bool, lockedBy: Option<JobId>, reason: Option<string>)

  class CaseLockTable {
    var rows: map<CaseId, LockRow>

    /** A locked row names its owner and gives a reason; an unlocked row names neither. */
    ghost predicate Valid()
      reads this
    {
      forall c :: c in rows ==>
        && (rows[c].isLocked <==> rows[c].lockedBy.Some?)
        && (rows[c].isLocked <==> rows[c].reason.Some?)
    }

    ghost function Meaning(): Owners
      reads this
      requires Valid()
    {
      map c | c in rows && rows[c].isLocked :: rows[c].lockedBy.value
    }

    constructor ()
      ensures Valid() && Meaning() == map[]
    {
      rows := map[];
    }

    method GetOrCreate(c: CaseId) returns (lock: LockRow)
      requires Valid()
      modifies this
      ensures Valid() && c in rows && rows[c] == lock
      ensures Meaning() == old(Meaning())
      ensures forall d :: d in old(rows) ==> d in rows && rows[d] == old(rows[d])
    {
      if c !in rows {
        rows := rows[c := LockRow(false, None, None)];
      }
      lock := rows[c];
    }

    method AcquireCaseLock(c: CaseId, j: JobId, reason: string) returns (ok: bool)
      requires Valid()
      modifies this
      ensures Valid()
      ensures ok == CanAcquire(old(Meaning()), c)
      ensures Meaning() == Acquired(old(Meaning()), c, j)
      ensures ok ==> c in rows && rows[c] == LockRow(true, Some(j), Some(reason))
    {
      var lock := GetOrCreate(c);
      if lock.isLocked {
        return false;
      }
      rows := rows[c := LockRow(true, Some(j), Some(reason))];
      return true;
    }

    method ReleaseCaseLock(c: CaseId, j: JobId)
      requires Valid()
      modifies this
      ensures Valid()
      ensures Meaning() == Released(old(Meaning()), c, j)
    {
      var lock := GetOrCreate(c);
      if lock.isLocked && lock.lockedBy == Some(j) {
        rows := rows[c := LockRow(false, None, None)];
      }
    }
  }
}
