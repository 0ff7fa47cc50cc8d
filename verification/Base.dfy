/** Identifiers and the small storage vocabulary shared by every module: optional values,
    Redis keys with an expiry time, and BullMQ queues that remember the ids they have seen. */
module Base {

  datatype Option<+T> = None | Some(value: T) {
    function GetOr(default: T): T {
      if Some? then value else default
    }
  }

  // Ids are UUID strings in the database.
  type TripId = string
  type OfferId = string
  type DriverId = string
  type UserId = string
  type RiderId = string
  type CallId = nat

  function Min(a: nat, b: nat): nat {
    if a < b then a else b
  }

  /** A Redis key written with `EX`: it reads as absent from its expiry time (in ms) on. */
  datatype Key<+T> = Absent | Present(value: T, expiry: nat) {
    function Get(now: nat): Option<T> {
      if Present? && now < expiry then Some(value) else None
    }
  }

  /** A BullMQ queue: the unfinished jobs, and every job id the queue still remembers. */
  datatype Queue<K(==), J> = Queue(jobs: map<K, J>, seen: set<K>) {
    ghost predicate WellFormed() {
      jobs.Keys <= seen
    }

    /** `queue.add` with a jobId: a no-op when the id has been used. */
    function Add(k: K, j: J): Queue<K, J> {
      if k in seen then this else Queue(jobs[k := j], seen + {k})
    }

    /** A worker finishes (or fails) job `k`: the id stays known. */
    function Finish(k: K): Queue<K, J> {
      Queue(jobs - {k}, seen)
    }

    /** `job.remove()` on each of `ks`: the ids are forgotten too. */
    function Remove(ks: set<K>): Queue<K, J> {
      Queue(jobs - ks, seen - ks)
    }
  }

  /** The `Driver` table: `userId` and `id` are both unique columns. */
  datatype Directory = Directory(byUser: map<UserId, DriverId>, byId: map<DriverId, UserId>) {
    ghost predicate Consistent() {
      && (forall u :: u in byUser ==> byUser[u] in byId && byId[byUser[u]] == u)
      && (forall d :: d in byId ==> byId[d] in byUser && byUser[byId[d]] == d)
    }

    ghost predicate Extends(earlier: Directory) {
      && (forall u :: u in earlier.byUser ==> u in byUser && byUser[u] == earlier.byUser[u])
      && (forall d :: d in earlier.byId ==> d in byId && byId[d] == earlier.byId[d])
    }
  }
}
