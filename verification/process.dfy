/**
 * The process record (pcb_t) as the scheduler sees it.
 *
 * A pcb_t pointer is modelled as Option<Proc>: None is NULL, Some(p) points at
 * the record of p. The fields the scheduler never writes (pid and
 * static_priority) are part of the value Proc itself; the fields it writes
 * in place (state and next) live in maps keyed by Proc, owned by the
 * scheduler object.
 */
module Process {

  datatype Option<+T> = None | Some(value: T)

  /** Identity and the static priority of a process; a larger value is a better priority. */
  datatype Proc = Proc(pid: nat, staticPriority: int)

  /** process_state_t, restricted to the states the scheduler writes or tests. */
  datatype State = Ready | Running | Waiting | Terminated

  /** The `next` field of every process record; a record with no entry has a NULL link. */
  type Links = map<Proc, Option<Proc>>

  function NextOf(links: Links, p: Proc): (r: Option<Proc>)
    ensures p !in links ==> r.None?
  {
    if p in links then links[p] else None
  }
}
