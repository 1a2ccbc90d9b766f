/** The job store: three tables and a clock, updated in place.
  *
  * Each method is one call of the Python class CloydSmithJobStore and is proved
  * to do exactly what the function of the same name in JobLedger does.
  */
module JobStore {
  import opened Wrappers
  import opened JobLedger

  class Store {
    var jobs: map<JobId, Job>
    var order: seq<JobId>
    var beats: map<JobId, Heartbeat>
    var events: seq<Event>
    var now: int

    ghost function Contents(): Ledger
      reads this
    {
      Ledger(jobs, order, beats, events, now)
    }

    constructor (now: int)
      ensures Contents() == Ledger(map[], [], map[], [], now)
      ensures Valid(Contents())
    {
      jobs, order, beats, events, this.now := map[], [], map[], [], now;
    }

    method CreateJob(id: JobId, alias: string)
      requires Valid(Contents()) && id !in jobs
      modifies this
      ensures Contents() == Create(old(Contents()), id, alias)
      ensures jobs == old(jobs)[id := Job(alias, Queued, Some(NextSendToSmith), None, now, None)] && now == old(now)
    {
      jobs := jobs[id := Job(alias, Queued, Some(NextSendToSmith), None, now, None)];
      order := InsertInOrder(jobs, order, id);
    }

    method UpdateJob(id: JobId, patch: Patch) returns (status: Status)
      requires id in jobs
      modifies this`jobs
      ensures Contents() == Update(old(Contents()), id, patch)
      ensures status == jobs[id].status
    {
      var current := jobs[id];
      status := patch.status.GetOr(current.status);
      var completedAt := current.completedAt;
      if Completes(status) {
        completedAt := Some(now);
      } else if Completes(current.status) {
        completedAt := None;
      }
      jobs := jobs[id := current.(status := status,
                                  nextAction := patch.nextAction.OrElse(current.nextAction),
                                  error := patch.error.OrElse(current.error),
                                  completedAt := completedAt)];
    }

    method LogEvent(id: JobId, kind: EventKind, payload: Payload)
      modifies this`events
      ensures Contents() == AddEvent(old(Contents()), id, kind, payload)
    {
      events := events + [Event(id, kind, payload)];
    }

    method RecordHeartbeat(id: JobId, b: Beat)
      modifies this`beats
      ensures Contents() == RecordBeat(old(Contents()), id, b)
    {
      var existing := GetBeat(Ledger(jobs, order, beats, events, now), id);
      beats := beats[id := MakeBeat(existing, b, now)];
    }

    method List(limit: nat) returns (active: seq<Listed>)
      requires forall id :: id in order ==> id in jobs
      ensures active == ListActive(Contents(), limit)
    {
      active := [];
      for k := 0 to |order|
        invariant active == ActiveAmong(jobs, order[..k])
      {
        assert order[..k + 1][..k] == order[..k];
        var id := order[k];
        if Active(jobs[id].status) {
          active := active + [Listed(id, jobs[id].alias, jobs[id].status)];
        }
      }
      assert order[..|order|] == order;
      active := Take(active, limit);
    }

    method MarkRun(id: JobId)
      requires id in jobs && id in beats
      modifies this`jobs, this`beats, this`events
      ensures Contents() == MarkOne(old(Contents()), id)
    {
      var heartbeat := beats[id];
      beats := beats[id := StaleBeat(heartbeat, now)];
      var _ := UpdateJob(id, StalePatch(heartbeat));
      LogEvent(id, RunStale, Summary);
    }

    // Marks every listed run whose heartbeat is too old, and returns their ids.
    method MarkStaleRuns() returns (marked: seq<JobId>)
      requires Valid(Contents())
      modifies this`jobs, this`beats, this`events
      ensures (Contents(), marked) == MarkStale(old(Contents()))
    {
      var active := List(50);
      marked := [];
      ActiveKnown(jobs, order);
      for k := 0 to |active|
        invariant jobs.Keys == old(jobs.Keys)
        invariant (Contents(), marked) == MarkAll(old(Contents()), active[..k])
      {
        MarkAllNext(old(Contents()), active, k);
        var job := active[k];
        if job.status.Running? && job.id in beats && BeatIsStale(beats[job.id], now) {
          MarkRun(job.id);
          marked := marked + [job.id];
        }
      }
      assert active[..|active|] == active;
    }
  }
}
