/** The store contract: what each operation does to the per-repo state, and the
    in-memory implementation of it. */
module Store {

  datatype RunState = StateQueued | StateRunning

  datatype RepoState = RepoState(state: RunState, reason: string, since: nat, pendingRerun: bool)

  datatype QueueResult = Queued | Coalesced | Deferred

  type Repos = map<string, RepoState>

  // ----- the operations as functions of the tracked repos -----

  function QueueRepo(repos: Repos, key: string, reason: string, now: nat): (Repos, QueueResult) {
    if key !in repos then
      (repos[key := RepoState(StateQueued, reason, now, false)], Queued)
    else if repos[key].state.StateRunning? then
      (repos[key := repos[key].(pendingRerun := true)], Deferred)
    else
      (repos, Coalesced)
  }

  function StartRepo(repos: Repos, key: string, now: nat): Repos {
    if key in repos then repos[key := repos[key].(state := StateRunning, since := now)] else repos
  }

  function FinishRepo(repos: Repos, key: string): (Repos, bool) {
    (repos - {key}, key in repos && repos[key].pendingRerun)
  }

  function AdoptRepo(repos: Repos, key: string, reason: string, now: nat): Repos {
    if key in repos then repos else repos[key := RepoState(StateRunning, reason, now, false)]
  }

  // ----- what a Redis write does to the leases (expiry times) -----

  type Leases = map<string, nat>

  function QueueLease(leases: Leases, key: string, until: nat): Leases {
    leases[key := until]
  }

  function StartLease(leases: Leases, key: string, until: nat): Leases {
    if key in leases then leases[key := until] else leases
  }

  function FinishLease(leases: Leases, key: string): Leases {
    leases - {key}
  }

  function AdoptLease(leases: Leases, key: string, until: nat): Leases {
    leases[key := until]
  }

  // ----- the in-memory store -----

  class Memory {
    var repos: Repos
    var handles: map<string, string>

    constructor ()
      ensures repos == map[] && handles == map[]
    {
      repos := map[];
      handles := map[];
    }

    method Queue(key: string, reason: string, now: nat) returns (r: QueueResult)
      modifies this
      ensures (repos, r) == QueueRepo(old(repos), key, reason, now) && handles == old(handles)
      ensures r == Queued <==> key !in old(repos)
      ensures r == Deferred <==> key in old(repos) && old(repos)[key].state == StateRunning
      ensures r == Queued ==> repos == old(repos)[key := RepoState(StateQueued, reason, now, false)]
      ensures r == Deferred ==> repos == old(repos)[key := old(repos)[key].(pendingRerun := true)]
      ensures r == Coalesced ==> repos == old(repos)
    {
      if key !in repos {
        repos := repos[key := RepoState(StateQueued, reason, now, false)];
        return Queued;
      }
      var rs := repos[key];
      if rs.state == StateRunning {
        repos := repos[key := rs.(pendingRerun := true)];
        return Deferred;
      }
      return Coalesced;
    }

    method StartRun(key: string, now: nat)
      modifies this
      ensures repos == StartRepo(old(repos), key, now) && handles == old(handles)
      ensures repos.Keys == old(repos).Keys && forall k :: k in repos && k != key ==> repos[k] == old(repos)[k]
      ensures key in repos ==>
                var before := old(repos)[key];
                repos[key] == RepoState(StateRunning, before.reason, now, before.pendingRerun)
    {
      if key in repos {
        var rs := repos[key];
        rs := rs.(state := StateRunning);
        rs := rs.(since := now);
        repos := repos[key := rs];
      }
    }

    method FinishRun(key: string) returns (rerun: bool)
      modifies this
      ensures (repos, rerun) == FinishRepo(old(repos), key) && handles == old(handles)
      ensures key !in repos && forall k :: k != key ==> (k in repos <==> k in old(repos)) && (k in repos ==> repos[k] == old(repos)[k])
      ensures rerun <==> key in old(repos) && old(repos)[key].pendingRerun
    {
      if key !in repos {
        assert repos == repos - {key};
        return false;
      }
      rerun := repos[key].pendingRerun;
      repos := repos - {key};
    }

    method Adopt(key: string, reason: string, now: nat)
      modifies this
      ensures repos == AdoptRepo(old(repos), key, reason, now) && handles == old(handles)
      ensures key in old(repos) ==> repos == old(repos)
      ensures key !in old(repos) ==> repos == old(repos)[key := RepoState(StateRunning, reason, now, false)]
    {
      if key !in repos {
        repos := repos[key := RepoState(StateRunning, reason, now, false)];
      }
    }

    method SaveRunHandle(key: string, data: string)
      modifies this
      ensures handles == old(handles)[key := data]
      ensures repos == old(repos)
    {
      handles := handles[key := data];
    }

    method LoadRunHandles() returns (out: map<string, string>)
      ensures out == handles
    {
      out := handles;
    }

    method DeleteRunHandle(key: string)
      modifies this
      ensures handles == old(handles) - {key}
      ensures repos == old(repos)
    {
      handles := handles - {key};
    }

    method Snapshot() returns (out: Repos)
      ensures out == repos
    {
      out := map[];
      var todo := repos.Keys;
      while todo != {}
        invariant todo <= repos.Keys
        invariant out == map k | k in repos && k !in todo :: repos[k]
        decreases |todo|
      {
        var k :| k in todo;
        out := out[k := repos[k]];
        todo := todo - {k};
      }
    }
  }
}
