/** Run handles of the gitlabPipeline executors and their adoption after a restart. */
module Handles {
  import opened RepoKey
  import opened Store

  datatype RunHandle = RunHandle(executor: string, platform: string, repo: string, project: string, pipelineID: int)

  /** JSON decoding: a record, or None for corrupt data. */
  type Decode = string -> Option<RunHandle>

  /** A run to wait for; the closure's captures are its fields. */
  datatype AdoptedRun = AdoptedRun(repo: Repo, handleKey: string, pipelineID: int)

  /** Every readable handle is filed under the key of its own repo, as Run writes it. */
  ghost predicate Filed(handles: map<string, string>, decode: Decode) {
    forall k :: k in handles && decode(handles[k]).Some? ==>
                  decode(handles[k]).value.platform + ":" + decode(handles[k]).value.repo == k
  }

  predicate BelongsTo(handles: map<string, string>, decode: Decode, k: string, name: string) {
    k in handles && decode(handles[k]).Some? && decode(handles[k]).value.executor == name
  }

  function WithoutCorrupt(handles: map<string, string>, decode: Decode): map<string, string> {
    map k | k in handles && decode(handles[k]).Some? :: handles[k]
  }

  /** The run waits for the pipeline, and locks the repo, that its handle names. */
  predicate Resumes(run: AdoptedRun, handles: map<string, string>, decode: Decode) {
    run.handleKey in handles &&
    match decode(handles[run.handleKey])
    case None => false
    case Some(h) => run.pipelineID == h.pipelineID && run.repo.platform == h.platform && run.repo.fullName == h.repo
  }

  /** The list holds, once each and nothing else, the runs of the executor's handles in ks. */
  ghost predicate Adopts(runs: seq<AdoptedRun>, handles: map<string, string>, decode: Decode, name: string, ks: set<string>) {
    && (forall j :: 0 <= j < |runs| ==>
          var k := runs[j].handleKey;
          k in ks && BelongsTo(handles, decode, k, name) && Resumes(runs[j], handles, decode))
    && (forall k :: k in ks && BelongsTo(handles, decode, k, name) ==> exists j :: 0 <= j < |runs| && runs[j].handleKey == k)
    && (forall i, j :: 0 <= i < j < |runs| ==> runs[i].handleKey != runs[j].handleKey)
  }

  /** One executor: resume its own handles, delete corrupt ones, leave the rest. */
  method AdoptRunning(st: Memory, decode: Decode, name: string) returns (adopted: seq<AdoptedRun>)
    modifies st
    ensures st.repos == old(st.repos)
    ensures st.handles == WithoutCorrupt(old(st.handles), decode)
    ensures Adopts(adopted, old(st.handles), decode, name, old(st.handles).Keys)
  {
    adopted := [];
    var loaded := st.LoadRunHandles();
    var todo, done: set<string> := loaded.Keys, {};
    while todo != {}
      invariant todo + done == loaded.Keys && todo !! done
      invariant st.repos == old(st.repos)
      invariant st.handles == map k | k in loaded && (k in todo || decode(loaded[k]).Some?) :: loaded[k]
      invariant Adopts(adopted, loaded, decode, name, done)
      decreases todo
    {
      var key :| key in todo;
      todo, done := todo - {key}, done + {key};
      var h := decode(loaded[key]);
      if h.None? {
        st.DeleteRunHandle(key);
        AdoptsNoMore(adopted, loaded, decode, name, done - {key}, key);
        assert done - {key} + {key} == done;
        continue;
      }
      if h.value.executor != name {
        AdoptsNoMore(adopted, loaded, decode, name, done - {key}, key);
        assert done - {key} + {key} == done;
        continue;
      }
      var run := AdoptedRun(Repo(h.value.platform, h.value.repo), key, h.value.pipelineID);
      AdoptsMore(adopted, loaded, decode, name, done - {key}, run);
      adopted := adopted + [run];
      assert done - {key} + {key} == done;
    }
  }

  lemma AdoptsMore(
    runs: seq<AdoptedRun>, handles: map<string, string>, decode: Decode, name: string, ks: set<string>, run: AdoptedRun)
    requires Adopts(runs, handles, decode, name, ks) && run.handleKey !in ks
    requires BelongsTo(handles, decode, run.handleKey, name) && Resumes(run, handles, decode)
    ensures Adopts(runs + [run], handles, decode, name, ks + {run.handleKey})
  {
    var more := runs + [run];
    assert more[|runs|] == run;
    forall k | k in ks && BelongsTo(handles, decode, k, name)
      ensures exists j :: 0 <= j < |more| && more[j].handleKey == k
    {
      var j :| 0 <= j < |runs| && runs[j].handleKey == k;
      assert more[j].handleKey == k;
    }
  }

  lemma AdoptsNoMore(
    runs: seq<AdoptedRun>, handles: map<string, string>, decode: Decode, name: string, ks: set<string>, key: string)
    requires Adopts(runs, handles, decode, name, ks) && !BelongsTo(handles, decode, key, name)
    ensures Adopts(runs, handles, decode, name, ks + {key})
  {
  }

  /** A corrupt handle, once deleted, changes nothing for any later executor. */
  lemma AdoptsWithoutCorrupt(runs: seq<AdoptedRun>, handles: map<string, string>, decode: Decode, name: string)
    ensures var rest := WithoutCorrupt(handles, decode);
            Adopts(runs, rest, decode, name, rest.Keys) <==> Adopts(runs, handles, decode, name, handles.Keys)
  {
    var rest := WithoutCorrupt(handles, decode);
    forall k ensures BelongsTo(rest, decode, k, name) <==> BelongsTo(handles, decode, k, name) {
    }
    forall run: AdoptedRun | BelongsTo(handles, decode, run.handleKey, name)
      ensures Resumes(run, rest, decode) <==> Resumes(run, handles, decode)
    {
    }
  }

  /** The adopted runs of all executors, by executor name. */
  ghost predicate Partition(all: map<string, seq<AdoptedRun>>, handles: map<string, string>, decode: Decode) {
    forall name :: name in all ==> Adopts(all[name], handles, decode, name, handles.Keys)
  }

  /** All executors in turn, as the startup loop visits them. */
  method AdoptAll(st: Memory, decode: Decode, names: set<string>) returns (all: map<string, seq<AdoptedRun>>)
    modifies st
    ensures st.repos == old(st.repos)
    ensures st.handles == if names == {} then old(st.handles) else WithoutCorrupt(old(st.handles), decode)
    ensures all.Keys == names && Partition(all, old(st.handles), decode)
  {
    all := map[];
    ghost var handles := st.handles;
    ghost var rest := WithoutCorrupt(handles, decode);
    var todo := names;
    while todo != {}
      invariant todo <= names && all.Keys == names - todo
      invariant st.repos == old(st.repos)
      invariant st.handles == if todo == names then handles else rest
      invariant Partition(all, handles, decode)
      decreases todo
    {
      var name :| name in todo;
      assert WithoutCorrupt(rest, decode) == rest;
      assert st.handles == rest || st.handles == handles;
      var runs := AdoptRunning(st, decode, name);
      AdoptsWithoutCorrupt(runs, handles, decode, name);
      all := all[name := runs];
      todo := todo - {name};
    }
  }

  /** Handles filed by Run: no two adopted runs, of one executor or of two,
      concern the same repo, and together they are exactly the readable handles
      that name a configured executor. */
  lemma AdoptionPartitions(all: map<string, seq<AdoptedRun>>, handles: map<string, string>, decode: Decode)
    requires Partition(all, handles, decode) && Filed(handles, decode)
    ensures forall m, n, i, j :: m in all && n in all && 0 <= i < |all[m]| && 0 <= j < |all[n]| && (m, i) != (n, j) ==>
                                   all[m][i].repo.Key() != all[n][j].repo.Key()
    ensures forall k :: k in handles && decode(handles[k]).Some? ==>
                          (decode(handles[k]).value.executor in all <==>
                           exists n, j :: n in all && 0 <= j < |all[n]| && all[n][j].repo.Key() == k)
  {
  }

  /** A handle that is read back after a restart: its executor, and no other,
      adopts exactly one run for it, of the same repo and the same pipeline. */
  lemma SavedIsResumed(
    all: map<string, seq<AdoptedRun>>, handles: map<string, string>, decode: Decode, h: RunHandle, key: string)
    requires Partition(all, handles, decode) && Filed(handles, decode)
    requires key in handles && decode(handles[key]) == Some(h) && h.executor in all
    ensures exists j :: 0 <= j < |all[h.executor]| && all[h.executor][j] == AdoptedRun(Repo(h.platform, h.repo), key, h.pipelineID)
    ensures forall n, j :: n in all && 0 <= j < |all[n]| && all[n][j].repo.Key() == key ==>
                             n == h.executor && all[n][j] == AdoptedRun(Repo(h.platform, h.repo), key, h.pipelineID)
  {
    var runs := all[h.executor];
    assert Adopts(runs, handles, decode, h.executor, handles.Keys) && BelongsTo(handles, decode, key, h.executor);
    var j :| 0 <= j < |runs| && runs[j].handleKey == key;
    assert Resumes(runs[j], handles, decode);
    forall n, i | n in all && 0 <= i < |all[n]| && all[n][i].repo.Key() == key
      ensures n == h.executor && all[n][i] == AdoptedRun(Repo(h.platform, h.repo), key, h.pipelineID)
    {
      var run := all[n][i];
      assert Adopts(all[n], handles, decode, n, handles.Keys) && Resumes(run, handles, decode);
      assert run.handleKey == run.repo.Key();
    }
  }
}
