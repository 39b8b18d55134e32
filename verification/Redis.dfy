/** The Redis store: the Lua scripts as they act on string-field hashes under
    prefixed keys, and the proof that they implement the store contract. */
module Redis {
  import opened Store
  import opened Protocol
  import Expiry

  datatype Field = FState | FReason | FSince | FRerun

  datatype Value = Hash(fields: map<Field, string>) | Text(data: string)

  // ----- keys -----

  function RepoDbKey(prefix: string, k: string): string {
    prefix + "repo:" + k
  }

  function HandleDbKey(prefix: string, k: string): string {
    prefix + "handle:" + k
  }

  datatype Tag = RepoTag(key: string) | HandleTag(key: string) | Foreign

  /** strings.TrimPrefix after a scan for the prefix: what a database key is about. */
  function TagOf(prefix: string, x: string): Tag {
    if prefix + "repo:" <= x then RepoTag(x[|prefix| + 5..])
    else if prefix + "handle:" <= x then HandleTag(x[|prefix| + 7..])
    else Foreign
  }

  /** Repo and handle keys never meet, and each gives its repo key back. */
  lemma TagRoundTrip(prefix: string, k: string)
    ensures TagOf(prefix, RepoDbKey(prefix, k)) == RepoTag(k)
    ensures TagOf(prefix, HandleDbKey(prefix, k)) == HandleTag(k)
  {
    var n := |prefix|;
    var x, y := RepoDbKey(prefix, k), HandleDbKey(prefix, k);
    assert x[..n + 5] == prefix + "repo:" && x[n + 5..] == k;
    assert y[..n + 7] == prefix + "handle:" && y[n + 7..] == k;
    assert y[n] == 'h' && (prefix + "repo:")[n] == 'r';
  }

  lemma TagIsKey(prefix: string, x: string)
    ensures TagOf(prefix, x).RepoTag? ==> x == RepoDbKey(prefix, TagOf(prefix, x).key)
    ensures TagOf(prefix, x).HandleTag? ==> x == HandleDbKey(prefix, TagOf(prefix, x).key)
  {
  }

  /** The keys of a store, taken abstractly: what they are about tells them apart. */
  datatype Names = Names(repo: string -> string, handle: string -> string, tag: string -> Tag)

  predicate Told(names: Names, k: string) {
    names.tag(names.repo(k)) == RepoTag(k) && names.tag(names.handle(k)) == HandleTag(k)
  }

  predicate Read(names: Names, x: string) {
    match names.tag(x)
    case RepoTag(k) => x == names.repo(k)
    case HandleTag(k) => x == names.handle(k)
    case Foreign => true
  }

  ghost predicate Distinct(names: Names) {
    (forall k :: Told(names, k)) && (forall x :: Read(names, x))
  }

  function KeyNames(prefix: string): Names {
    Names(k => RepoDbKey(prefix, k), k => HandleDbKey(prefix, k), x => TagOf(prefix, x))
  }

  /** Prefixed keys are told apart. */
  lemma KeyNamesDistinct(prefix: string)
    ensures Distinct(KeyNames(prefix))
  {
    var names := KeyNames(prefix);
    forall k ensures Told(names, k) {
      TagRoundTrip(prefix, k);
    }
    forall x ensures Read(names, x) {
      TagIsKey(prefix, x);
    }
  }

  // ----- what a database stands for -----

  /** How the fields of an entry are written; times as text. */
  function Fields(rs: RepoState, format: nat -> string): map<Field, string> {
    map[FState := if rs.state.StateRunning? then "running" else "queued",
        FReason := rs.reason,
        FSince := format(rs.since),
        FRerun := if rs.pendingRerun then "1" else ""]
  }

  lemma FieldsFlagged(rs: RepoState, format: nat -> string)
    ensures Fields(rs, format) + map[FRerun := "1"] == Fields(rs.(pendingRerun := true), format)
  {
  }

  lemma FieldsStarted(rs: RepoState, format: nat -> string, now: nat)
    ensures Fields(rs, format) + map[FState := "running", FSince := format(now)]
         == Fields(rs.(state := StateRunning, since := now), format)
  {
  }

  /** A database with its expiry times, and what it stands for. */
  datatype Image = Image(
    db: map<string, Value>, expires: map<string, nat>,
    repos: Repos, handles: map<string, string>, leases: Leases)

  /** Entry, handle and lease of one key are stored as they should be. */
  predicate Stored(v: Image, names: Names, format: nat -> string, k: string) {
    var x, y := names.repo(k), names.handle(k);
    && (k in v.repos <==> x in v.db)
    && (k in v.repos ==> v.db[x] == Hash(Fields(v.repos[k], format)))
    && (k in v.handles <==> y in v.db)
    && (k in v.handles ==> v.db[y] == Text(v.handles[k]))
    && (k in v.leases <==> k in v.repos)
    && (k in v.leases ==> x in v.expires && v.expires[x] == v.leases[k])
  }

  ghost predicate Represents(v: Image, names: Names, format: nat -> string) {
    forall k :: Stored(v, names, format, k)
  }

  lemma PutRepo(v: Image, w: Image, names: Names, format: nat -> string, k: string, rs: RepoState, until: nat)
    requires Distinct(names) && Represents(v, names, format) && w.handles == v.handles
    requires w.db == v.db[names.repo(k) := Hash(Fields(rs, format))] && w.repos == v.repos[k := rs]
    requires w.expires == v.expires[names.repo(k) := until] && w.leases == v.leases[k := until]
    ensures Represents(w, names, format)
  {
    forall j ensures Stored(w, names, format, j) {
      assert Stored(v, names, format, j) && Told(names, j) && Told(names, k);
    }
  }

  lemma DropRepo(v: Image, w: Image, names: Names, format: nat -> string, k: string)
    requires Distinct(names) && Represents(v, names, format) && w.handles == v.handles
    requires w.db == v.db - {names.repo(k)} && w.repos == v.repos - {k}
    requires w.expires == v.expires - {names.repo(k)} && w.leases == v.leases - {k}
    ensures Represents(w, names, format)
  {
    forall j ensures Stored(w, names, format, j) {
      assert Stored(v, names, format, j) && Told(names, j) && Told(names, k);
    }
  }

  lemma PutHandle(v: Image, w: Image, names: Names, format: nat -> string, k: string, data: string, until: nat)
    requires Distinct(names) && Represents(v, names, format) && w.repos == v.repos && w.leases == v.leases
    requires w.db == v.db[names.handle(k) := Text(data)] && w.handles == v.handles[k := data]
    requires w.expires == v.expires[names.handle(k) := until]
    ensures Represents(w, names, format)
  {
    forall j ensures Stored(w, names, format, j) {
      assert Stored(v, names, format, j) && Told(names, j) && Told(names, k);
    }
  }

  lemma DropHandle(v: Image, w: Image, names: Names, format: nat -> string, k: string)
    requires Distinct(names) && Represents(v, names, format) && w.repos == v.repos && w.leases == v.leases
    requires w.db == v.db - {names.handle(k)} && w.handles == v.handles - {k}
    requires w.expires == v.expires - {names.handle(k)}
    ensures Represents(w, names, format)
  {
    forall j ensures Stored(w, names, format, j) {
      assert Stored(v, names, format, j) && Told(names, j) && Told(names, k);
    }
  }

  lemma EmptyLeases(v: Image, names: Names, format: nat -> string)
    requires Represents(v, names, format) && v.repos == map[]
    ensures v.leases == map[]
  {
    forall k ensures k !in v.leases {
      assert Stored(v, names, format, k);
    }
  }

  class RedisStore {
    const names: Names
    const ttl: nat
    const format: nat -> string   // time.RFC3339Nano
    const parse: string -> nat
    var db: map<string, Value>
    var expires: map<string, nat>

    // what the database stands for
    ghost var repos: Repos
    ghost var handles: map<string, string>
    ghost var leases: Leases

    ghost function View(): Image
      reads this
    {
      Image(db, expires, repos, handles, leases)
    }

    ghost predicate Valid()
      reads this
    {
      && (forall t :: parse(format(t)) == t)
      && (ttl < Expiry.SECOND ==> repos == map[])
      && Distinct(names) && Represents(View(), names, format)
    }

    constructor (prefix: string, ttl: nat, format: nat -> string, parse: string -> nat)
      requires forall t :: parse(format(t)) == t
      ensures Valid() && names == KeyNames(prefix) && repos == map[] && handles == map[] && leases == map[]
      ensures forall k :: names.repo(k) == prefix + "repo:" + k && names.handle(k) == prefix + "handle:" + k
      ensures this.ttl == ttl
    {
      KeyNamesDistinct(prefix);
      this.names, this.ttl, this.format, this.parse := KeyNames(prefix), ttl, format, parse;
      db, expires := map[], map[];
      repos, handles, leases := map[], map[], map[];
    }

    function Until(now: nat): nat {
      now + Expiry.WholeSeconds(ttl)
    }

    /** What is left once a script has set its lease: everything, or nothing if
        the TTL has no whole second in it. */
    function Lasting<V>(m: map<string, V>): map<string, V> {
      if ttl >= Expiry.SECOND then m else map[]
    }

    // ----- commands -----

    method HSet(x: string, fields: map<Field, string>)
      requires x in db ==> db[x].Hash?
      modifies `db
      ensures x in old(db) ==> db == old(db)[x := Hash(old(db)[x].fields + fields)]
      ensures x !in old(db) ==> db == old(db)[x := Hash(fields)]
    {
      if x in db {
        db := db[x := Hash(db[x].fields + fields)];
      } else {
        db := db[x := Hash(fields)];
      }
    }

    /** A lease of no seconds deletes the key; a missing key is left alone. */
    method Expire(x: string, now: nat)
      modifies `db, `expires
      ensures x in old(db) && Until(now) > now ==> db == old(db) && expires == old(expires)[x := Until(now)]
      ensures x in old(db) && Until(now) <= now ==> db == old(db) - {x} && expires == old(expires) - {x}
      ensures x !in old(db) ==> db == old(db) && expires == old(expires)
    {
      if x in db {
        if Until(now) <= now {
          db, expires := db - {x}, expires - {x};
        } else {
          expires := expires[x := Until(now)];
        }
      }
    }

    method Del(x: string)
      modifies `db, `expires
      ensures db == old(db) - {x} && expires == old(expires) - {x}
    {
      db, expires := db - {x}, expires - {x};
    }

    // ----- scripts -----

    method QueueScript(key: string, reason: string, now: nat) returns (res: int)
      requires Valid()
      modifies this
      ensures Valid()
      ensures repos == Lasting(QueueRepo(old(repos), key, reason, now).0)
      ensures res == match QueueRepo(old(repos), key, reason, now).1 case Queued => 0 case Coalesced => 1 case Deferred => 2
      ensures handles == old(handles)
      ensures leases == Lasting(QueueLease(old(leases), key, Until(now)))
      ensures ttl >= Expiry.SECOND ==> key in leases && leases[key] == now + ttl / 1_000_000_000 * 1_000_000_000
    {
      ghost var v := View();
      assert Stored(v, names, format, key);
      var x := names.repo(key);
      ghost var rs := RepoState(StateQueued, reason, now, false);
      if x !in db {
        HSet(x, map[FState := "queued", FReason := reason, FSince := format(now), FRerun := ""]);
        Expire(x, now);
        res := 0;
      } else {
        rs := repos[key];
        var state := db[x].fields[FState];
        Expire(x, now);
        if state == "running" {
          FieldsFlagged(rs, format);
          rs := rs.(pendingRerun := true);
          HSet(x, map[FRerun := "1"]);
          res := 2;
        } else {
          res := 1;
        }
      }
      Settle(v, key, rs, now);
    }

    /** The entry has been written with its lease. */
    ghost method Settle(v: Image, key: string, rs: RepoState, now: nat)
      requires (forall t :: parse(format(t)) == t) && Distinct(names) && Represents(v, names, format)
      requires v.repos == repos && v.handles == handles && v.leases == leases
      requires ttl < Expiry.SECOND ==> repos == map[]
      requires var x := names.repo(key);
               if ttl >= Expiry.SECOND
               then db == v.db[x := Hash(Fields(rs, format))] && expires == v.expires[x := Until(now)]
               else db == v.db - {x} && expires == v.expires - {x}
      modifies `repos, `leases
      ensures Valid() && repos == Lasting(old(repos)[key := rs]) && leases == Lasting(old(leases)[key := Until(now)])
    {
      if ttl >= Expiry.SECOND {
        repos, leases := repos[key := rs], leases[key := Until(now)];
        PutRepo(v, View(), names, format, key, rs, Until(now));
      } else {
        EmptyLeases(v, names, format);
        DropRepo(v, View(), names, format, key);
      }
    }

    method StartRunScript(key: string, now: nat)
      requires Valid()
      modifies this
      ensures Valid()
      ensures repos == Lasting(StartRepo(old(repos), key, now)) && handles == old(handles)
      ensures leases == Lasting(StartLease(old(leases), key, Until(now)))
      ensures ttl >= Expiry.SECOND && key in old(repos) ==>
                key in leases && leases[key] == now + ttl / 1_000_000_000 * 1_000_000_000
      ensures key !in old(repos) ==> leases == old(leases)
    {
      ghost var v := View();
      assert Stored(v, names, format, key);
      var x := names.repo(key);
      if x in db {
        FieldsStarted(repos[key], format, now);
        HSet(x, map[FState := "running", FSince := format(now)]);
        Expire(x, now);
        Settle(v, key, repos[key].(state := StateRunning, since := now), now);
      } else if ttl < Expiry.SECOND {
        EmptyLeases(v, names, format);
      }
    }

    method FinishRunScript(key: string) returns (res: int)
      requires Valid()
      modifies this
      ensures Valid()
      ensures repos == FinishRepo(old(repos), key).0 && handles == old(handles)
      ensures res == if FinishRepo(old(repos), key).1 then 1 else 0
      ensures leases == FinishLease(old(leases), key) && key !in leases
    {
      ghost var v := View();
      assert Stored(v, names, format, key);
      var x := names.repo(key);
      var flagged := x in db && db[x].fields[FRerun] == "1";
      Del(x);
      res := if flagged then 1 else 0;
      repos := repos - {key};
      leases := leases - {key};
      DropRepo(v, View(), names, format, key);
    }

    method AdoptScript(key: string, reason: string, now: nat)
      requires Valid()
      modifies this
      ensures Valid()
      ensures repos == Lasting(AdoptRepo(old(repos), key, reason, now)) && handles == old(handles)
      ensures leases == Lasting(AdoptLease(old(leases), key, Until(now)))
      ensures ttl >= Expiry.SECOND ==> key in leases && leases[key] == now + ttl / 1_000_000_000 * 1_000_000_000
    {
      ghost var v := View();
      assert Stored(v, names, format, key);
      var x := names.repo(key);
      ghost var rs := if key in repos then repos[key] else RepoState(StateRunning, reason, now, false);
      if x !in db {
        HSet(x, map[FState := "running", FReason := reason, FSince := format(now), FRerun := ""]);
      }
      Expire(x, now);
      Settle(v, key, rs, now);
    }

    // ----- operations; an error means the request or the reply was lost -----

    method Queue(key: string, reason: string, now: nat, fault: Fault) returns (r: QueueResult)
      requires Valid()
      modifies this
      ensures Valid()
      ensures repos == Lasting(QueueUnder(fault, old(repos), key, reason, now).0) && handles == old(handles)
      ensures r == QueueUnder(fault, old(repos), key, reason, now).1 && (fault != NoFault ==> r == Coalesced)
      ensures leases == if fault.LostRequest? then old(leases) else Lasting(QueueLease(old(leases), key, Until(now)))
      ensures ttl >= Expiry.SECOND && !fault.LostRequest? ==>
                key in leases && leases[key] == now + ttl / 1_000_000_000 * 1_000_000_000
    {
      if fault.LostRequest? {
        return Coalesced;
      }
      var res := QueueScript(key, reason, now);
      if fault.LostReply? {
        return Coalesced;
      }
      return if res == 0 then Queued else if res == 2 then Deferred else Coalesced;
    }

    method StartRun(key: string, now: nat, fault: Fault)
      requires Valid()
      modifies this
      ensures Valid()
      ensures repos == Lasting(StartUnder(fault, old(repos), key, now)) && handles == old(handles)
      ensures leases == if fault.LostRequest? then old(leases) else Lasting(StartLease(old(leases), key, Until(now)))
    {
      if !fault.LostRequest? {
        StartRunScript(key, now);
      }
    }

    method FinishRun(key: string, fault: Fault) returns (rerun: bool)
      requires Valid()
      modifies this
      ensures Valid()
      ensures (repos, rerun) == FinishUnder(fault, old(repos), key) && handles == old(handles)
      ensures fault != NoFault ==> !rerun
      ensures fault != LostRequest ==> key !in repos
      ensures leases == if fault.LostRequest? then old(leases) else FinishLease(old(leases), key)
    {
      if fault.LostRequest? {
        return false;
      }
      var res := FinishRunScript(key);
      if fault.LostReply? {
        return false;
      }
      return res == 1;
    }

    method Adopt(key: string, reason: string, now: nat, fault: Fault)
      requires Valid()
      modifies this
      ensures Valid()
      ensures repos == Lasting(AdoptUnder(fault, old(repos), key, reason, now)) && handles == old(handles)
      ensures leases == if fault.LostRequest? then old(leases) else Lasting(AdoptLease(old(leases), key, Until(now)))
    {
      if !fault.LostRequest? {
        AdoptScript(key, reason, now);
      }
    }

    method SaveRunHandle(key: string, data: string, now: nat, fault: Fault)
      requires Valid()
      modifies this
      ensures Valid() && repos == old(repos) && leases == old(leases)
      ensures handles == if fault.LostRequest? then old(handles) else old(handles)[key := data]
      ensures !fault.LostRequest? ==> names.handle(key) in expires && expires[names.handle(key)] == now + ttl
    {
      if fault.LostRequest? {
        return;
      }
      ghost var v := View();
      var x := names.handle(key);
      db, expires := db[x := Text(data)], expires[x := now + ttl];
      handles := handles[key := data];
      PutHandle(v, View(), names, format, key, data, now + ttl);
    }

    method DeleteRunHandle(key: string, fault: Fault)
      requires Valid()
      modifies this
      ensures Valid() && repos == old(repos) && leases == old(leases)
      ensures handles == if fault.LostRequest? then old(handles) else old(handles) - {key}
    {
      if fault.LostRequest? {
        return;
      }
      ghost var v := View();
      Del(names.handle(key));
      handles := handles - {key};
      DropHandle(v, View(), names, format, key);
    }

    /** Scans the repo keys and reads the entries back. */
    method Snapshot() returns (out: Repos)
      requires Valid()
      ensures out == repos
    {
      out := map[];
      var todo := set x | x in db && names.tag(x).RepoTag?;
      forall k | k in repos ensures names.repo(k) in todo {
        assert Stored(View(), names, format, k) && Told(names, k);
      }
      while todo != {}
        invariant forall x :: x in todo ==> x in db && names.tag(x).RepoTag?
        invariant forall k :: k in repos ==> names.repo(k) in todo || k in out
        invariant forall k :: k in out ==> k in repos && out[k] == repos[k]
        decreases todo
      {
        var x :| x in todo;
        todo := todo - {x};
        var k := names.tag(x).key;
        assert Read(names, x) && Stored(View(), names, format, k);
        var fields := db[x].fields;
        out := out[k := RepoState(if fields[FState] == "running" then StateRunning else StateQueued,
                                  fields[FReason], parse(fields[FSince]), fields[FRerun] == "1")];
        forall j | j in repos && names.repo(j) == x ensures j == k {
          assert Told(names, j);
        }
      }
      assert forall k :: k in repos ==> names.repo(k) !in todo;
    }

    method LoadRunHandles() returns (out: map<string, string>)
      requires Valid()
      ensures out == handles
    {
      out := map[];
      var todo := set x | x in db && names.tag(x).HandleTag?;
      forall k | k in handles ensures names.handle(k) in todo {
        assert Stored(View(), names, format, k) && Told(names, k);
      }
      while todo != {}
        invariant forall x :: x in todo ==> x in db && names.tag(x).HandleTag?
        invariant forall k :: k in handles ==> names.handle(k) in todo || k in out
        invariant forall k :: k in out ==> k in handles && out[k] == handles[k]
        decreases todo
      {
        var x :| x in todo;
        todo := todo - {x};
        assert Read(names, x) && Stored(View(), names, format, names.tag(x).key);
        out := out[names.tag(x).key := db[x].data];
        forall j | j in handles && names.handle(j) == x ensures j == names.tag(x).key {
          assert Told(names, j);
        }
      }
      assert forall k :: k in handles ==> names.handle(k) !in todo;
    }
  }

  // ----- both stores, call by call -----

  datatype Op =
    | OpQueue(key: string, reason: string, now: nat)
    | OpStart(key: string, now: nat)
    | OpFinish(key: string)
    | OpAdopt(key: string, reason: string, now: nat)
    | OpSave(key: string, data: string, now: nat)
    | OpDelete(key: string)
    | OpSnapshot
    | OpLoad

  datatype Reply = Done | Answer(result: QueueResult) | Rerun(flag: bool) | Shot(repos: Repos) | Loaded(handles: map<string, string>)

  /** The store contract: the state after an operation and its reply. */
  function Contract(op: Op, repos: Repos, handles: map<string, string>): (Repos, map<string, string>, Reply) {
    match op
    case OpQueue(key, reason, now) =>
      var (after, result) := QueueRepo(repos, key, reason, now);
      (after, handles, Answer(result))
    case OpStart(key, now) => (StartRepo(repos, key, now), handles, Done)
    case OpFinish(key) =>
      var (after, flag) := FinishRepo(repos, key);
      (after, handles, Rerun(flag))
    case OpAdopt(key, reason, now) => (AdoptRepo(repos, key, reason, now), handles, Done)
    case OpSave(key, data, _) => (repos, handles[key := data], Done)
    case OpDelete(key) => (repos, handles - {key}, Done)
    case OpSnapshot => (repos, handles, Shot(repos))
    case OpLoad => (repos, handles, Loaded(handles))
  }

  function Replies(ops: seq<Op>, repos: Repos, handles: map<string, string>): seq<Reply>
    decreases |ops|
  {
    if ops == [] then [] else
    var (repos1, handles1, reply) := Contract(ops[0], repos, handles);
    [reply] + Replies(ops[1..], repos1, handles1)
  }

  method OnMemory(m: Memory, op: Op) returns (reply: Reply)
    modifies m
    ensures (m.repos, m.handles, reply) == Contract(op, old(m.repos), old(m.handles))
  {
    match op {
      case OpQueue(key, reason, now) => var result := m.Queue(key, reason, now); reply := Answer(result);
      case OpStart(key, now) => m.StartRun(key, now); reply := Done;
      case OpFinish(key) => var flag := m.FinishRun(key); reply := Rerun(flag);
      case OpAdopt(key, reason, now) => m.Adopt(key, reason, now); reply := Done;
      case OpSave(key, data, _) => m.SaveRunHandle(key, data); reply := Done;
      case OpDelete(key) => m.DeleteRunHandle(key); reply := Done;
      case OpSnapshot => var shot := m.Snapshot(); reply := Shot(shot);
      case OpLoad => var loaded := m.LoadRunHandles(); reply := Loaded(loaded);
    }
  }

  method OnRedis(r: RedisStore, op: Op) returns (reply: Reply)
    requires r.Valid() && r.ttl >= Expiry.SECOND
    modifies r
    ensures r.Valid() && (r.repos, r.handles, reply) == Contract(op, old(r.repos), old(r.handles))
  {
    match op {
      case OpQueue(key, reason, now) => var result := r.Queue(key, reason, now, NoFault); reply := Answer(result);
      case OpStart(key, now) => r.StartRun(key, now, NoFault); reply := Done;
      case OpFinish(key) => var flag := r.FinishRun(key, NoFault); reply := Rerun(flag);
      case OpAdopt(key, reason, now) => r.Adopt(key, reason, now, NoFault); reply := Done;
      case OpSave(key, data, now) => r.SaveRunHandle(key, data, now, NoFault); reply := Done;
      case OpDelete(key) => r.DeleteRunHandle(key, NoFault); reply := Done;
      case OpSnapshot => var shot := r.Snapshot(); reply := Shot(shot);
      case OpLoad => var loaded := r.LoadRunHandles(); reply := Loaded(loaded);
    }
  }

  /** With a lease of at least one second, without faults and expiry, the two
      stores cannot be told apart: for every sequence of operations they give the same replies, snapshots and handle
      listings included, namely those of the contract. */
  method RedisRefinesMemory(ops: seq<Op>, m: Memory, r: RedisStore) returns (fromMemory: seq<Reply>, fromRedis: seq<Reply>)
    requires r.Valid() && r.ttl >= Expiry.SECOND && m.repos == r.repos && m.handles == r.handles
    modifies m, r
    ensures fromMemory == fromRedis == Replies(ops, old(m.repos), old(m.handles))
    ensures r.Valid() && m.repos == r.repos && m.handles == r.handles
  {
    fromMemory, fromRedis := [], [];
    for n := 0 to |ops|
      invariant r.Valid() && m.repos == r.repos && m.handles == r.handles
      invariant fromMemory == fromRedis
      invariant fromRedis + Replies(ops[n..], r.repos, r.handles) == Replies(ops, old(m.repos), old(m.handles))
    {
      var a := OnMemory(m, ops[n]);
      var b := OnRedis(r, ops[n]);
      fromMemory, fromRedis := fromMemory + [a], fromRedis + [b];
      assert ops[n..][1..] == ops[n + 1..];
    }
    assert ops[|ops|..] == [];
  }
}
