/** The background service: selecting the users due for a sync, one pass
    over them (`_sync_all_users`), and starting and stopping the scheduler
    that runs that pass. */
module Fleet {
  import opened Base
  import opened Models
  import opened Sync

  /** A sync older than an hour is stale. */
  const StaleAfterSeconds: int := 3600

  predicate NeverSynced(u: User) {
    u.lastSync.None?
  }

  /** The user's last sync is strictly before `cutoff` (SQL `last_sync < cutoff`,
      which is never true of a NULL). */
  predicate SyncedBefore(u: User, cutoff: Timestamp) {
    u.lastSync.Some? && u.lastSync.value < cutoff
  }

  /** The users a pass at `now` syncs: those never synced, and those whose
      last sync is more than an hour old. */
  function DueUsers(users: map<int, User>, now: Timestamp): (due: set<int>)
    ensures due <= users.Keys
    ensures forall id :: id in users && users[id].lastSync == None ==> id in due
    ensures forall id :: id in users && users[id].lastSync.Some? ==>
      (id in due <==> users[id].lastSync.value + StaleAfterSeconds < now)
  {
    (set id | id in users && NeverSynced(users[id]))
      + (set id | id in users && SyncedBefore(users[id], now - StaleAfterSeconds))
  }

  /** The selection as the source writes it: `User.last_sync is None` is a
      Python identity test on the column object, which is False, so the first
      query selects no rows and only stale users remain. */
  function DueUsersAsWritten(users: map<int, User>, now: Timestamp): (due: set<int>)
    ensures due <= DueUsers(users, now)
    ensures forall id :: id in due ==> users[id].lastSync.Some?
    ensures forall id :: id in users && users[id].lastSync.Some? ==> (id in due <==> id in DueUsers(users, now))
  {
    var neverSynced: set<int> := {};
    neverSynced + (set id | id in users && SyncedBefore(users[id], now - StaleAfterSeconds))
  }

  /** A user who has never synced is never selected by the selection as
      written, at any time, while the intended selection always takes them. */
  lemma NeverSyncedUserNeverDue(users: map<int, User>, id: int, now: Timestamp)
    requires id in users && NeverSynced(users[id])
    ensures id !in DueUsersAsWritten(users, now)
    ensures id in DueUsers(users, now)
  {
  }

  /** A freshly registered user: the background pass as written never picks
      them up, the intended pass does at once. */
  lemma FreshUserIsMissed(now: Timestamp)
    ensures var users := map[1 := NewUser("wk-key", "mcp-key", "koichi", 1, now)];
      DueUsersAsWritten(users, now) == {} && DueUsers(users, now) == {1}
  {
    var users := map[1 := NewUser("wk-key", "mcp-key", "koichi", 1, now)];
    NeverSyncedUserNeverDue(users, 1, now);
    assert DueUsersAsWritten(users, now) <= {1};
  }

  /** A successful attempt moves the user out of the selection for the next hour. */
  lemma SyncedUserRestsAnHour(store: Store, uid: int, window: Option<Timestamp>, up: Upstream, env: Env,
                               later: Timestamp)
    requires later <= env.now + StaleAfterSeconds
    requires uid in store.tables.users
    ensures var a := SyncUser(store, uid, window, up, env);
      a.outcome.Ok? ==> uid !in DueUsers(a.store.tables.users, later)
  {
  }

  // ---------------------------------------------------------------- one pass

  datatype FleetRun = FleetRun(store: Store, attempts: seq<Attempt>)

  /** What one user's task does to the store. */
  type Attempter = (Store, int) -> Attempt

  /** The attempts of one pass, one user after another. A user's failure is
      caught and logged by the per-user wrapper coroutine: it never stops the pass. */
  function Pass(store: Store, order: seq<int>, attempt: Attempter): FleetRun
    decreases |order|
  {
    if order == [] then FleetRun(store, [])
    else
      var a := attempt(store, order[0]);
      var rest := Pass(a.store, order[1..], attempt);
      FleetRun(rest.store, [a] + rest.attempts)
  }

  /** The `last_sync` the selection read for user `u`. */
  function Window(users: map<int, User>, u: int): Option<Timestamp> {
    if u in users then users[u].lastSync else None
  }

  /** `sync_user_with_semaphore` in a pass whose selection read `users`. */
  function UserTask(users: map<int, User>, upstream: int -> Upstream, env: Env): Attempter {
    (st: Store, u: int) => SyncUser(st, u, Window(users, u), upstream(u), env)
  }

  /** Each attempt appends exactly one log, the user's own, and closes it. */
  ghost predicate AppendsOwnLog(attempt: Attempter) {
    forall st: Store, u: int ::
      && |attempt(st, u).store.syncLogs| == |st.syncLogs| + 1
      && attempt(st, u).store.syncLogs[..|st.syncLogs|] == st.syncLogs
      && attempt(st, u).store.syncLogs[|st.syncLogs|].userId == u
      && Terminal(attempt(st, u).store.syncLogs[|st.syncLogs|])
  }

  /** Each attempt keeps the set of users and every other user's row. */
  ghost predicate TouchesOwnUser(attempt: Attempter) {
    forall st: Store, u: int ::
      && attempt(st, u).store.tables.users.Keys == st.tables.users.Keys
      && (forall v :: v in st.tables.users && v != u ==> attempt(st, u).store.tables.users[v] == st.tables.users[v])
  }

  lemma OwnLog(attempt: Attempter, st: Store, u: int)
    requires AppendsOwnLog(attempt)
    ensures var a := attempt(st, u);
      && |a.store.syncLogs| == |st.syncLogs| + 1
      && a.store.syncLogs[..|st.syncLogs|] == st.syncLogs
      && a.store.syncLogs[|st.syncLogs|].userId == u
      && Terminal(a.store.syncLogs[|st.syncLogs|])
  {
  }

  lemma OwnUser(attempt: Attempter, st: Store, u: int)
    requires TouchesOwnUser(attempt)
    ensures var a := attempt(st, u);
      && a.store.tables.users.Keys == st.tables.users.Keys
      && forall v :: v in st.tables.users && v != u ==> a.store.tables.users[v] == st.tables.users[v]
  {
  }

  lemma UserTaskBehaves(users: map<int, User>, upstream: int -> Upstream, env: Env)
    ensures AppendsOwnLog(UserTask(users, upstream, env))
    ensures TouchesOwnUser(UserTask(users, upstream, env))
  {
    var task := UserTask(users, upstream, env);
    forall st: Store, u: int
      ensures |task(st, u).store.syncLogs| == |st.syncLogs| + 1
      ensures task(st, u).store.syncLogs[..|st.syncLogs|] == st.syncLogs
      ensures task(st, u).store.syncLogs[|st.syncLogs|].userId == u
      ensures Terminal(task(st, u).store.syncLogs[|st.syncLogs|])
      ensures task(st, u).store.tables.users.Keys == st.tables.users.Keys
      ensures forall v :: v in st.tables.users && v != u ==> task(st, u).store.tables.users[v] == st.tables.users[v]
    {
      var a := SyncUser(st, u, Window(users, u), upstream(u), env);
      assert task(st, u) == a;
    }
  }

  /** A pass appends one log per user synced, after the logs already there. */
  lemma {:induction false} PassAppendsLogs(store: Store, order: seq<int>, attempt: Attempter)
    requires AppendsOwnLog(attempt)
    ensures var r := Pass(store, order, attempt);
      && |r.attempts| == |order|
      && |r.store.syncLogs| == |store.syncLogs| + |order|
      && r.store.syncLogs[..|store.syncLogs|] == store.syncLogs
    decreases |order|
  {
    if order != [] {
      var n := |store.syncLogs|;
      var a := attempt(store, order[0]);
      OwnLog(attempt, store, order[0]);
      PassAppendsLogs(a.store, order[1..], attempt);
      var rest := Pass(a.store, order[1..], attempt);
      assert rest.store.syncLogs[..n] == rest.store.syncLogs[..n + 1][..n];
    }
  }

  /** The owners of a run of logs, in order. */
  function Owners(logs: seq<SyncLog>): seq<int> {
    if logs == [] then [] else [logs[0].userId] + Owners(logs[1..])
  }

  predicate AllClosed(logs: seq<SyncLog>) {
    forall i :: 0 <= i < |logs| ==> Terminal(logs[i])
  }

  /** The logs a pass appends belong to the synced users, one each and in
      the order they were synced, and every one of them is closed. */
  lemma {:induction false} PassLogsEachUser(store: Store, order: seq<int>, attempt: Attempter)
    requires AppendsOwnLog(attempt)
    ensures |Pass(store, order, attempt).store.syncLogs| == |store.syncLogs| + |order|
    ensures var added := Pass(store, order, attempt).store.syncLogs[|store.syncLogs|..];
      Owners(added) == order && AllClosed(added)
    decreases |order|
  {
    var n := |store.syncLogs|;
    var r := Pass(store, order, attempt);
    PassAppendsLogs(store, order, attempt);
    if order == [] {
      assert r.store.syncLogs[n..] == [];
    } else {
      var a := attempt(store, order[0]);
      var rest := Pass(a.store, order[1..], attempt);
      OwnLog(attempt, store, order[0]);
      PassAppendsLogs(a.store, order[1..], attempt);
      PassLogsEachUser(a.store, order[1..], attempt);
      var added := r.store.syncLogs[n..];
      assert added[0] == rest.store.syncLogs[..n + 1][n] == a.store.syncLogs[n];
      assert added[1..] == rest.store.syncLogs[n + 1..];
      assert Owners(added) == [order[0]] + order[1..];
      forall i | 0 <= i < |added|
        ensures Terminal(added[i])
      {
        if i > 0 {
          assert added[i] == added[1..][i - 1];
        }
      }
    }
  }

  /** A pass keeps the set of users, and changes no user it does not sync. */
  lemma {:induction false} PassKeepsOtherUsers(store: Store, order: seq<int>, attempt: Attempter, v: int)
    requires TouchesOwnUser(attempt)
    requires v in store.tables.users && forall i :: 0 <= i < |order| ==> order[i] != v
    ensures Pass(store, order, attempt).store.tables.users.Keys == store.tables.users.Keys
    ensures Pass(store, order, attempt).store.tables.users[v] == store.tables.users[v]
    decreases |order|
  {
    if order != [] {
      var a := attempt(store, order[0]);
      OwnUser(attempt, store, order[0]);
      assert forall i :: 0 <= i < |order[1..]| ==> order[1..][i] == order[i + 1];
      PassKeepsOtherUsers(a.store, order[1..], attempt, v);
    }
  }

  /** `_sync_all_users` at `env.now`: every due user is synced once, in an
      order the model leaves open (the source iterates a set and runs the
      attempts concurrently), each from the `last_sync` the selection read.
      Nothing runs when no one is due. */
  function SyncAllUsers(store: Store, order: seq<int>, upstream: int -> Upstream, env: Env): (r: FleetRun)
    requires forall i :: 0 <= i < |order| ==> order[i] in DueUsers(store.tables.users, env.now)
    requires forall id :: id in DueUsers(store.tables.users, env.now) ==> id in order
    requires forall i, j :: 0 <= i < j < |order| ==> order[i] != order[j]
    ensures DueUsers(store.tables.users, env.now) == {} ==> r == FleetRun(store, [])
    ensures |r.attempts| == |order|
    ensures |r.store.syncLogs| == |store.syncLogs| + |order|
    ensures r.store.syncLogs[..|store.syncLogs|] == store.syncLogs
    ensures Owners(r.store.syncLogs[|store.syncLogs|..]) == order
    ensures AllClosed(r.store.syncLogs[|store.syncLogs|..])
    ensures forall v :: v in store.tables.users && v !in DueUsers(store.tables.users, env.now) ==>
      v in r.store.tables.users && r.store.tables.users[v] == store.tables.users[v]
  {
    var due := DueUsers(store.tables.users, env.now);
    var task := UserTask(store.tables.users, upstream, env);
    UserTaskBehaves(store.tables.users, upstream, env);
    PassAppendsLogs(store, order, task);
    PassLogsEachUser(store, order, task);
    forall v | v in store.tables.users && v !in due
      ensures v in Pass(store, order, task).store.tables.users
      ensures Pass(store, order, task).store.tables.users[v] == store.tables.users[v]
    {
      PassKeepsOtherUsers(store, order, task, v);
    }
    Pass(store, order, task)
  }

  // ---------------------------------------------------------------- the service

  /** The job the service schedules. */
  datatype Job = Job(id: string, intervalMinutes: int, maxInstances: nat, coalesce: bool,
                     misfireGraceSeconds: nat)

  function SyncJob(intervalMinutes: int): (j: Job)
    ensures j.id == "sync_all_users" && j.intervalMinutes == intervalMinutes
    ensures j.maxInstances == 1 && j.coalesce && j.misfireGraceSeconds == 300
  {
    Job("sync_all_users", intervalMinutes, 1, true, 300)
  }

  /** The service's flag and what it has asked of its scheduler. */
  datatype Service = Service(running: bool, jobs: seq<Job>, starts: nat, shutdowns: nat)

  function NewService(): (s: Service)
    ensures !s.running && s.jobs == [] && Consistent(s)
  {
    Service(false, [], 0, 0)
  }

  /** The flag says whether the scheduler was started more often than shut down. */
  predicate Consistent(s: Service) {
    && s.shutdowns <= s.starts <= s.shutdowns + 1
    && (s.running <==> s.starts == s.shutdowns + 1)
    && |s.jobs| == s.starts
  }

  /** `start`: a no-op while running; otherwise schedule the job, start the
      scheduler and set the flag. */
  function Start(s: Service, intervalMinutes: int): (r: Service)
    ensures r.running
    ensures s.running ==> r == s
    ensures !s.running ==>
      && r.starts == s.starts + 1 && r.shutdowns == s.shutdowns
      && r.jobs == s.jobs + [SyncJob(intervalMinutes)]
  {
    if s.running then s
    else Service(true, s.jobs + [SyncJob(intervalMinutes)], s.starts + 1, s.shutdowns)
  }

  /** `stop`: a no-op while stopped; otherwise shut the scheduler down and
      clear the flag. */
  function Stop(s: Service): (r: Service)
    ensures !r.running
    ensures !s.running ==> r == s
    ensures s.running ==> r.shutdowns == s.shutdowns + 1 && r.starts == s.starts && r.jobs == s.jobs
  {
    if !s.running then s else s.(running := false, shutdowns := s.shutdowns + 1)
  }

  lemma StartStopKeepConsistent(s: Service, intervalMinutes: int)
    requires Consistent(s)
    ensures Consistent(Start(s, intervalMinutes)) && Consistent(Stop(s))
  {
  }

  /** Starting twice is starting once; stopping twice is stopping once. */
  lemma StartStopIdempotent(s: Service, intervalMinutes: int)
    ensures Start(Start(s, intervalMinutes), intervalMinutes) == Start(s, intervalMinutes)
    ensures Stop(Stop(s)) == Stop(s)
  {
  }
}
