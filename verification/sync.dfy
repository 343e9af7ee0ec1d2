/** One user's sync attempt (`_sync_user_data`): open an IN_PROGRESS log,
    refresh the profile, mirror assignments and review statistics changed
    since the user's previous sync, and close the log as SUCCESS or ERROR.

    Exceptions are explicit: a per-record failure becomes a `Failed` item
    outcome, a failed collection fetch a `FetchFailed` report, and a failure
    of the profile step the attempt's `Err` outcome. */
module Sync {
  import opened Base
  import opened Json
  import opened Models
  import opened Client
  import opened Upsert

  /** The tables the pipeline writes, apart from the sync log. */
  datatype Tables = Tables(
    users: map<int, User>,
    subjects: map<int, Subject>,
    assignments: map<int, Assignment>,
    reviewStatistics: map<int, ReviewStatistic>)

  /** The whole store. A sync log's id is its position: logs are only appended. */
  datatype Store = Store(tables: Tables, syncLogs: seq<SyncLog>)

  /** What a sync runs against: the configured base URL, the clock reading
      used for every stamp of the attempt (a fleet pass passes one reading
      to its selection cutoff and to all of its attempts), and the ISO-8601
      parser. */
  datatype Env = Env(baseUrl: string, now: Timestamp, iso: IsoParser)

  /** The upstream's replies to one user's client: the profile request and
      the two collection calls. */
  datatype Upstream = Upstream(profile: Reply, assignments: seq<Reply>, reviewStatistics: seq<Reply>)

  /** The two collections the incremental sync mirrors. */
  datatype Mirrored = AssignmentRecords | ReviewStatisticRecords

  function Source(m: Mirrored): Collection {
    match m
    case AssignmentRecords => Assignments
    case ReviewStatisticRecords => ReviewStatistics
  }

  datatype ItemOutcome = Applied | Skipped | Failed(fault: Fault)

  datatype CollectionReport = FetchFailed(fault: Fault) | Processed(outcomes: seq<ItemOutcome>)

  /** The per-sync report of a completed attempt. */
  datatype Report = Report(profileUpdated: bool, assignments: CollectionReport,
                           reviewStatistics: CollectionReport)

  // ---------------------------------------------------------------- profile

  /** The subscription block, when it is truthy: `active`, `type` and
      `max_level_granted` are copied; `period_ends_at` is only written when
      the payload has a truthy one. */
  function ApplySubscription(u: User, sub: Json, iso: IsoParser): (r: Result<User, Fault>)
    ensures r.Ok? <==>
      && sub.JObj? && Get(sub.fields, "active").JBool?
      && "type" in sub.fields && (sub.fields["type"].JNull? || sub.fields["type"].JStr?)
      && "max_level_granted" in sub.fields
      && (sub.fields["max_level_granted"].JNull? || sub.fields["max_level_granted"].JInt?)
      && TimeReadable(iso, sub.fields, "period_ends_at")
    ensures r.Ok? ==>
      && Get(sub.fields, "active") == JBool(r.value.subscriptionActive)
      && TextOrNull(sub.fields["type"], r.value.subscriptionType)
      && IntOrNull(sub.fields["max_level_granted"], r.value.subscriptionMaxLevelGranted)
    ensures r.Ok? && Truthy(Get(sub.fields, "period_ends_at")) ==>
      TimeFrom(iso, sub.fields, "period_ends_at", r.value.subscriptionPeriodEndsAt)
    ensures r.Ok? && !Truthy(Get(sub.fields, "period_ends_at")) ==>
      r.value.subscriptionPeriodEndsAt == u.subscriptionPeriodEndsAt
    ensures r.Ok? ==> r.value.(subscriptionActive := u.subscriptionActive,
                               subscriptionType := u.subscriptionType,
                               subscriptionMaxLevelGranted := u.subscriptionMaxLevelGranted,
                               subscriptionPeriodEndsAt := u.subscriptionPeriodEndsAt) == u
  {
    if !sub.JObj? then Err(TypeMismatch("subscription"))
    else
      var active :- BoolField(sub.fields, "active");
      var kind :- NullableStringField(sub.fields, "type");
      var maxLevel :- NullableIntField(sub.fields, "max_level_granted");
      var ends :- OptionalTime(iso, sub.fields, "period_ends_at");
      Ok(u.(subscriptionActive := active, subscriptionType := kind, subscriptionMaxLevelGranted := maxLevel,
            subscriptionPeriodEndsAt := if ends.Some? then ends else u.subscriptionPeriodEndsAt))
  }

  /** `username`, `level` and `profile_url` of `user_data["data"]` have the
      types their columns hold. */
  predicate ProfileReadable(data: Object) {
    && Get(data, "username").JStr?
    && Get(data, "level").JInt?
    && "profile_url" in data && (data["profile_url"].JNull? || data["profile_url"].JStr?)
  }

  /** The stored row with the three profile columns taken from a readable
      `user_data["data"]`. */
  function Named(u: User, data: Object): (n: User)
    requires ProfileReadable(data)
    ensures Get(data, "username") == JStr(n.username) && Get(data, "level") == JInt(n.level)
    ensures TextOrNull(data["profile_url"], n.profileUrl)
    ensures n.(username := u.username, level := u.level, profileUrl := u.profileUrl) == u
  {
    u.(username := Get(data, "username").s, level := Get(data, "level").i,
       profileUrl := if data["profile_url"].JStr? then Some(data["profile_url"].s) else None)
  }

  /** The profile fields of `user_data["data"]` written onto the stored row,
      and `last_sync` moved to now. Credentials and creation time are kept. */
  function ApplyProfile(u: User, body: Json, now: Timestamp, iso: IsoParser): (r: Result<User, Fault>)
    ensures r.Ok? <==>
      && body.JObj? && "data" in body.fields && body.fields["data"].JObj?
      && ProfileReadable(body.fields["data"].fields)
      && (Truthy(Get(body.fields["data"].fields, "subscription")) ==>
            ApplySubscription(Named(u, body.fields["data"].fields), Get(body.fields["data"].fields, "subscription"),
                              iso).Ok?)
    ensures r.Ok? ==> r.value.lastSync == Some(now)
    ensures r.Ok? ==>
      && body.JObj? && "data" in body.fields && body.fields["data"].JObj?
      && Get(body.fields["data"].fields, "username") == JStr(r.value.username)
      && Get(body.fields["data"].fields, "level") == JInt(r.value.level)
      && "profile_url" in body.fields["data"].fields
      && TextOrNull(body.fields["data"].fields["profile_url"], r.value.profileUrl)
    ensures r.Ok? ==>
      && r.value.wanikaniApiKey == u.wanikaniApiKey && r.value.mcpApiKey == u.mcpApiKey
      && r.value.createdAt == u.createdAt && r.value.startedAt == u.startedAt
    ensures r.Ok? && !Truthy(Get(body.fields["data"].fields, "subscription")) ==>
      && r.value.subscriptionActive == u.subscriptionActive
      && r.value.subscriptionType == u.subscriptionType
      && r.value.subscriptionMaxLevelGranted == u.subscriptionMaxLevelGranted
      && r.value.subscriptionPeriodEndsAt == u.subscriptionPeriodEndsAt
    ensures r.Ok? && Truthy(Get(body.fields["data"].fields, "subscription")) ==>
      ApplySubscription(Named(u, body.fields["data"].fields), Get(body.fields["data"].fields, "subscription"), iso)
        == Ok(r.value.(lastSync := u.lastSync))
  {
    if !body.JObj? then Err(TypeMismatch("data"))
    else
      var data :- Field(body.fields, "data");
      if !data.JObj? then Err(TypeMismatch("data"))
      else
        var username :- StringField(data.fields, "username");
        var level :- IntField(data.fields, "level");
        var profileUrl :- NullableStringField(data.fields, "profile_url");
        var sub := Get(data.fields, "subscription");
        var updated := u.(username := username, level := level, profileUrl := profileUrl);
        var subscribed :- if Truthy(sub) then ApplySubscription(updated, sub, iso) else Ok(updated);
        Ok(subscribed.(lastSync := Some(now)))
  }

  /** The profile step: fetch `/user`; if the user's row still exists,
      update it and count one record. Nothing it raises is caught. */
  function SyncProfile(t: Tables, uid: int, reply: Reply, env: Env): (r: Result<(Tables, bool), Fault>)
    ensures r.Ok? ==> (r.value.1 <==> uid in t.users)
    ensures r.Ok? ==> r.value.0.users.Keys == t.users.Keys
    ensures r.Ok? ==> r.value.0 == t.(users := r.value.0.users)
    ensures r.Ok? ==> forall v :: v in t.users && v != uid ==> r.value.0.users[v] == t.users[v]
    ensures r.Ok? && uid in t.users ==> r.value.0.users[uid].lastSync == Some(env.now)
    ensures r.Ok? <==>
      && reply.Reply? && 200 <= reply.status < 300
      && (uid in t.users ==> ApplyProfile(t.users[uid], reply.body, env.now, env.iso).Ok?)
    ensures r.Ok? && uid in t.users ==>
      ApplyProfile(t.users[uid], reply.body, env.now, env.iso) == Ok(r.value.0.users[uid])
  {
    var body :- Receive(RequestUrl(env.baseUrl, "user"), reply);
    if uid in t.users then
      var u :- ApplyProfile(t.users[uid], body, env.now, env.iso);
      Ok((t.(users := t.users[uid := u]), true))
    else Ok((t, false))
  }

  /** Applying the same profile payload to the row it produced gives that
      row again, with only `last_sync` moved to the later clock. */
  /** Applying a subscription block to the row it produced gives that row
      again. */
  lemma SubscriptionReplay(v: User, sub: Json, iso: IsoParser)
    requires ApplySubscription(v, sub, iso).Ok?
    ensures var w := ApplySubscription(v, sub, iso).value;
      ApplySubscription(w, sub, iso) == Ok(w)
  {
  }

  lemma {:induction false} ProfileReplay(u: User, body: Json, now: Timestamp, later: Timestamp, iso: IsoParser)
    requires ApplyProfile(u, body, now, iso).Ok?
    ensures var once := ApplyProfile(u, body, now, iso).value;
      ApplyProfile(once, body, later, iso) == Ok(once.(lastSync := Some(later)))
  {
    var once := ApplyProfile(u, body, now, iso).value;
    var data := body.fields["data"].fields;
    var sub := Get(data, "subscription");
    assert Named(once, data) == once;
    if Truthy(sub) {
      var w := ApplySubscription(Named(u, data), sub, iso).value;
      SubscriptionReplay(Named(u, data), sub, iso);
      assert once == w.(lastSync := Some(now));
      assert ApplySubscription(once, sub, iso) == Ok(once);
    }
  }

  // ---------------------------------------------------------------- records

  /** `item.get("data", item)`: an envelope without a data key is its own body. */
  function Body(envelope: Object): Json {
    if "data" in envelope then envelope["data"] else JObj(envelope)
  }

  /** The envelope step: read the top-level id, take the body, and copy the
      id into it. A falsy id means the record is skipped (None). */
  function Unwrap(item: Json): (r: Result<Option<Object>, Fault>)
    ensures r == Ok(None) <==> item.JObj? && !Truthy(Get(item.fields, "id"))
    ensures r.Ok? <==> item.JObj? && (Truthy(Get(item.fields, "id")) ==> Body(item.fields).JObj?)
    ensures r.Ok? && r.value.Some? ==>
      && Get(r.value.value, "id") == Get(item.fields, "id")
      && Truthy(Get(r.value.value, "id"))
      && forall k :: k != "id" ==> Get(r.value.value, k) == Get(Body(item.fields).fields, k)
    ensures r.Ok? && r.value.Some? ==>
      && r.value.value.Keys == Body(item.fields).fields.Keys + {"id"}
      && forall k :: k in r.value.value && k != "id" ==> r.value.value[k] == Body(item.fields).fields[k]
  {
    if !item.JObj? then Err(NotAnObject)
    else
      var id := Get(item.fields, "id");
      if !Truthy(id) then Ok(None)
      else
        var body := Body(item.fields);
        if !body.JObj? then Err(TypeMismatch("data")) else Ok(Some(body.fields["id" := id]))
  }

  /** The mapper a mirrored collection uses. */
  function UpsertRecord(t: Tables, uid: int, m: Mirrored, d: Object, env: Env): (r: Result<Tables, Fault>)
    ensures r.Ok? ==> r.value.users == t.users && r.value.subjects == t.subjects
    ensures r.Ok? && m == AssignmentRecords ==> r.value.reviewStatistics == t.reviewStatistics
    ensures r.Ok? && m == ReviewStatisticRecords ==> r.value.assignments == t.assignments
    ensures m == AssignmentRecords ==>
      (r.Ok? <==> UpsertAssignment(t.assignments, uid, d, env.now, env.iso).Ok?)
      && (r.Ok? ==> r.value.assignments == UpsertAssignment(t.assignments, uid, d, env.now, env.iso).value)
    ensures m == ReviewStatisticRecords ==>
      (r.Ok? <==> UpsertReviewStatistic(t.reviewStatistics, uid, d, env.now, env.iso).Ok?)
      && (r.Ok? ==> r.value.reviewStatistics == UpsertReviewStatistic(t.reviewStatistics, uid, d, env.now, env.iso).value)
  {
    match m
    case AssignmentRecords =>
      var a :- UpsertAssignment(t.assignments, uid, d, env.now, env.iso);
      Ok(t.(assignments := a))
    case ReviewStatisticRecords =>
      var s :- UpsertReviewStatistic(t.reviewStatistics, uid, d, env.now, env.iso);
      Ok(t.(reviewStatistics := s))
  }

  /** One iteration of a record loop, its exception caught by the loop's handler. */
  function ApplyItem(t: Tables, uid: int, m: Mirrored, item: Json, env: Env): (r: (Tables, ItemOutcome))
    ensures r.1 != Applied ==> r.0 == t
    ensures r.1 == Skipped <==> item.JObj? && !Truthy(Get(item.fields, "id"))
    ensures r.1 == Applied ==> item.JObj? && Truthy(Get(item.fields, "id"))
    ensures r.0.users == t.users && r.0.subjects == t.subjects
    ensures m == AssignmentRecords ==> r.0.reviewStatistics == t.reviewStatistics
    ensures m == ReviewStatisticRecords ==> r.0.assignments == t.assignments
    ensures r.1 == Applied <==>
      && Unwrap(item).Ok? && Unwrap(item).value.Some?
      && UpsertRecord(t, uid, m, Unwrap(item).value.value, env).Ok?
    ensures r.1 == Applied ==> r.0 == UpsertRecord(t, uid, m, Unwrap(item).value.value, env).value
    ensures r.1.Failed? ==>
      || (Unwrap(item).Err? && r.1.fault == Unwrap(item).error)
      || (Unwrap(item).Ok? && Unwrap(item).value.Some?
          && UpsertRecord(t, uid, m, Unwrap(item).value.value, env) == Err(r.1.fault))
  {
    match Unwrap(item)
    case Err(fault) => (t, Failed(fault))
    case Ok(None) => (t, Skipped)
    case Ok(Some(d)) =>
      match UpsertRecord(t, uid, m, d, env)
      case Err(fault) => (t, Failed(fault))
      case Ok(t') => (t', Applied)
  }

  datatype BatchRun = BatchRun(tables: Tables, outcomes: seq<ItemOutcome>)

  /** What one loop iteration does to the tables, and how it ends. */
  type Step = (Tables, Json) -> (Tables, ItemOutcome)

  /** A `for` loop over the items: each iteration starts from the tables the
      previous one left. */
  function Fold(t: Tables, items: seq<Json>, step: Step): (b: BatchRun)
    decreases |items|
  {
    if items == [] then BatchRun(t, [])
    else
      var r := step(t, items[0]);
      var rest := Fold(r.0, items[1..], step);
      BatchRun(rest.tables, [r.1] + rest.outcomes)
  }

  function ItemStep(uid: int, m: Mirrored, env: Env): Step {
    (t: Tables, item: Json) => ApplyItem(t, uid, m, item, env)
  }

  /** `after` differs from `before` at most in the table collection `m` writes. */
  predicate Framed(before: Tables, after: Tables, m: Mirrored) {
    && after.users == before.users && after.subjects == before.subjects
    && (m == AssignmentRecords ==> after.reviewStatistics == before.reviewStatistics)
    && (m == ReviewStatisticRecords ==> after.assignments == before.assignments)
  }

  lemma {:induction false} FoldFramed(t: Tables, items: seq<Json>, step: Step, m: Mirrored)
    requires forall u, x :: Framed(u, step(u, x).0, m)
    ensures Framed(t, Fold(t, items, step).tables, m)
    decreases |items|
  {
    if items != [] {
      FoldFramed(step(t, items[0]).0, items[1..], step, m);
    }
  }

  /** A record loop with per-record isolation: every item is tried, in
      order, and one that raises is skipped without touching the store. */
  function ApplyBatch(t: Tables, uid: int, m: Mirrored, items: seq<Json>, env: Env): (b: BatchRun)
    ensures Framed(t, b.tables, m)
  {
    FoldFramed(t, items, ItemStep(uid, m, env), m);
    Fold(t, items, ItemStep(uid, m, env))
  }

  /** The record loop as the source writes it. Its handler logs the id
      variable bound by the first statement of the loop body; when the very
      first envelope is not an object that statement raises before the
      variable was ever bound, the handler itself raises UnboundLocalError,
      and the collection-level handler abandons the whole collection. */
  function ApplyBatchAsWritten(t: Tables, uid: int, m: Mirrored, items: seq<Json>, env: Env)
    : (r: (Tables, CollectionReport))
    ensures |items| > 0 && !items[0].JObj? ==> r.0 == t && r.1.FetchFailed?
    ensures |items| == 0 || items[0].JObj? ==>
      r == (ApplyBatch(t, uid, m, items, env).tables, Processed(ApplyBatch(t, uid, m, items, env).outcomes))
  {
    if |items| > 0 && !items[0].JObj? then
      (t, FetchFailed(UnboundName(if m == AssignmentRecords then "assignment_id" else "stats_id")))
    else
      var b := ApplyBatch(t, uid, m, items, env);
      (b.tables, Processed(b.outcomes))
  }

  /** The number of records a loop counted: the upserts that returned normally. */
  function CountApplied(outcomes: seq<ItemOutcome>): nat {
    if outcomes == [] then 0
    else (if outcomes[0] == Applied then 1 else 0) + CountApplied(outcomes[1..])
  }

  function Count(c: CollectionReport): nat {
    match c
    case FetchFailed(_) => 0
    case Processed(outcomes) => CountApplied(outcomes)
  }

  /** `records_updated` as the attempt returns it and logs it. */
  function RecordsUpdated(r: Report): nat {
    (if r.profileUpdated then 1 else 0) + Count(r.assignments) + Count(r.reviewStatistics)
  }

  datatype CollectionRun = CollectionRun(tables: Tables, requests: seq<Request>, report: CollectionReport)

  /** One collection block: a fetch whose failure is caught and logged, then
      the record loop over what it returned. */
  function SyncCollection(t: Tables, uid: int, m: Mirrored, replies: seq<Reply>,
                          after: Option<Timestamp>, env: Env): (c: CollectionRun)
    ensures c.report.FetchFailed? ==> c.tables == t
    ensures c.tables.users == t.users && c.tables.subjects == t.subjects
    ensures c.requests == FetchCollection(env.baseUrl, Source(m), after, replies).requests
    ensures var f := FetchCollection(env.baseUrl, Source(m), after, replies);
      && (c.report.FetchFailed? <==> f.result.Err?)
      && (f.result.Err? ==> c.report.fault == f.result.error)
      && (f.result.Ok? ==>
            var b := ApplyBatch(t, uid, m, f.result.value, env);
            c.tables == b.tables && c.report == Processed(b.outcomes))
  {
    var f := FetchCollection(env.baseUrl, Source(m), after, replies);
    match f.result
    case Err(fault) => CollectionRun(t, f.requests, FetchFailed(fault))
    case Ok(items) =>
      var b := ApplyBatch(t, uid, m, items, env);
      CollectionRun(b.tables, f.requests, Processed(b.outcomes))
  }

  // ---------------------------------------------------------------- the attempt

  datatype Mirroring = Mirroring(tables: Tables, requests: seq<Request>,
                                 assignments: CollectionReport, reviewStatistics: CollectionReport)

  /** The assignments block followed by the review statistics block, both
      filtered on the same window. */
  function MirrorCollections(t: Tables, uid: int, after: Option<Timestamp>, up: Upstream, env: Env)
    : (r: Mirroring)
    ensures r.tables.users == t.users && r.tables.subjects == t.subjects
    ensures r.requests == FetchCollection(env.baseUrl, Assignments, after, up.assignments).requests
                          + FetchCollection(env.baseUrl, ReviewStatistics, after, up.reviewStatistics).requests
  {
    var a := SyncCollection(t, uid, AssignmentRecords, up.assignments, after, env);
    var s := SyncCollection(a.tables, uid, ReviewStatisticRecords, up.reviewStatistics, after, env);
    Mirroring(s.tables, a.requests + s.requests, a.report, s.report)
  }

  /** A sync attempt: the log as it was opened, the store afterwards, every
      request sent, and the report or the fault that escaped. */
  datatype Attempt = Attempt(logId: nat, log: SyncLog, store: Store, requests: seq<Request>,
                             outcome: Result<Report, Fault>)

  /** `_sync_user_data(user)`. `window` is `last_sync` of the caller's copy
      of the user row, read before the attempt: it sets the incremental window
      even though the profile step moves the stored row's `last_sync` to now.

      The log is opened IN_PROGRESS as an incremental sync with the defaults,
      and is the one log the attempt adds, closed with a terminal status. Only
      the profile step can raise, and then no table changes; the profile
      counts one record exactly when the user's row exists; of the users, only
      this user's row can change. */
  function SyncUser(store: Store, uid: int, window: Option<Timestamp>, up: Upstream, env: Env): (a: Attempt)
    ensures a.logId == |store.syncLogs|
    ensures a.log == SyncLog(uid, Incremental, InProgress, 0, None, env.now, None)
    ensures |a.store.syncLogs| == |store.syncLogs| + 1 && a.store.syncLogs[..a.logId] == store.syncLogs
    ensures var closed := a.store.syncLogs[a.logId];
      && Terminal(closed) && closed.completedAt == Some(env.now)
      && closed.userId == uid && closed.syncType == Incremental && closed.startedAt == env.now
      && (a.outcome.Ok? <==> closed.status == Success)
      && (a.outcome.Ok? ==> closed.recordsUpdated == RecordsUpdated(a.outcome.value) && closed.errorMessage == None)
      && (a.outcome.Err? ==> closed.errorMessage == Some(Describe(a.outcome.error)) && closed.recordsUpdated == 0)
    ensures a.outcome.Err? ==> a.store.tables == store.tables
    ensures a.outcome.Ok? ==> (a.outcome.value.profileUpdated <==> uid in store.tables.users)
    ensures a.store.tables.users.Keys == store.tables.users.Keys
    ensures forall v :: v in store.tables.users && v != uid ==> a.store.tables.users[v] == store.tables.users[v]
    ensures a.store.tables.subjects == store.tables.subjects
    ensures a.outcome.Ok? && uid in store.tables.users ==> a.store.tables.users[uid].lastSync == Some(env.now)
  {
    var log := NewSyncLog(uid, Incremental, InProgress, env.now);
    var logId := |store.syncLogs|;
    var after := window;
    var profileRequest := Request(RequestUrl(env.baseUrl, "user"), NoParams);
    match SyncProfile(store.tables, uid, up.profile, env)
    case Err(fault) =>
      Attempt(logId, log, Store(store.tables, store.syncLogs + [Fail(log, Describe(fault), env.now)]),
              [profileRequest], Err(fault))
    case Ok((t1, touched)) =>
      var mirrored := MirrorCollections(t1, uid, after, up, env);
      var report := Report(touched, mirrored.assignments, mirrored.reviewStatistics);
      Attempt(logId, log,
              Store(mirrored.tables, store.syncLogs + [Succeed(log, RecordsUpdated(report), env.now)]),
              [profileRequest] + mirrored.requests, Ok(report))
  }

  // ---------------------------------------------------------------- properties

  /** Only the profile step can raise: the attempt fails exactly when it
      does, with its fault. */
  lemma OnlyProfileRaises(store: Store, uid: int, window: Option<Timestamp>, up: Upstream, env: Env)
    ensures var a := SyncUser(store, uid, window, up, env);
      var p := SyncProfile(store.tables, uid, up.profile, env);
      && (a.outcome.Err? <==> p.Err?)
      && (a.outcome.Err? ==> a.outcome.error == p.error)
  {
  }

  /** The profile is requested first; when it goes through, both collections
      are then fetched with the caller's window, assignments before review
      statistics. */
  lemma AttemptRequests(store: Store, uid: int, window: Option<Timestamp>, up: Upstream, env: Env)
    ensures var a := SyncUser(store, uid, window, up, env);
      var profile := Request(RequestUrl(env.baseUrl, "user"), NoParams);
      && (a.outcome.Err? ==> a.requests == [profile])
      && (a.outcome.Ok? ==>
            a.requests == [profile] + (FetchCollection(env.baseUrl, Assignments, window, up.assignments).requests
                                       + FetchCollection(env.baseUrl, ReviewStatistics, window, up.reviewStatistics).requests))
  {
  }

  /** A collection block changes the tables and counts as its record loop
      over the fetched items does, and not at all when the fetch failed. */
  lemma CollectionCounts(t: Tables, uid: int, m: Mirrored, replies: seq<Reply>, after: Option<Timestamp>,
                         env: Env)
    ensures var c := SyncCollection(t, uid, m, replies, after, env);
      var f := FetchCollection(env.baseUrl, Source(m), after, replies);
      && c.tables == (if f.result.Ok? then ApplyBatch(t, uid, m, f.result.value, env).tables else t)
      && Count(c.report) == (if f.result.Ok? then CountApplied(ApplyBatch(t, uid, m, f.result.value, env).outcomes) else 0)
  {
  }

  /** A successful attempt ends with the tables the two collection blocks
      left, and counts the profile record and what the two blocks counted. */
  lemma AttemptThroughBlocks(store: Store, uid: int, window: Option<Timestamp>, up: Upstream, env: Env)
    ensures var a := SyncUser(store, uid, window, up, env);
      var p := SyncProfile(store.tables, uid, up.profile, env);
      a.outcome.Ok? ==>
        p.Ok? &&
        var m := MirrorCollections(p.value.0, uid, window, up, env);
        && a.store.tables == m.tables
        && a.store.syncLogs[a.logId].recordsUpdated
             == (if uid in store.tables.users then 1 else 0) + Count(m.assignments) + Count(m.reviewStatistics)
  {
    if SyncProfile(store.tables, uid, up.profile, env).Err? {
      OnlyProfileRaises(store, uid, window, up, env);
    }
  }

  /** The two collection blocks, each run against the tables the previous
      step left. */
  lemma BlocksCompose(t1: Tables, uid: int, window: Option<Timestamp>, up: Upstream, env: Env)
    ensures var m := MirrorCollections(t1, uid, window, up, env);
      var fa := FetchCollection(env.baseUrl, Assignments, window, up.assignments);
      var fr := FetchCollection(env.baseUrl, ReviewStatistics, window, up.reviewStatistics);
      var t2 := if fa.result.Ok? then ApplyBatch(t1, uid, AssignmentRecords, fa.result.value, env).tables else t1;
      var na := if fa.result.Ok? then CountApplied(ApplyBatch(t1, uid, AssignmentRecords, fa.result.value, env).outcomes) else 0;
      var t3 := if fr.result.Ok? then ApplyBatch(t2, uid, ReviewStatisticRecords, fr.result.value, env).tables else t2;
      var nr := if fr.result.Ok? then CountApplied(ApplyBatch(t2, uid, ReviewStatisticRecords, fr.result.value, env).outcomes) else 0;
      m.tables == t3 && Count(m.assignments) == na && Count(m.reviewStatistics) == nr
  {
    var ca := SyncCollection(t1, uid, AssignmentRecords, up.assignments, window, env);
    CollectionCounts(t1, uid, AssignmentRecords, up.assignments, window, env);
    CollectionCounts(ca.tables, uid, ReviewStatisticRecords, up.reviewStatistics, window, env);
  }

  /** What a successful attempt writes and counts, composed from its parts:
      the profile step, then the record loop over the fetched assignments,
      then the record loop over the fetched review statistics, each starting
      from the tables the previous step left. A collection whose fetch
      failed leaves the tables alone and adds nothing to the count. */
  lemma AttemptComposesSteps(store: Store, uid: int, window: Option<Timestamp>, up: Upstream, env: Env)
    ensures var a := SyncUser(store, uid, window, up, env);
      var p := SyncProfile(store.tables, uid, up.profile, env);
      a.outcome.Ok? ==>
        p.Ok? &&
        var fa := FetchCollection(env.baseUrl, Assignments, window, up.assignments);
        var fr := FetchCollection(env.baseUrl, ReviewStatistics, window, up.reviewStatistics);
        var t1 := p.value.0;
        var t2 := if fa.result.Ok? then ApplyBatch(t1, uid, AssignmentRecords, fa.result.value, env).tables else t1;
        var na := if fa.result.Ok? then CountApplied(ApplyBatch(t1, uid, AssignmentRecords, fa.result.value, env).outcomes) else 0;
        var t3 := if fr.result.Ok? then ApplyBatch(t2, uid, ReviewStatisticRecords, fr.result.value, env).tables else t2;
        var nr := if fr.result.Ok? then CountApplied(ApplyBatch(t2, uid, ReviewStatisticRecords, fr.result.value, env).outcomes) else 0;
        && a.store.tables == t3
        && a.store.syncLogs[a.logId].recordsUpdated == (if uid in store.tables.users then 1 else 0) + na + nr
  {
    AttemptThroughBlocks(store, uid, window, up, env);
    var p := SyncProfile(store.tables, uid, up.profile, env);
    if p.Ok? {
      BlocksCompose(p.value.0, uid, window, up, env);
    }
  }

  lemma {:induction false} CountAppliedAppend(a: seq<ItemOutcome>, b: seq<ItemOutcome>)
    ensures CountApplied(a + b) == CountApplied(a) + CountApplied(b)
    decreases |a|
  {
    if a != [] {
      assert (a + b)[1..] == a[1..] + b;
      CountAppliedAppend(a[1..], b);
    } else {
      assert a + b == b;
    }
  }

  /** A loop counts at most one record per item, and counts every item
      exactly when every upsert went through. */
  lemma {:induction false} CountAppliedBound(outcomes: seq<ItemOutcome>)
    ensures CountApplied(outcomes) <= |outcomes|
    ensures CountApplied(outcomes) == |outcomes| <==> forall i :: 0 <= i < |outcomes| ==> outcomes[i] == Applied
    decreases |outcomes|
  {
    if outcomes != [] {
      CountAppliedBound(outcomes[1..]);
      if forall i :: 0 <= i < |outcomes| ==> outcomes[i] == Applied {
        assert forall i :: 0 <= i < |outcomes| - 1 ==> outcomes[1..][i] == outcomes[i + 1];
      } else {
        var j :| 0 <= j < |outcomes| && outcomes[j] != Applied;
        if j > 0 {
          assert outcomes[1..][j - 1] == outcomes[j];
        }
      }
    }
  }

  lemma {:induction false} FoldLength(t: Tables, items: seq<Json>, step: Step)
    ensures |Fold(t, items, step).outcomes| == |items|
    decreases |items|
  {
    if items != [] {
      FoldLength(step(t, items[0]).0, items[1..], step);
    }
  }

  /** An object whose id is falsy: the loops skip it. */
  predicate FalsyId(item: Json) {
    item.JObj? && !Truthy(Get(item.fields, "id"))
  }

  lemma {:induction false} FoldOutcomes(t: Tables, items: seq<Json>, step: Step)
    requires forall u, x :: step(u, x).1 == Skipped <==> FalsyId(x)
    ensures var b := Fold(t, items, step);
      |b.outcomes| == |items| && forall i :: 0 <= i < |items| ==> (b.outcomes[i] == Skipped <==> FalsyId(items[i]))
    decreases |items|
  {
    if items != [] {
      var r := step(t, items[0]);
      var tail := Fold(r.0, items[1..], step);
      FoldOutcomes(r.0, items[1..], step);
      var b := Fold(t, items, step);
      assert b.outcomes == [r.1] + tail.outcomes;
      forall i | 1 <= i < |items|
        ensures b.outcomes[i] == tail.outcomes[i - 1] && items[i] == items[1..][i - 1]
      {
      }
    }
  }

  /** Every item gets one outcome, in order, and an item is skipped exactly
      when it is an object with a falsy id. */
  lemma BatchSkipsFalsyIds(t: Tables, uid: int, m: Mirrored, items: seq<Json>, env: Env)
    ensures |ApplyBatch(t, uid, m, items, env).outcomes| == |items|
    ensures var b := ApplyBatch(t, uid, m, items, env);
      forall i :: 0 <= i < |items| ==> (b.outcomes[i] == Skipped <==> FalsyId(items[i]))
  {
    FoldOutcomes(t, items, ItemStep(uid, m, env));
  }

  lemma {:induction false} FoldInert(t: Tables, items: seq<Json>, step: Step)
    requires forall u, x :: step(u, x).1 != Applied ==> step(u, x).0 == u
    requires Applied !in Fold(t, items, step).outcomes
    ensures Fold(t, items, step).tables == t
    decreases |items|
  {
    if items != [] {
      var r := step(t, items[0]);
      var tail := Fold(r.0, items[1..], step);
      assert Fold(t, items, step).outcomes == [r.1] + tail.outcomes;
      FoldInert(r.0, items[1..], step);
    }
  }

  /** A loop in which no upsert went through leaves the tables as they were. */
  lemma BatchWithoutUpsertsIsInert(t: Tables, uid: int, m: Mirrored, items: seq<Json>, env: Env)
    requires Applied !in ApplyBatch(t, uid, m, items, env).outcomes
    ensures ApplyBatch(t, uid, m, items, env).tables == t
  {
    forall u, x | ItemStep(uid, m, env)(u, x).1 != Applied
      ensures ItemStep(uid, m, env)(u, x).0 == u
    {
    }
    FoldInert(t, items, ItemStep(uid, m, env));
  }

  lemma {:induction false} FoldRejects(t: Tables, items: seq<Json>, step: Step, o: ItemOutcome)
    requires forall i, u :: 0 <= i < |items| ==> step(u, items[i]) == (u, o)
    ensures var b := Fold(t, items, step);
      b.tables == t && |b.outcomes| == |items| && forall i :: 0 <= i < |items| ==> b.outcomes[i] == o
    decreases |items|
  {
    if items != [] {
      assert forall i :: 0 <= i < |items| - 1 ==> items[1..][i] == items[i + 1];
      FoldRejects(t, items[1..], step, o);
      assert step(t, items[0]) == (t, o);
    }
  }

  /** A page whose `data` is text extends the list with its characters.
      Each is a string, not an object, so every iteration raises: the loop
      counts one failure per character and writes nothing. */
  lemma TextDataFails(t: Tables, uid: int, m: Mirrored, text: string, env: Env)
    ensures var b := ApplyBatch(t, uid, m, Extension(JStr(text)).value, env);
      && b.tables == t && |b.outcomes| == |text|
      && forall i :: 0 <= i < |text| ==> b.outcomes[i] == Failed(NotAnObject)
  {
    var items := Extension(JStr(text)).value;
    forall i, u | 0 <= i < |items|
      ensures ItemStep(uid, m, env)(u, items[i]) == (u, Failed(NotAnObject))
    {
      assert items[i] == JStr([text[i]]);
    }
    FoldRejects(t, items, ItemStep(uid, m, env), Failed(NotAnObject));
  }

  lemma FoldSingle(t: Tables, x: Json, step: Step)
    ensures Fold(t, [x], step) == BatchRun(step(t, x).0, [step(t, x).1])
  {
    assert [x][0] == x && [x][1..] == [];
    assert [step(t, x).1] + [] == [step(t, x).1];
  }

  lemma {:induction false} FoldAppend(t: Tables, p: seq<Json>, s: seq<Json>, step: Step)
    ensures var first := Fold(t, p, step);
      var second := Fold(first.tables, s, step);
      Fold(t, p + s, step) == BatchRun(second.tables, first.outcomes + second.outcomes)
    decreases |p|
  {
    if p == [] {
      assert p + s == s;
    } else {
      assert (p + s)[0] == p[0] && (p + s)[1..] == p[1..] + s;
      var r := step(t, p[0]);
      var tail := Fold(r.0, p[1..], step);
      var first := Fold(t, p, step);
      var second := Fold(first.tables, s, step);
      FoldAppend(r.0, p[1..], s, step);
      assert [r.1] + (tail.outcomes + second.outcomes) == ([r.1] + tail.outcomes) + second.outcomes;
    }
  }

  /** The record loop is a left fold: running it on a concatenation is running
      it on the first part and then, from the tables that left, on the second. */
  lemma BatchAppend(t: Tables, uid: int, m: Mirrored, p: seq<Json>, s: seq<Json>, env: Env)
    ensures var first := ApplyBatch(t, uid, m, p, env);
      var second := ApplyBatch(first.tables, uid, m, s, env);
      ApplyBatch(t, uid, m, p + s, env) == BatchRun(second.tables, first.outcomes + second.outcomes)
  {
    FoldAppend(t, p, s, ItemStep(uid, m, env));
  }

  /** Per-record isolation: a record whose upsert raises or is skipped changes
      nothing, so the loop over the other records ends exactly as if it were
      not there, and only its own outcome is added. */
  lemma FailedItemIsInert(t: Tables, uid: int, m: Mirrored, p: seq<Json>, x: Json, s: seq<Json>, env: Env)
    requires ApplyItem(ApplyBatch(t, uid, m, p, env).tables, uid, m, x, env).1 != Applied
    ensures var without := ApplyBatch(t, uid, m, p + s, env);
      var with := ApplyBatch(t, uid, m, p + [x] + s, env);
      && with.tables == without.tables
      && |p| <= |without.outcomes|
      && with.outcomes == without.outcomes[..|p|]
           + [ApplyItem(ApplyBatch(t, uid, m, p, env).tables, uid, m, x, env).1]
           + without.outcomes[|p|..]
  {
    var first := ApplyBatch(t, uid, m, p, env);
    var o := ApplyItem(first.tables, uid, m, x, env).1;
    BatchAppend(t, uid, m, p, s, env);
    BatchAppend(t, uid, m, p + [x], s, env);
    BatchAppend(t, uid, m, p, [x], env);
    BatchSkipsFalsyIds(t, uid, m, p, env);
    var single := ApplyBatch(first.tables, uid, m, [x], env);
    FoldSingle(first.tables, x, ItemStep(uid, m, env));
    assert single == BatchRun(first.tables, [o]);
    var rest := ApplyBatch(first.tables, uid, m, s, env);
    var without := ApplyBatch(t, uid, m, p + s, env);
    assert without.outcomes == first.outcomes + rest.outcomes;
    assert without.outcomes[..|p|] == first.outcomes;
    assert without.outcomes[|p|..] == rest.outcomes;
  }

  /** The item carries upstream id `k` at its top level. */
  predicate Names(item: Json, k: int) {
    item.JObj? && Get(item.fields, "id") == JInt(k)
  }

  /** Row `k` of either mirrored table is the same in `after` as in `before`. */
  predicate KeepsRow(before: Tables, after: Tables, k: int) {
    && (k in before.assignments ==> k in after.assignments && after.assignments[k] == before.assignments[k])
    && (k in before.reviewStatistics ==>
          k in after.reviewStatistics && after.reviewStatistics[k] == before.reviewStatistics[k])
  }

  /** One iteration writes no row but the one its item names. */
  lemma ItemKeepsUnnamedRows(t: Tables, uid: int, m: Mirrored, item: Json, env: Env, k: int)
    requires !Names(item, k)
    ensures KeepsRow(t, ApplyItem(t, uid, m, item, env).0, k)
  {
    match Unwrap(item)
    case Err(_) =>
    case Ok(None) =>
    case Ok(Some(d)) =>
      assert Get(d, "id") != JInt(k);
  }

  lemma {:induction false} FoldKeepsUnnamedRows(t: Tables, items: seq<Json>, step: Step, k: int)
    requires forall u, x :: !Names(x, k) ==> KeepsRow(u, step(u, x).0, k)
    requires forall i :: 0 <= i < |items| ==> !Names(items[i], k)
    ensures KeepsRow(t, Fold(t, items, step).tables, k)
    decreases |items|
  {
    if items != [] {
      assert !Names(items[0], k);
      assert forall i :: 0 <= i < |items[1..]| ==> items[1..][i] == items[i + 1];
      FoldKeepsUnnamedRows(step(t, items[0]).0, items[1..], step, k);
    }
  }

  /** A record loop writes no row whose id none of its items carries: such
      rows, of either mirrored table, are kept as they were. */
  lemma BatchKeepsUnnamedRows(t: Tables, uid: int, m: Mirrored, items: seq<Json>, env: Env, k: int)
    requires forall i :: 0 <= i < |items| ==> !Names(items[i], k)
    ensures KeepsRow(t, ApplyBatch(t, uid, m, items, env).tables, k)
  {
    forall u, x | !Names(x, k)
      ensures KeepsRow(u, ItemStep(uid, m, env)(u, x).0, k)
    {
      ItemKeepsUnnamedRows(u, uid, m, x, env, k);
    }
    FoldKeepsUnnamedRows(t, items, ItemStep(uid, m, env), k);
  }

  /** Every filtered request in `requests` filters on `after`. */
  predicate FilteredOn(requests: seq<Request>, after: Option<Timestamp>) {
    forall i :: 0 <= i < |requests| && requests[i].params.Query? ==> requests[i].params == Query(after)
  }

  lemma FilteredConcat(r: Request, f: seq<Request>, g: seq<Request>, after: Option<Timestamp>)
    requires r.params == NoParams && FilteredOn(f, after) && FilteredOn(g, after)
    ensures FilteredOn([r] + (f + g), after)
  {
    var all := [r] + (f + g);
    forall i | 0 <= i < |all| && all[i].params.Query?
      ensures all[i].params == Query(after)
    {
      if 1 <= i < 1 + |f| {
        assert all[i] == f[i - 1];
      } else if i >= 1 + |f| {
        assert all[i] == g[i - 1 - |f|];
      }
    }
  }

  /** A run whose first request carries the filter on `after` and whose
      later requests carry no parameters filters only on `after`. */
  lemma FirstOnlyFiltered(requests: seq<Request>, after: Option<Timestamp>)
    requires |requests| >= 1 && requests[0].params == Query(after)
    requires forall i :: 1 <= i < |requests| ==> requests[i].params == NoParams
    ensures FilteredOn(requests, after)
  {
  }

  lemma CollectionWindow(base: string, c: Collection, after: Option<Timestamp>, replies: seq<Reply>)
    ensures FilteredOn(FetchCollection(base, c, after, replies).requests, after)
  {
    OnlyFirstRequestFiltered(base, replies, 0, Endpoint(c), Query(after));
    FirstOnlyFiltered(FetchCollection(base, c, after, replies).requests, after);
  }

  /** The requests of an attempt, with or without the collection calls,
      filter only on the caller's window. */
  lemma AttemptRequestsFiltered(base: string, window: Option<Timestamp>, up: Upstream)
    ensures var profile := Request(RequestUrl(base, "user"), NoParams);
      && FilteredOn([profile], window)
      && FilteredOn([profile] + (FetchCollection(base, Assignments, window, up.assignments).requests
                      + FetchCollection(base, ReviewStatistics, window, up.reviewStatistics).requests), window)
  {
    var profile := Request(RequestUrl(base, "user"), NoParams);
    CollectionWindow(base, Assignments, window, up.assignments);
    CollectionWindow(base, ReviewStatistics, window, up.reviewStatistics);
    FilteredConcat(profile, FetchCollection(base, Assignments, window, up.assignments).requests,
                   FetchCollection(base, ReviewStatistics, window, up.reviewStatistics).requests, window);
  }

  /** Both collection calls filter on the caller's copy of `last_sync`, never
      on the value the profile step has just written: every filtered request
      of an attempt carries the caller's timestamp. */
  lemma IncrementalWindow(store: Store, uid: int, window: Option<Timestamp>, up: Upstream, env: Env)
    ensures FilteredOn(SyncUser(store, uid, window, up, env).requests, window)
  {
    AttemptRequests(store, uid, window, up, env);
    AttemptRequestsFiltered(env.baseUrl, window, up);
  }

  /** The fault the as-written loop leaves behind when its first envelope is
      not an object. */
  function UnboundFault(m: Mirrored): Fault {
    UnboundName(if m == AssignmentRecords then "assignment_id" else "stats_id")
  }

  /** What the as-written loop loses: when the first envelope is not an object,
      none of the later records is written, although the isolated loop
      writes them as if the bad envelope were not there. */
  lemma AsWrittenLosesLaterRecords(t: Tables, uid: int, m: Mirrored, x: Json, rest: seq<Json>, env: Env)
    requires !x.JObj?
    ensures ApplyBatchAsWritten(t, uid, m, [x] + rest, env) == (t, FetchFailed(UnboundFault(m)))
    ensures var b := ApplyBatch(t, uid, m, [x] + rest, env);
      && b.tables == ApplyBatch(t, uid, m, rest, env).tables
      && b.outcomes == [Failed(NotAnObject)] + ApplyBatch(t, uid, m, rest, env).outcomes
  {
    FailedItemIsInert(t, uid, m, [], x, rest, env);
    assert [] + [x] + rest == [x] + rest;
    assert [] + rest == rest;
  }

  /** A new kanji assignment with id 5: subject 1, stage 1, no timestamps. */
  function SampleAssignment(): Json {
    JObj(map["id" := JInt(5), "data" := JObj(map[
      "subject_id" := JInt(1), "subject_type" := JStr("kanji"), "srs_stage" := JInt(1)])])
  }

  /** The body the sample's envelope unwraps to. */
  function SampleData(): Object {
    map["subject_id" := JInt(1), "subject_type" := JStr("kanji"), "srs_stage" := JInt(1), "id" := JInt(5)]
  }

  lemma SampleUnwraps()
    ensures Unwrap(SampleAssignment()) == Ok(Some(SampleData()))
  {
    var data := map["subject_id" := JInt(1), "subject_type" := JStr("kanji"), "srs_stage" := JInt(1)];
    assert data["id" := JInt(5)] == SampleData();
  }

  lemma SampleReadable(iso: IsoParser)
    ensures Get(SampleData(), "id") == JInt(5) && AssignmentInsertReadable(iso, SampleData())
  {
    assert ParseSubjectType("kanji") == Some(Kanji);
  }

  lemma SampleAssignmentApplies(t: Tables, env: Env)
    requires t.assignments == map[]
    ensures var r := ApplyItem(t, 7, AssignmentRecords, SampleAssignment(), env);
      r.1 == Applied && 5 in r.0.assignments
  {
    SampleUnwraps();
    SampleReadable(env.iso);
    var u := UpsertAssignment(t.assignments, 7, SampleData(), env.now, env.iso);
    assert u.Ok? && 5 in u.value;
  }

  /** A page whose first entry is null and whose second is a well-formed new
      assignment: the as-written loop stores nothing, the isolated loop stores
      the assignment. */
  lemma AsWrittenDropsAssignment(env: Env)
    ensures var t := Tables(map[], map[], map[], map[]);
      && ApplyBatchAsWritten(t, 7, AssignmentRecords, [JNull, SampleAssignment()], env).0.assignments == map[]
      && 5 in ApplyBatch(t, 7, AssignmentRecords, [JNull, SampleAssignment()], env).tables.assignments
  {
    var t := Tables(map[], map[], map[], map[]);
    AsWrittenLosesLaterRecords(t, 7, AssignmentRecords, JNull, [SampleAssignment()], env);
    assert [JNull] + [SampleAssignment()] == [JNull, SampleAssignment()];
    FoldSingle(t, SampleAssignment(), ItemStep(7, AssignmentRecords, env));
    SampleAssignmentApplies(t, env);
  }
}
