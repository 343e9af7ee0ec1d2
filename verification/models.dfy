/** The records the sync pipeline reads and writes, with their column
    defaults, and the three string enumerations they use. A record's primary
    key is not a field: every table is a map from the key to the row. */
module Models {
  import opened Base
  import opened Json

  // ---------------------------------------------------------------- enums

  datatype SubjectType = Radical | Kanji | Vocabulary | KanaVocabulary

  /** The string value the enumeration member stands for. */
  function SubjectTypeValue(t: SubjectType): string {
    match t
    case Radical => "radical"
    case Kanji => "kanji"
    case Vocabulary => "vocabulary"
    case KanaVocabulary => "kana_vocabulary"
  }

  /** `SubjectType(s)`: the member whose value is `s`, if any. */
  function ParseSubjectType(s: string): (r: Option<SubjectType>)
    ensures r.Some? ==> SubjectTypeValue(r.value) == s
    ensures forall t :: SubjectTypeValue(t) == s ==> r == Some(t)
  {
    if s == "radical" then Some(Radical)
    else if s == "kanji" then Some(Kanji)
    else if s == "vocabulary" then Some(Vocabulary)
    else if s == "kana_vocabulary" then Some(KanaVocabulary)
    else None
  }

  datatype SyncStatus = Success | Error | InProgress

  function SyncStatusValue(st: SyncStatus): string {
    match st
    case Success => "success"
    case Error => "error"
    case InProgress => "in_progress"
  }

  function ParseSyncStatus(s: string): (r: Option<SyncStatus>)
    ensures r.Some? ==> SyncStatusValue(r.value) == s
    ensures forall st :: SyncStatusValue(st) == s ==> r == Some(st)
  {
    if s == "success" then Some(Success)
    else if s == "error" then Some(Error)
    else if s == "in_progress" then Some(InProgress)
    else None
  }

  datatype SyncType = Full | Incremental | Manual

  function SyncTypeValue(t: SyncType): string {
    match t
    case Full => "full"
    case Incremental => "incremental"
    case Manual => "manual"
  }

  function ParseSyncType(s: string): (r: Option<SyncType>)
    ensures r.Some? ==> SyncTypeValue(r.value) == s
    ensures forall t :: SyncTypeValue(t) == s ==> r == Some(t)
  {
    if s == "full" then Some(Full)
    else if s == "incremental" then Some(Incremental)
    else if s == "manual" then Some(Manual)
    else None
  }

  /** Reading an enumeration column from a payload: `d[k]` must be one of the values. */
  function SubjectTypeField(d: Object, k: string): (r: Result<SubjectType, Fault>)
    ensures r.Ok? <==> Get(d, k).JStr? && ParseSubjectType(Get(d, k).s).Some?
    ensures r.Ok? ==> k in d && d[k] == JStr(SubjectTypeValue(r.value))
  {
    var v :- StringField(d, k);
    match ParseSubjectType(v)
    case Some(t) => Ok(t)
    case None => Err(UnknownSubjectType(v))
  }

  // ---------------------------------------------------------------- records

  /** A learner. Keyed by a store-assigned id. */
  datatype User = User(
    wanikaniApiKey: string,
    mcpApiKey: string,
    username: string,
    level: int,
    profileUrl: Option<string>,
    startedAt: Option<Timestamp>,
    subscriptionActive: bool,
    subscriptionType: Option<string>,
    subscriptionMaxLevelGranted: Option<int>,
    subscriptionPeriodEndsAt: Option<Timestamp>,
    createdAt: Timestamp,
    lastSync: Option<Timestamp>)

  /** A user row as registration creates it: every optional column unset. */
  function NewUser(wanikaniApiKey: string, mcpApiKey: string, username: string, level: int,
                   createdAt: Timestamp): (u: User)
    ensures u.lastSync == None && !u.subscriptionActive
    ensures u.profileUrl == None && u.startedAt == None
    ensures u.subscriptionType == None && u.subscriptionMaxLevelGranted == None
    ensures u.subscriptionPeriodEndsAt == None
    ensures u.username == username && u.level == level && u.createdAt == createdAt
  {
    User(wanikaniApiKey, mcpApiKey, username, level, None, None, false, None, None, None,
         createdAt, None)
  }

  /** The six lifecycle timestamps of an assignment; unset means "not yet"
      (for `availableAt`: available immediately). */
  datatype Lifecycle = Lifecycle(
    unlockedAt: Option<Timestamp>,
    startedAt: Option<Timestamp>,
    passedAt: Option<Timestamp>,
    burnedAt: Option<Timestamp>,
    availableAt: Option<Timestamp>,
    resurrectedAt: Option<Timestamp>)

  /** A user's progress on one subject. Keyed by the upstream assignment id. */
  datatype Assignment = Assignment(
    userId: int,
    subjectId: int,
    subjectType: SubjectType,
    srsStage: int,
    lifecycle: Lifecycle,
    hidden: bool,
    createdAt: Timestamp,
    dataUpdatedAt: Option<Timestamp>)

  function NewAssignment(userId: int, subjectId: int, subjectType: SubjectType, srsStage: int,
                         createdAt: Timestamp): (a: Assignment)
    ensures a.lifecycle == Lifecycle(None, None, None, None, None, None)
    ensures !a.hidden && a.dataUpdatedAt == None
    ensures a.userId == userId && a.subjectId == subjectId && a.subjectType == subjectType
    ensures a.srsStage == srsStage && a.createdAt == createdAt
  {
    Assignment(userId, subjectId, subjectType, srsStage,
               Lifecycle(None, None, None, None, None, None), false, createdAt, None)
  }

  /** The eight answer counters of a review statistic. */
  datatype Counters = Counters(
    meaningCorrect: int,
    meaningIncorrect: int,
    meaningMaxStreak: int,
    meaningCurrentStreak: int,
    readingCorrect: int,
    readingIncorrect: int,
    readingMaxStreak: int,
    readingCurrentStreak: int)

  /** A user's accuracy on one subject. Keyed by the upstream statistic id. */
  datatype ReviewStatistic = ReviewStatistic(
    userId: int,
    subjectId: int,
    subjectType: SubjectType,
    counters: Counters,
    percentageCorrect: int,
    hidden: bool,
    createdAt: Timestamp,
    dataUpdatedAt: Option<Timestamp>)

  function NewReviewStatistic(userId: int, subjectId: int, subjectType: SubjectType,
                              createdAt: Timestamp): (r: ReviewStatistic)
    ensures r.counters == Counters(0, 0, 0, 0, 0, 0, 0, 0)
    ensures r.percentageCorrect == 0 && !r.hidden && r.dataUpdatedAt == None
    ensures r.userId == userId && r.subjectId == subjectId && r.subjectType == subjectType
    ensures r.createdAt == createdAt
  {
    ReviewStatistic(userId, subjectId, subjectType, Counters(0, 0, 0, 0, 0, 0, 0, 0), 0, false,
                    createdAt, None)
  }

  /** A catalogue entry, shared by all users. Keyed by the upstream subject id.
      The JSON columns keep the payload's value as it came. */
  datatype Subject = Subject(
    objectType: SubjectType,
    level: int,
    slug: string,
    characters: Option<string>,
    meanings: Json,
    readings: Option<Json>,
    componentSubjectIds: Option<Json>,
    amalgamationSubjectIds: Option<Json>,
    documentUrl: string,
    hiddenAt: Option<Timestamp>,
    createdAt: Timestamp,
    dataUpdatedAt: Option<Timestamp>)

  /** The audit record of one sync attempt. Its id is its position in the log table. */
  datatype SyncLog = SyncLog(
    userId: int,
    syncType: SyncType,
    status: SyncStatus,
    recordsUpdated: int,
    errorMessage: Option<string>,
    startedAt: Timestamp,
    completedAt: Option<Timestamp>)

  function NewSyncLog(userId: int, syncType: SyncType, status: SyncStatus,
                      startedAt: Timestamp): (log: SyncLog)
    ensures log.recordsUpdated == 0 && log.errorMessage == None && log.completedAt == None
    ensures log.userId == userId && log.syncType == syncType && log.status == status
    ensures log.startedAt == startedAt
  {
    SyncLog(userId, syncType, status, 0, None, startedAt, None)
  }

  predicate Terminal(log: SyncLog) {
    log.status != InProgress
  }

  /** Closing a log after a normal run. */
  function Succeed(log: SyncLog, records: nat, at: Timestamp): (r: SyncLog)
    ensures Terminal(r) && r.status == Success
    ensures r.recordsUpdated == records && r.completedAt == Some(at)
    ensures r.userId == log.userId && r.syncType == log.syncType && r.startedAt == log.startedAt
    ensures r.errorMessage == log.errorMessage
  {
    log.(status := Success, recordsUpdated := records, completedAt := Some(at))
  }

  /** Closing a log after an escaped exception; the record count is left alone. */
  function Fail(log: SyncLog, message: string, at: Timestamp): (r: SyncLog)
    ensures Terminal(r) && r.status == Error
    ensures r.errorMessage == Some(message) && r.completedAt == Some(at)
    ensures r.userId == log.userId && r.syncType == log.syncType && r.startedAt == log.startedAt
    ensures r.recordsUpdated == log.recordsUpdated
  {
    log.(status := Error, errorMessage := Some(message), completedAt := Some(at))
  }
}
