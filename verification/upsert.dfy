/** The three upsert mappers. Each turns one payload into one row of a table
    keyed by the upstream id: it overwrites the row when the id is present
    and creates it when it is not. A mapper that raises leaves its table as it
    was (the session is never committed). */
module Upsert {
  import opened Base
  import opened Json
  import opened Models
  import Text

  // ---------------------------------------------------------------- payload readings

  /** The six lifecycle timestamps of a payload are all readable. */
  predicate LifecycleReadable(iso: IsoParser, d: Object) {
    && TimeReadable(iso, d, "unlocked_at")
    && TimeReadable(iso, d, "started_at")
    && TimeReadable(iso, d, "passed_at")
    && TimeReadable(iso, d, "burned_at")
    && TimeReadable(iso, d, "available_at")
    && TimeReadable(iso, d, "resurrected_at")
  }

  /** `l` holds what the payload says for each lifecycle timestamp. */
  predicate LifecycleFrom(iso: IsoParser, d: Object, l: Lifecycle) {
    && TimeFrom(iso, d, "unlocked_at", l.unlockedAt)
    && TimeFrom(iso, d, "started_at", l.startedAt)
    && TimeFrom(iso, d, "passed_at", l.passedAt)
    && TimeFrom(iso, d, "burned_at", l.burnedAt)
    && TimeFrom(iso, d, "available_at", l.availableAt)
    && TimeFrom(iso, d, "resurrected_at", l.resurrectedAt)
  }

  function ParseLifecycle(iso: IsoParser, d: Object): (r: Result<Lifecycle, Fault>)
    ensures r.Ok? <==> LifecycleReadable(iso, d)
    ensures r.Ok? ==> LifecycleFrom(iso, d, r.value)
  {
    var unlocked :- OptionalTime(iso, d, "unlocked_at");
    var started :- OptionalTime(iso, d, "started_at");
    var passed :- OptionalTime(iso, d, "passed_at");
    var burned :- OptionalTime(iso, d, "burned_at");
    var available :- OptionalTime(iso, d, "available_at");
    var resurrected :- OptionalTime(iso, d, "resurrected_at");
    Ok(Lifecycle(unlocked, started, passed, burned, available, resurrected))
  }

  /** `hidden` as `d.get("hidden", False)` reads it: false when absent. */
  predicate HiddenFrom(d: Object, hidden: bool) {
    if "hidden" in d then d["hidden"] == JBool(hidden) else !hidden
  }

  /** What updating an assignment reads: the stage, the timestamps, the flag. */
  predicate AssignmentUpdateReadable(iso: IsoParser, d: Object) {
    Get(d, "srs_stage").JInt? && LifecycleReadable(iso, d) && ("hidden" !in d || d["hidden"].JBool?)
  }

  /** What creating an assignment reads in addition. */
  predicate AssignmentInsertReadable(iso: IsoParser, d: Object) {
    && Get(d, "subject_id").JInt?
    && Get(d, "subject_type").JStr? && ParseSubjectType(Get(d, "subject_type").s).Some?
    && AssignmentUpdateReadable(iso, d)
  }

  /** The overwritten part of an assignment row matches the payload. */
  predicate AssignmentProgressFrom(iso: IsoParser, d: Object, a: Assignment, now: Timestamp) {
    && Get(d, "srs_stage") == JInt(a.srsStage)
    && LifecycleFrom(iso, d, a.lifecycle)
    && HiddenFrom(d, a.hidden)
    && a.dataUpdatedAt == Some(now)
  }

  /** The truthy integer id of a payload, as the key its row is stored under. */
  predicate KeyedBy(d: Object, key: int) {
    Get(d, "id") == JInt(key) && key != 0
  }

  // ---------------------------------------------------------------- assignments

  /** `_upsert_assignment`. An absent or falsy id is skipped. Updating writes
      the stage, the six timestamps (unset when the payload has none), the
      hidden flag (false when absent) and the local update stamp; creating
      also takes the owner, the subject id and the subject type. */
  function UpsertAssignment(table: map<int, Assignment>, userId: int, d: Object, now: Timestamp,
                            iso: IsoParser): (r: Result<map<int, Assignment>, Fault>)
    ensures !Truthy(Get(d, "id")) ==> r == Ok(table)
    ensures Truthy(Get(d, "id")) ==>
      (r.Ok? <==> Get(d, "id").JInt?
                  && (Get(d, "id").i in table ==> AssignmentUpdateReadable(iso, d))
                  && (Get(d, "id").i !in table ==> AssignmentInsertReadable(iso, d)))
    ensures r.Ok? ==> forall k :: k in table && !KeyedBy(d, k) ==> k in r.value && r.value[k] == table[k]
    ensures r.Ok? && Truthy(Get(d, "id")) ==>
      var key := Get(d, "id").i;
      && r.value.Keys == table.Keys + {key}
      && AssignmentProgressFrom(iso, d, r.value[key], now)
      && (key in table ==>
            && r.value[key].userId == table[key].userId
            && r.value[key].subjectId == table[key].subjectId
            && r.value[key].subjectType == table[key].subjectType
            && r.value[key].createdAt == table[key].createdAt)
      && (key !in table ==>
            && r.value[key].userId == userId
            && Get(d, "subject_id") == JInt(r.value[key].subjectId)
            && Get(d, "subject_type") == JStr(SubjectTypeValue(r.value[key].subjectType))
            && r.value[key].createdAt == now)
  {
    var id := Get(d, "id");
    if !Truthy(id) then Ok(table)
    else if !id.JInt? then Err(TypeMismatch("id"))
    else if id.i in table then
      var stage :- IntField(d, "srs_stage");
      var lifecycle :- ParseLifecycle(iso, d);
      var hidden :- FlagOrFalse(d, "hidden");
      Ok(table[id.i := table[id.i].(srsStage := stage, lifecycle := lifecycle, hidden := hidden,
                                    dataUpdatedAt := Some(now))])
    else
      var subjectId :- IntField(d, "subject_id");
      var subjectType :- SubjectTypeField(d, "subject_type");
      var stage :- IntField(d, "srs_stage");
      var lifecycle :- ParseLifecycle(iso, d);
      var hidden :- FlagOrFalse(d, "hidden");
      Ok(table[id.i := NewAssignment(userId, subjectId, subjectType, stage, now)
                         .(lifecycle := lifecycle, hidden := hidden, dataUpdatedAt := Some(now))])
  }

  /** Replaying an assignment payload gives the row the first application
      gave, with only the local update stamp moved to the replay's clock. */
  lemma AssignmentReplay(table: map<int, Assignment>, userId: int, d: Object, t1: Timestamp,
                         t2: Timestamp, iso: IsoParser)
    requires UpsertAssignment(table, userId, d, t1, iso).Ok?
    ensures var once := UpsertAssignment(table, userId, d, t1, iso).value;
      UpsertAssignment(once, userId, d, t2, iso)
        == if Truthy(Get(d, "id"))
           then Ok(once[Get(d, "id").i := once[Get(d, "id").i].(dataUpdatedAt := Some(t2))])
           else Ok(once)
  {
    var once := UpsertAssignment(table, userId, d, t1, iso).value;
    if Truthy(Get(d, "id")) {
      var key := Get(d, "id").i;
      assert key in once;
      assert AssignmentUpdateReadable(iso, d);
      var twice := UpsertAssignment(once, userId, d, t2, iso).value;
      var expected := once[key := once[key].(dataUpdatedAt := Some(t2))];
      LifecycleDetermined(iso, d, once[key].lifecycle, twice[key].lifecycle);
      assert twice[key] == expected[key];
      assert twice == expected;
    }
  }

  /** The payload fixes the lifecycle timestamps. */
  lemma LifecycleDetermined(iso: IsoParser, d: Object, l1: Lifecycle, l2: Lifecycle)
    requires LifecycleFrom(iso, d, l1) && LifecycleFrom(iso, d, l2)
    ensures l1 == l2
  {
  }

  // ---------------------------------------------------------------- review statistics

  /** The eight answer counters of a payload are all integers. */
  predicate CountersReadable(d: Object) {
    && Get(d, "meaning_correct").JInt? && Get(d, "meaning_incorrect").JInt?
    && Get(d, "meaning_max_streak").JInt? && Get(d, "meaning_current_streak").JInt?
    && Get(d, "reading_correct").JInt? && Get(d, "reading_incorrect").JInt?
    && Get(d, "reading_max_streak").JInt? && Get(d, "reading_current_streak").JInt?
  }

  /** A required timestamp `d[k]` is text the parser accepts. */
  predicate RequiredTimeReadable(iso: IsoParser, d: Object, k: string) {
    k in d && d[k].JStr? && iso(Text.NormalizeZ(d[k].s)).Some?
  }

  /** What updating a statistic reads: the counters, the percentage, the
      flag (required here, unlike for assignments) and the upstream stamp. */
  predicate StatisticUpdateReadable(iso: IsoParser, d: Object) {
    && CountersReadable(d)
    && Get(d, "percentage_correct").JInt?
    && Get(d, "hidden").JBool?
    && RequiredTimeReadable(iso, d, "data_updated_at")
  }

  /** What creating a statistic reads in addition. */
  predicate StatisticInsertReadable(iso: IsoParser, d: Object) {
    && Get(d, "subject_id").JInt?
    && Get(d, "subject_type").JStr? && ParseSubjectType(Get(d, "subject_type").s).Some?
    && StatisticUpdateReadable(iso, d)
  }

  function ParseCounters(d: Object): (r: Result<Counters, Fault>)
    ensures r.Ok? <==> CountersReadable(d)
    ensures r.Ok? ==>
      && Get(d, "meaning_correct") == JInt(r.value.meaningCorrect)
      && Get(d, "meaning_incorrect") == JInt(r.value.meaningIncorrect)
      && Get(d, "meaning_max_streak") == JInt(r.value.meaningMaxStreak)
      && Get(d, "meaning_current_streak") == JInt(r.value.meaningCurrentStreak)
      && Get(d, "reading_correct") == JInt(r.value.readingCorrect)
      && Get(d, "reading_incorrect") == JInt(r.value.readingIncorrect)
      && Get(d, "reading_max_streak") == JInt(r.value.readingMaxStreak)
      && Get(d, "reading_current_streak") == JInt(r.value.readingCurrentStreak)
  {
    var meaningCorrect :- IntField(d, "meaning_correct");
    var meaningIncorrect :- IntField(d, "meaning_incorrect");
    var meaningMaxStreak :- IntField(d, "meaning_max_streak");
    var meaningCurrentStreak :- IntField(d, "meaning_current_streak");
    var readingCorrect :- IntField(d, "reading_correct");
    var readingIncorrect :- IntField(d, "reading_incorrect");
    var readingMaxStreak :- IntField(d, "reading_max_streak");
    var readingCurrentStreak :- IntField(d, "reading_current_streak");
    Ok(Counters(meaningCorrect, meaningIncorrect, meaningMaxStreak, meaningCurrentStreak,
                readingCorrect, readingIncorrect, readingMaxStreak, readingCurrentStreak))
  }

  /** The overwritten part of a statistic row matches the payload, the
      update stamp included. */
  predicate StatisticFrom(iso: IsoParser, d: Object, s: ReviewStatistic) {
    && ParseCounters(d) == Ok(s.counters)
    && Get(d, "percentage_correct") == JInt(s.percentageCorrect)
    && Get(d, "hidden") == JBool(s.hidden)
    && "data_updated_at" in d && d["data_updated_at"].JStr?
    && s.dataUpdatedAt == iso(Text.NormalizeZ(d["data_updated_at"].s))
    && s.dataUpdatedAt.Some?
  }

  /** `_upsert_review_statistic`: the id is required (not merely truthy);
      every counter, the percentage, the flag and the upstream update stamp
      come from the payload. */
  function UpsertReviewStatistic(table: map<int, ReviewStatistic>, userId: int, d: Object,
                                 now: Timestamp, iso: IsoParser): (r: Result<map<int, ReviewStatistic>, Fault>)
    ensures r.Ok? <==>
      && Get(d, "id").JInt?
      && (Get(d, "id").i in table ==> StatisticUpdateReadable(iso, d))
      && (Get(d, "id").i !in table ==> StatisticInsertReadable(iso, d))
    ensures r.Ok? ==> Get(d, "id").JInt? && r.value.Keys == table.Keys + {Get(d, "id").i}
    ensures r.Ok? ==> forall k :: k in table && Get(d, "id") != JInt(k) ==> r.value[k] == table[k]
    ensures r.Ok? ==>
      var key := Get(d, "id").i;
      && StatisticFrom(iso, d, r.value[key])
      && (key in table ==>
            && r.value[key].userId == table[key].userId
            && r.value[key].subjectId == table[key].subjectId
            && r.value[key].subjectType == table[key].subjectType
            && r.value[key].createdAt == table[key].createdAt)
      && (key !in table ==>
            && r.value[key].userId == userId
            && Get(d, "subject_id") == JInt(r.value[key].subjectId)
            && Get(d, "subject_type") == JStr(SubjectTypeValue(r.value[key].subjectType))
            && r.value[key].createdAt == now)
    ensures "id" !in d ==> r == Err(KeyMissing("id"))
  {
    var id :- Field(d, "id");
    if !id.JInt? then Err(TypeMismatch("id"))
    else if id.i in table then
      var counters :- ParseCounters(d);
      var percentage :- IntField(d, "percentage_correct");
      var hidden :- BoolField(d, "hidden");
      var updated :- RequiredTime(iso, d, "data_updated_at");
      Ok(table[id.i := table[id.i].(counters := counters, percentageCorrect := percentage,
                                    hidden := hidden, dataUpdatedAt := Some(updated))])
    else
      var subjectId :- IntField(d, "subject_id");
      var subjectType :- SubjectTypeField(d, "subject_type");
      var counters :- ParseCounters(d);
      var percentage :- IntField(d, "percentage_correct");
      var hidden :- BoolField(d, "hidden");
      var updated :- RequiredTime(iso, d, "data_updated_at");
      Ok(table[id.i := NewReviewStatistic(userId, subjectId, subjectType, now)
                         .(counters := counters, percentageCorrect := percentage, hidden := hidden,
                           dataUpdatedAt := Some(updated))])
  }

  /** Replaying a statistic payload changes nothing, whatever the clock. */
  lemma ReviewStatisticReplay(table: map<int, ReviewStatistic>, userId: int, d: Object,
                              t1: Timestamp, t2: Timestamp, iso: IsoParser)
    requires UpsertReviewStatistic(table, userId, d, t1, iso).Ok?
    ensures var once := UpsertReviewStatistic(table, userId, d, t1, iso).value;
      UpsertReviewStatistic(once, userId, d, t2, iso) == Ok(once)
  {
    var once := UpsertReviewStatistic(table, userId, d, t1, iso).value;
    var key := Get(d, "id").i;
    assert key in once;
    var twice := UpsertReviewStatistic(once, userId, d, t2, iso);
    assert ParseCounters(d).Ok? && IntField(d, "percentage_correct").Ok?;
    assert BoolField(d, "hidden").Ok? && RequiredTime(iso, d, "data_updated_at").Ok?;
    assert twice.Ok?;
    assert twice.value[key] == once[key];
    assert twice.value == once;
  }

  // ---------------------------------------------------------------- subjects

  /** The catalogue fields an update of a subject writes match the payload. */
  predicate SubjectContentFrom(iso: IsoParser, d: Object, s: Subject) {
    && Get(d, "level") == JInt(s.level)
    && Get(d, "slug") == JStr(s.slug)
    && OptionalString(d, "characters") == Ok(s.characters)
    && "meanings" in d && d["meanings"] == s.meanings
    && OptionalJson(d, "readings") == s.readings
    && OptionalJson(d, "component_subject_ids") == s.componentSubjectIds
    && OptionalJson(d, "amalgamation_subject_ids") == s.amalgamationSubjectIds
    && Get(d, "document_url") == JStr(s.documentUrl)
    && RequiredTime(iso, d, "data_updated_at").Ok?
    && s.dataUpdatedAt == Some(RequiredTime(iso, d, "data_updated_at").value)
  }

  /** What either branch of a subject upsert reads: `level`, `slug`,
      `meanings` and `document_url` are required, `characters` is null or
      text when present, and both timestamps are readable. */
  predicate SubjectContentReadable(iso: IsoParser, d: Object) {
    && Get(d, "level").JInt?
    && Get(d, "slug").JStr?
    && (Get(d, "characters").JNull? || Get(d, "characters").JStr?)
    && "meanings" in d
    && Get(d, "document_url").JStr?
    && RequiredTimeReadable(iso, d, "data_updated_at")
    && TimeReadable(iso, d, "hidden_at")
  }

  /** `_upsert_subject`. Creating takes the object type and leaves `hiddenAt`
      unset unless the payload has one; updating keeps the object type and
      never clears `hiddenAt`, only replacing it when the payload has one. */
  function UpsertSubject(table: map<int, Subject>, d: Object, now: Timestamp, iso: IsoParser)
    : (r: Result<map<int, Subject>, Fault>)
    ensures r.Ok? <==>
      && Get(d, "id").JInt?
      && (Get(d, "id").i !in table ==> Get(d, "object").JStr? && ParseSubjectType(Get(d, "object").s).Some?)
      && SubjectContentReadable(iso, d)
    ensures "id" !in d ==> r == Err(KeyMissing("id"))
    ensures r.Ok? ==> Get(d, "id").JInt? && r.value.Keys == table.Keys + {Get(d, "id").i}
    ensures r.Ok? ==> forall k :: k in table && Get(d, "id") != JInt(k) ==> r.value[k] == table[k]
    ensures r.Ok? ==>
      var key := Get(d, "id").i;
      && SubjectContentFrom(iso, d, r.value[key])
      && (key in table ==>
            && r.value[key].objectType == table[key].objectType
            && r.value[key].createdAt == table[key].createdAt
            && (if Truthy(Get(d, "hidden_at")) then TimeFrom(iso, d, "hidden_at", r.value[key].hiddenAt)
                else r.value[key].hiddenAt == table[key].hiddenAt))
      && (key !in table ==>
            && Get(d, "object") == JStr(SubjectTypeValue(r.value[key].objectType))
            && TimeFrom(iso, d, "hidden_at", r.value[key].hiddenAt)
            && r.value[key].createdAt == now)
  {
    var id :- IntField(d, "id");
    if id in table then
      var level :- IntField(d, "level");
      var slug :- StringField(d, "slug");
      var characters :- OptionalString(d, "characters");
      var meanings :- Field(d, "meanings");
      var documentUrl :- StringField(d, "document_url");
      var updated :- RequiredTime(iso, d, "data_updated_at");
      var hiddenAt :- OptionalTime(iso, d, "hidden_at");
      var prior := table[id];
      Ok(table[id := prior.(level := level, slug := slug, characters := characters, meanings := meanings,
                          readings := OptionalJson(d, "readings"),
                          componentSubjectIds := OptionalJson(d, "component_subject_ids"),
                          amalgamationSubjectIds := OptionalJson(d, "amalgamation_subject_ids"),
                          documentUrl := documentUrl, dataUpdatedAt := Some(updated),
                          hiddenAt := if hiddenAt.Some? then hiddenAt else prior.hiddenAt)])
    else
      var objectType :- SubjectTypeField(d, "object");
      var level :- IntField(d, "level");
      var slug :- StringField(d, "slug");
      var characters :- OptionalString(d, "characters");
      var meanings :- Field(d, "meanings");
      var documentUrl :- StringField(d, "document_url");
      var updated :- RequiredTime(iso, d, "data_updated_at");
      var hiddenAt :- OptionalTime(iso, d, "hidden_at");
      Ok(table[id := Subject(objectType, level, slug, characters, meanings, OptionalJson(d, "readings"),
                             OptionalJson(d, "component_subject_ids"),
                             OptionalJson(d, "amalgamation_subject_ids"), documentUrl, hiddenAt, now,
                             Some(updated))])
  }

  /** An update never clears a subject's hidden-at stamp. */
  lemma SubjectHiddenAtSticks(table: map<int, Subject>, d: Object, now: Timestamp, iso: IsoParser, key: int)
    requires key in table && table[key].hiddenAt.Some?
    requires UpsertSubject(table, d, now, iso).Ok?
    ensures UpsertSubject(table, d, now, iso).value[key].hiddenAt.Some?
  {
  }

  /** Replaying a subject payload changes nothing, whatever the clock. */
  lemma SubjectReplay(table: map<int, Subject>, d: Object, t1: Timestamp, t2: Timestamp, iso: IsoParser)
    requires UpsertSubject(table, d, t1, iso).Ok?
    ensures var once := UpsertSubject(table, d, t1, iso).value;
      UpsertSubject(once, d, t2, iso) == Ok(once)
  {
    var once := UpsertSubject(table, d, t1, iso).value;
    var key := Get(d, "id").i;
    assert key in once;
    var twice := UpsertSubject(once, d, t2, iso);
    assert OptionalTime(iso, d, "hidden_at").Ok?;
    assert twice.Ok?;
    assert twice.value[key] == once[key];
    assert twice.value == once;
  }
}
