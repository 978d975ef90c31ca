/** The voucher-activity query handler of
    internal/api/handler/voucher_activity_handler.go: per-activity redemption
    figures read from Redis, the summary over all activities, and the lookup of
    one activity by keyword. */
module VoucherQuery {
  import opened Wrappers
  import opened VoucherConfig

  /** VoucherActivityQueryResponse. */
  datatype QueryResponse = QueryResponse(
    keyword: string,
    startTime: int,
    endTime: int,
    totalQuota: int,
    totalRedeemed: int,
    remainingQuota: int,
    creditAmount: real,
    redemptionRecords: seq<RedemptionRecord>,
    totalRedeemedUsers: int)

  /** VoucherActivitiesQueryResponse. */
  datatype SummaryResponse = SummaryResponse(
    activities: seq<QueryResponse>,
    totalActivities: int,
    totalRedeemed: int,
    totalRemainingQuota: int)

  /** The JSON body the handler answers with. */
  datatype QueryBody =
    | ErrorBody(message: string, kind: string)
    | Summary(summary: SummaryResponse)
    | Single(response: QueryResponse)

  const StatusOK: int := 200
  const StatusBadRequest: int := 400
  const StatusNotFound: int := 404
  const StatusInternalServerError: int := 500

  const NotConfigured: QueryBody := ErrorBody("Voucher activity is not configured", "config_error")
  const RedisFailure: QueryBody := ErrorBody("Failed to retrieve activity information", "redis_error")

  function NotFound(keyword: string): QueryBody {
    ErrorBody("Voucher activity not found with keyword: " + keyword, "not_found")
  }

  // ---------------------------------------------------------------------------
  // Per-activity figures
  // ---------------------------------------------------------------------------

  /** The number of users in the activity's hash; a failed lookup counts as 0. */
  function RedeemedCount(a: Activity, redis: Redis): int {
    match redis.hashLen(UsersKey(a.keyword))
    case Ok(n) => n
    case Err(_) => 0
  }

  /** The quota left, never below zero. */
  function RemainingQuota(totalQuota: int, redeemed: int): (r: int)
    ensures r >= 0 && r >= totalQuota - redeemed
    ensures r == 0 || r == totalQuota - redeemed
  {
    var remaining := totalQuota - redeemed;
    if remaining < 0 then 0 else remaining
  }

  /** The per-activity query succeeds exactly when the hash can be read. */
  predicate QueryOk(a: Activity, redis: Redis) {
    redis.getHash(UsersKey(a.keyword)).Ok?
  }

  /** The fields among `fields` whose value decodes as a redemption record. */
  function ParsedFields(users: map<string, string>, fields: set<string>,
                        parseRecord: string -> Option<RedemptionRecord>): set<string> {
    set f | f in fields && f in users && parseRecord(users[f]).Some?
  }

  /** `fs` lists every field of `users` whose value decodes, each once. */
  ghost predicate Enumerates(fs: seq<string>, users: map<string, string>,
                       parseRecord: string -> Option<RedemptionRecord>)
  {
    (forall i, j :: 0 <= i < j < |fs| ==> fs[i] != fs[j]) &&
    (forall f :: f in fs <==> f in users && parseRecord(users[f]).Some?)
  }

  /** `records[i]` is the decoding of field `fs[i]`. */
  predicate DecodingsOf(records: seq<RedemptionRecord>, fs: seq<string>, users: map<string, string>,
                        parseRecord: string -> Option<RedemptionRecord>)
  {
    |records| == |fs| &&
    forall i :: 0 <= i < |fs| ==> fs[i] in users && parseRecord(users[fs[i]]) == Some(records[i])
  }

  /** `records` holds exactly one record per field of `users` that decodes, in
      some order of the fields. */
  ghost predicate RecordsOf(records: seq<RedemptionRecord>, users: map<string, string>,
                      parseRecord: string -> Option<RedemptionRecord>)
  {
    exists fs :: Enumerates(fs, users, parseRecord) && DecodingsOf(records, fs, users, parseRecord)
  }

  /** There are as many records as fields that decode. */
  lemma RecordsCount(records: seq<RedemptionRecord>, users: map<string, string>,
                     parseRecord: string -> Option<RedemptionRecord>)
    requires RecordsOf(records, users, parseRecord)
    ensures |records| == |ParsedFields(users, users.Keys, parseRecord)|
  {
    var fs :| Enumerates(fs, users, parseRecord) && DecodingsOf(records, fs, users, parseRecord);
    EnumerationCount(fs, users, parseRecord);
  }

  /** An enumeration of the decodable fields is as long as their set. */
  lemma EnumerationCount(fs: seq<string>, users: map<string, string>,
                         parseRecord: string -> Option<RedemptionRecord>)
    requires Enumerates(fs, users, parseRecord)
    ensures |fs| == |ParsedFields(users, users.Keys, parseRecord)|
  {
    DistinctCardinality(fs);
    var listed := set f | f in fs;
    forall f ensures f in listed <==> f in ParsedFields(users, users.Keys, parseRecord) {
      assert f in fs <==> f in users && parseRecord(users[f]).Some?;
    }
    assert listed == ParsedFields(users, users.Keys, parseRecord);
  }

  /** A sequence without repetitions has as many elements as its set. */
  lemma {:induction false} DistinctCardinality(fs: seq<string>)
    requires forall i, j :: 0 <= i < j < |fs| ==> fs[i] != fs[j]
    ensures |set f | f in fs| == |fs|
  {
    if fs != [] {
      var last := fs[|fs| - 1];
      var init := fs[..|fs| - 1];
      DistinctCardinality(init);
      assert (set f | f in fs) == (set f | f in init) + {last};
      assert last !in (set f | f in init);
    }
  }

  /** `r` reports activity `a`: its configured data, its redeemed count and
      remaining quota, and the records of its hash that decode. */
  ghost predicate ReportsActivity(r: QueryResponse, a: Activity, redis: Redis, parseRecord: string -> Option<RedemptionRecord>)
  {
    QueryOk(a, redis) &&
    r.keyword == a.keyword && r.startTime == a.startTime && r.endTime == a.endTime &&
    r.totalQuota == a.totalQuota && r.creditAmount == a.creditAmount &&
    r.totalRedeemed == RedeemedCount(a, redis) &&
    r.remainingQuota == RemainingQuota(a.totalQuota, RedeemedCount(a, redis)) &&
    r.totalRedeemedUsers == |r.redemptionRecords| &&
    RecordsOf(r.redemptionRecords, redis.getHash(UsersKey(a.keyword)).value, parseRecord)
  }

  /** The loop's state after visiting the fields `done`: `fs` lists those
      that decode, each once, and `records` their decodings in that order. */
  ghost predicate Scanned(records: seq<RedemptionRecord>, fs: seq<string>, users: map<string, string>,
                          done: set<string>, parseRecord: string -> Option<RedemptionRecord>)
  {
    done <= users.Keys &&
    (forall i, j :: 0 <= i < j < |fs| ==> fs[i] != fs[j]) &&
    (forall f :: f in fs <==> f in done && f in users && parseRecord(users[f]).Some?) &&
    DecodingsOf(records, fs, users, parseRecord)
  }

  /** Visiting one more field keeps the loop's state consistent. */
  lemma ScanStep(records: seq<RedemptionRecord>, fs: seq<string>, users: map<string, string>, done: set<string>,
                 field: string, parseRecord: string -> Option<RedemptionRecord>)
    requires Scanned(records, fs, users, done, parseRecord)
    requires field in users && field !in done
    ensures parseRecord(users[field]).None? ==> Scanned(records, fs, users, done + {field}, parseRecord)
    ensures parseRecord(users[field]).Some? ==>
      Scanned(records + [parseRecord(users[field]).value], fs + [field], users, done + {field}, parseRecord)
  {
    if parseRecord(users[field]).Some? {
      assert field !in fs;
      var fs' := fs + [field];
      assert forall f :: f in fs' <==> f in fs || f == field;
    }
  }

  /** The loop over the hash's fields, in the map's unspecified order, keeping
      the values that decode. */
  method ParseRecords(users: map<string, string>, parseRecord: string -> Option<RedemptionRecord>)
    returns (records: seq<RedemptionRecord>)
    ensures RecordsOf(records, users, parseRecord)
  {
    records := [];
    var rest := users.Keys;
    ghost var done: set<string> := {};
    ghost var fs: seq<string> := [];
    while rest != {}
      invariant rest <= users.Keys && done == users.Keys - rest
      invariant Scanned(records, fs, users, done, parseRecord)
      decreases |rest|
    {
      var field :| field in rest;
      ScanStep(records, fs, users, done, field, parseRecord);
      var record := parseRecord(users[field]);
      rest := rest - {field};
      done := done + {field};
      if record.Some? {
        records := records + [record.value];
        fs := fs + [field];
      }
    }
    assert done == users.Keys;
    assert Enumerates(fs, users, parseRecord);
  }

  /** getActivityQueryResponse. */
  method GetActivityQueryResponse(activity: Activity, redis: Redis, parseRecord: string -> Option<RedemptionRecord>)
    returns (r: Result<QueryResponse, string>)
    ensures r.Err? <==> !QueryOk(activity, redis)
    ensures r.Err? ==> r.error == redis.getHash(UsersKey(activity.keyword)).error
    ensures r.Ok? ==> ReportsActivity(r.value, activity, redis, parseRecord)
  {
    var usersKey := UsersKey(activity.keyword);
    var userCount := redis.hashLen(usersKey);
    var totalRedeemed := if userCount.Ok? then userCount.value else 0;
    var remainingQuota := activity.totalQuota - totalRedeemed;
    if remainingQuota < 0 {
      remainingQuota := 0;
    }
    var usersData := redis.getHash(usersKey);
    if usersData.Err? {
      return Err(usersData.error);
    }
    var records := ParseRecords(usersData.value, parseRecord);
    return Ok(QueryResponse(activity.keyword, activity.startTime, activity.endTime, activity.totalQuota,
                            totalRedeemed, remainingQuota, activity.creditAmount, records, |records|));
  }

  // ---------------------------------------------------------------------------
  // The summary over all activities
  // ---------------------------------------------------------------------------

  /** The activities whose query succeeds, in configuration order. */
  function Kept(acts: seq<Activity>, redis: Redis): (r: seq<Activity>)
    ensures |r| <= |acts|
    ensures forall i :: 0 <= i < |r| ==> QueryOk(r[i], redis)
  {
    if acts == [] then []
    else
      var init := Kept(acts[..|acts| - 1], redis);
      if QueryOk(acts[|acts| - 1], redis) then init + [acts[|acts| - 1]] else init
  }

  function SumRedeemed(acts: seq<Activity>, redis: Redis): int {
    if acts == [] then 0 else SumRedeemed(acts[..|acts| - 1], redis) + RedeemedCount(acts[|acts| - 1], redis)
  }

  function SumRemaining(acts: seq<Activity>, redis: Redis): (n: int)
    ensures n >= 0
  {
    if acts == [] then 0
    else
      var a := acts[|acts| - 1];
      SumRemaining(acts[..|acts| - 1], redis) + RemainingQuota(a.totalQuota, RedeemedCount(a, redis))
  }

  function SumQuota(acts: seq<Activity>): int {
    if acts == [] then 0 else SumQuota(acts[..|acts| - 1]) + acts[|acts| - 1].totalQuota
  }

  /** `s` summarises the activities: one report per activity whose query
      succeeds, in order, and totals that sum those reports. */
  ghost predicate SummarisesActivities(s: SummaryResponse, acts: seq<Activity>, redis: Redis,
                                 parseRecord: string -> Option<RedemptionRecord>)
  {
    var kept := Kept(acts, redis);
    ReportsEach(s.activities, kept, redis, parseRecord) && s.totalActivities == |s.activities| &&
    s.totalRedeemed == SumRedeemed(kept, redis) &&
    s.totalRemainingQuota == SumRemaining(kept, redis)
  }

  /** One report per activity, position by position. */
  ghost predicate ReportsEach(responses: seq<QueryResponse>, kept: seq<Activity>, redis: Redis,
                        parseRecord: string -> Option<RedemptionRecord>)
  {
    |responses| == |kept| &&
    forall i :: 0 <= i < |kept| ==> ReportsActivity(responses[i], kept[i], redis, parseRecord)
  }

  /** The summary loop's state: reports and totals for the activities `kept`. */
  ghost predicate Summarised(responses: seq<QueryResponse>, totalRedeemed: int, totalRemainingQuota: int,
                       kept: seq<Activity>, redis: Redis, parseRecord: string -> Option<RedemptionRecord>)
  {
    ReportsEach(responses, kept, redis, parseRecord) &&
    totalRedeemed == SumRedeemed(kept, redis) && totalRemainingQuota == SumRemaining(kept, redis)
  }

  /** Appending one activity's report and adding its counts keeps the state. */
  lemma SummarisedSnoc(responses: seq<QueryResponse>, totalRedeemed: int, totalRemainingQuota: int,
                       kept: seq<Activity>, r: QueryResponse, a: Activity,
                       redis: Redis, parseRecord: string -> Option<RedemptionRecord>)
    requires Summarised(responses, totalRedeemed, totalRemainingQuota, kept, redis, parseRecord)
    requires ReportsActivity(r, a, redis, parseRecord)
    ensures Summarised(responses + [r], totalRedeemed + r.totalRedeemed, totalRemainingQuota + r.remainingQuota,
                       kept + [a], redis, parseRecord)
  {
    SumsOfSnoc(kept, a, redis);
  }

  /** Remaining plus redeemed covers the quota of every kept activity; it is
      exactly the quota when no activity is over-redeemed. */
  lemma {:induction false} TotalsCoverQuota(acts: seq<Activity>, redis: Redis)
    ensures SumRemaining(acts, redis) + SumRedeemed(acts, redis) >= SumQuota(acts)
    ensures (forall i :: 0 <= i < |acts| ==> RedeemedCount(acts[i], redis) <= acts[i].totalQuota) ==>
      SumRemaining(acts, redis) + SumRedeemed(acts, redis) == SumQuota(acts)
  {
    if acts != [] {
      var init := acts[..|acts| - 1];
      assert forall i :: 0 <= i < |init| ==> init[i] == acts[i];
      TotalsCoverQuota(init, redis);
    }
  }

  /** The summary loop: failed queries are skipped, the rest appended and
      added up. */
  method SummariseActivities(activities: seq<Activity>, redis: Redis, parseRecord: string -> Option<RedemptionRecord>)
    returns (s: SummaryResponse)
    ensures SummarisesActivities(s, activities, redis, parseRecord)
  {
    var responses: seq<QueryResponse> := [];
    var totalRedeemed := 0;
    var totalRemainingQuota := 0;
    ghost var kept: seq<Activity> := [];
    for i := 0 to |activities|
      invariant kept == Kept(activities[..i], redis)
      invariant Summarised(responses, totalRedeemed, totalRemainingQuota, kept, redis, parseRecord)
    {
      KeptOfPrefix(activities, i, redis);
      responses, totalRedeemed, totalRemainingQuota :=
        AddActivity(responses, totalRedeemed, totalRemainingQuota, kept, activities[i], redis, parseRecord);
      if QueryOk(activities[i], redis) {
        kept := kept + [activities[i]];
      }
    }
    assert activities[..|activities|] == activities;
    s := SummaryResponse(responses, |responses|, totalRedeemed, totalRemainingQuota);
  }

  /** One iteration of the summary loop: the activity's report is appended
      and its counts added, unless its query fails. */
  method AddActivity(responses: seq<QueryResponse>, totalRedeemed: int, totalRemainingQuota: int,
                     ghost kept: seq<Activity>, activity: Activity, redis: Redis,
                     parseRecord: string -> Option<RedemptionRecord>)
    returns (responses': seq<QueryResponse>, totalRedeemed': int, totalRemainingQuota': int)
    requires Summarised(responses, totalRedeemed, totalRemainingQuota, kept, redis, parseRecord)
    ensures !QueryOk(activity, redis) ==>
      responses' == responses && totalRedeemed' == totalRedeemed && totalRemainingQuota' == totalRemainingQuota
    ensures QueryOk(activity, redis) ==>
      Summarised(responses', totalRedeemed', totalRemainingQuota', kept + [activity], redis, parseRecord)
  {
    var response := GetActivityQueryResponse(activity, redis, parseRecord);
    if response.Err? {
      return responses, totalRedeemed, totalRemainingQuota;
    }
    SummarisedSnoc(responses, totalRedeemed, totalRemainingQuota, kept, response.value, activity, redis, parseRecord);
    responses' := responses + [response.value];
    totalRedeemed' := totalRedeemed + response.value.totalRedeemed;
    totalRemainingQuota' := totalRemainingQuota + response.value.remainingQuota;
  }

  lemma KeptOfPrefix(acts: seq<Activity>, i: nat, redis: Redis)
    requires i < |acts|
    ensures Kept(acts[..i + 1], redis) ==
      Kept(acts[..i], redis) + (if QueryOk(acts[i], redis) then [acts[i]] else [])
  {
    assert acts[..i + 1][..i] == acts[..i];
  }

  lemma SumsOfSnoc(kept: seq<Activity>, a: Activity, redis: Redis)
    ensures SumRedeemed(kept + [a], redis) == SumRedeemed(kept, redis) + RedeemedCount(a, redis)
    ensures SumRemaining(kept + [a], redis) == SumRemaining(kept, redis) + RemainingQuota(a.totalQuota, RedeemedCount(a, redis))
  {
    assert (kept + [a])[..|kept|] == kept;
  }

  // ---------------------------------------------------------------------------
  // VoucherActivityQueryHandler
  // ---------------------------------------------------------------------------

  /** VoucherActivityQueryHandler: the status and body answered for an
      optional keyword. */
  method VoucherActivityQueryHandler(config: Option<VoucherActivityConfig>, keyword: string, redis: Redis,
                                     parseRecord: string -> Option<RedemptionRecord>)
    returns (status: int, body: QueryBody)
    ensures config.None? ==> status == StatusBadRequest && body == NotConfigured
    ensures config.Some? && keyword == [] ==>
      status == StatusOK && body.Summary? && SummarisesActivities(body.summary, config.value.activities, redis, parseRecord)
    ensures config.Some? && keyword != [] ==>
      var found := FirstMatching(config.value.activities, (a: Activity) => a.keyword == keyword);
      (found.None? ==> status == StatusNotFound && body == NotFound(keyword)) &&
      (found.Some? && !QueryOk(config.value.activities[found.value], redis) ==>
        status == StatusInternalServerError && body == RedisFailure) &&
      (found.Some? && QueryOk(config.value.activities[found.value], redis) ==>
        status == StatusOK && body.Single? &&
        ReportsActivity(body.response, config.value.activities[found.value], redis, parseRecord))
  {
    if config.None? {
      return StatusBadRequest, NotConfigured;
    }
    var voucherConfig := config.value;
    if keyword == [] {
      if |voucherConfig.activities| == 0 {
        var empty := SummaryResponse([], 0, 0, 0);
        assert SummarisesActivities(empty, voucherConfig.activities, redis, parseRecord);
        return StatusOK, Summary(empty);
      }
      var summary := SummariseActivities(voucherConfig.activities, redis, parseRecord);
      return StatusOK, Summary(summary);
    }
    var matched := FindActivity(voucherConfig.activities, (a: Activity) => a.keyword == keyword);
    if matched.None? {
      return StatusNotFound, NotFound(keyword);
    }
    var response := GetActivityQueryResponse(voucherConfig.activities[matched.value], redis, parseRecord);
    if response.Err? {
      return StatusInternalServerError, RedisFailure;
    }
    return StatusOK, Single(response.value);
  }
}
