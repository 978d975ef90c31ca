/** What the voucher-activity middleware and query handler share: the activity
    configuration (internal/config), the redemption record, the Redis hash each
    activity keeps its redemptions in, and the first-match search both run over
    the configured activities. */
module VoucherConfig {
  import opened Wrappers

  /** config.VoucherActivity. Instants are Unix times in nanoseconds; the
      credit amount is a float the core only carries along. */
  datatype Activity = Activity(
    keyword: string,
    startTime: int,
    endTime: int,
    totalQuota: int,
    creditAmount: real,
    voucherExpiryDays: int,
    expiredMessage: string,
    alreadyRedeemedMessage: string,
    quotaExhaustedMessage: string,
    successTemplate: string)

  /** config.VoucherActivityConfig. */
  datatype VoucherActivityConfig = VoucherActivityConfig(enabled: bool, activities: seq<Activity>)

  /** config.VoucherRedemptionRecord. */
  datatype RedemptionRecord = RedemptionRecord(userId: string, userName: string, voucherCode: string, redemptionTime: int)

  /** The Redis operations the two components issue, with their replies. */
  datatype Redis = Redis(
    getHashField: (string, string) -> Result<string, string>,
    hashLen: string -> Result<int, string>,
    getHash: string -> Result<map<string, string>, string>)

  const UsersKeyPrefix: string := "voucher:activity:"
  const UsersKeySuffix: string := ":users"

  /** The hash of an activity's redemptions, one field per user id. */
  function UsersKey(keyword: string): (k: string)
    ensures |k| == |UsersKeyPrefix| + |keyword| + |UsersKeySuffix|
    ensures k[|UsersKeyPrefix|..|UsersKeyPrefix| + |keyword|] == keyword
  {
    var k := UsersKeyPrefix + keyword + UsersKeySuffix;
    assert k[|UsersKeyPrefix|..|UsersKeyPrefix| + |keyword|] == keyword;
    k
  }

  /** Different keywords never share a redemption hash. */
  lemma UsersKeyInjective(a: string, b: string)
    requires UsersKey(a) == UsersKey(b)
    ensures a == b
  {
    assert |a| == |b|;
  }

  /** The first activity, in configuration order, that `matches` accepts. */
  function FirstMatching(activities: seq<Activity>, matches: Activity -> bool): (r: Option<nat>)
    ensures r.Some? ==> r.value < |activities| && matches(activities[r.value])
    ensures r.Some? ==> forall j :: 0 <= j < r.value ==> !matches(activities[j])
    ensures r.None? ==> forall j :: 0 <= j < |activities| ==> !matches(activities[j])
  {
    if activities == [] then None
    else if matches(activities[0]) then Some(0)
    else
      var rest := FirstMatching(activities[1..], matches);
      assert forall j :: 1 <= j < |activities| ==> activities[j] == activities[1..][j - 1];
      if rest.None? then None else Some(rest.value + 1)
  }

  /** The search loop both components run: scans the activities in order and
      stops at the first one `matches` accepts. */
  method FindActivity(activities: seq<Activity>, matches: Activity -> bool) returns (found: Option<nat>)
    ensures found == FirstMatching(activities, matches)
  {
    for i := 0 to |activities|
      invariant forall j :: 0 <= j < i ==> !matches(activities[j])
    {
      if matches(activities[i]) {
        FirstMatchingUnique(activities, matches, i);
        return Some(i);
      }
    }
    return None;
  }

  /** An accepted index preceded only by rejected ones is the first match. */
  lemma FirstMatchingUnique(activities: seq<Activity>, matches: Activity -> bool, i: nat)
    requires i < |activities| && matches(activities[i])
    requires forall j :: 0 <= j < i ==> !matches(activities[j])
    ensures FirstMatching(activities, matches) == Some(i)
  {
  }
}
