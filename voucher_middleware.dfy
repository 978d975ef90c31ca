/** The decision procedure of internal/api/middleware/voucher_activity.go: a
    chat request whose last message names an activity's keyword is answered
    with a voucher (or with why none is given) instead of reaching the model.
    Reading the request, Redis, the voucher generator, JSON encoding and the
    clock are inputs; the middleware's effects are its outcome: pass the
    request on, or answer it and stop, possibly after writing one redemption
    record. */
module VoucherMiddleware {
  import opened Wrappers
  import opened GoStrings
  import opened Messages
  import opened VoucherConfig

  const TitleRequestMarker: string := "Generate a title for this conversation"
  const VoucherGiverName: string := "admin"

  /** time.Duration of one day, in nanoseconds. */
  const Day: int := 24 * 60 * 60 * 1_000_000_000
  /** Redemption records outlive the activity by fifteen days. */
  const RecordRetention: int := 15 * Day

  datatype UserInfo = UserInfo(uuid: string, name: string)
  datatype Identity = Identity(clientIde: string, userInfo: Option<UserInfo>)

  /** service.VoucherData, with its single quota item flattened. */
  datatype VoucherData = VoucherData(giverId: string, giverName: string, receiverId: string,
                                     amount: real, expiryDate: int)

  /** The request as the middleware sees it: the activity configuration, the
      identity found in the context, the decoded messages (or why the body
      could not be read or decoded) and the current instant. */
  datatype Request = Request(config: Option<VoucherActivityConfig>, identity: Option<Identity>,
                             messages: Result<seq<Message>, string>, now: int)

  /** The collaborators: fmt's "%v" rendering of message content, Redis, the
      voucher generator, JSON encoding and decoding of a redemption record,
      and time.AddDate by whole days. */
  datatype Services = Services(
    render: Content -> string,
    redis: Redis,
    generate: VoucherData -> Result<string, string>,
    marshal: RedemptionRecord -> Result<string, string>,
    parseRecord: string -> Option<RedemptionRecord>,
    addDays: (int, int) -> int)

  /** The template and data of the SSE message sent back. */
  datatype Reply = Reply(template: string, activity: Activity, currentTime: int, voucherCode: Option<string>)

  /** HSET of one redemption record, with its time to live. */
  datatype StoreWrite = StoreWrite(key: string, field: string, value: string, ttl: int)

  /** c.Next(), or a reply followed by c.Abort(). */
  datatype Outcome = Next | Abort(reply: Reply, write: Option<StoreWrite>)

  /** The CLI's automatic title request: three messages, the second asking for
      a title. */
  predicate TitleRequest(ms: seq<Message>, render: Content -> string) {
    |ms| == 3 && Contains(render(ms[1].content), TitleRequestMarker)
  }

  /** An activity is named by a message that contains its keyword on a line of
      its own, or that is exactly the keyword. */
  predicate KeywordMatches(a: Activity, userMessage: string) {
    Contains(userMessage, "\n" + a.keyword + "\n") || userMessage == a.keyword
  }

  function GiverId(keyword: string): string {
    "《" + keyword + "》活动"
  }

  /** The activity the request's last message names, if the middleware gets as
      far as looking. */
  function MatchedActivity(req: Request, svc: Services): Option<Activity> {
    if req.config.None? || !req.config.value.enabled || req.identity.None? || req.identity.value.userInfo.None?
      || req.messages.Err? || |req.messages.value| == 0 || TitleRequest(req.messages.value, svc.render)
    then None
    else
      var ms := req.messages.value;
      var userMessage := svc.render(ms[|ms| - 1].content);
      var acts := req.config.value.activities;
      match FirstMatching(acts, a => KeywordMatches(a, userMessage))
      case None => None
      case Some(i) => Some(acts[i])
  }

  /** The user's stored redemption record, when Redis returns a non-empty one. */
  predicate HoldsRecord(a: Activity, user: UserInfo, svc: Services) {
    var rec := svc.redis.getHashField(UsersKey(a.keyword), user.uuid);
    rec.Ok? && rec.value != []
  }

  /** The voucher code shown to a user who already redeemed: the stored
      record's code, or "" when the record does not decode. */
  function StoredCode(a: Activity, user: UserInfo, svc: Services): string
    requires HoldsRecord(a, user, svc)
  {
    match svc.parseRecord(svc.redis.getHashField(UsersKey(a.keyword), user.uuid).value)
    case Some(rec) => rec.voucherCode
    case None => []
  }

  /** The number of redemptions so far; a failing lookup counts as none. */
  function UserCount(a: Activity, svc: Services): int {
    match svc.redis.hashLen(UsersKey(a.keyword)) case Ok(n) => n case Err(_) => 0
  }

  /** What the voucher generator is asked for on behalf of `user`. */
  function VoucherRequest(a: Activity, user: UserInfo, now: int, svc: Services): VoucherData {
    VoucherData(GiverId(a.keyword), VoucherGiverName, user.uuid, a.creditAmount,
                svc.addDays(now, a.voucherExpiryDays))
  }

  /** Steps 7 to 11, once the activity is running: a user already holding a
      voucher is told so, an exhausted quota is reported, otherwise a voucher is
      generated, its record stored, and the success message sent. */
  function Redeem(a: Activity, user: UserInfo, now: int, svc: Services): (r: Outcome)
    ensures user.uuid == [] ==> r == Next
    ensures user.uuid != [] && HoldsRecord(a, user, svc) ==>
      r == Abort(Reply(a.alreadyRedeemedMessage, a, now, Some(StoredCode(a, user, svc))), None)
    ensures user.uuid != [] && !HoldsRecord(a, user, svc) && UserCount(a, svc) >= a.totalQuota ==>
      r == Abort(Reply(a.quotaExhaustedMessage, a, now, None), None)
    ensures user.uuid != [] && !HoldsRecord(a, user, svc) && UserCount(a, svc) < a.totalQuota ==>
      (r.Next? <==> svc.generate(VoucherRequest(a, user, now, svc)).Err? ||
                    svc.marshal(RedemptionRecord(user.uuid, user.name, svc.generate(VoucherRequest(a, user, now, svc)).value, now)).Err?)
    ensures user.uuid != [] && !HoldsRecord(a, user, svc) && UserCount(a, svc) < a.totalQuota && r.Abort? ==>
      var code := svc.generate(VoucherRequest(a, user, now, svc)).value;
      r.reply == Reply(a.successTemplate, a, now, Some(code)) &&
      r.write == Some(StoreWrite(UsersKey(a.keyword), user.uuid,
                                 svc.marshal(RedemptionRecord(user.uuid, user.name, code, now)).value,
                                 a.endTime - now + RecordRetention))
    ensures r.Abort? ==> r.reply.activity == a && r.reply.currentTime == now
    ensures r.Abort? && r.write.None? ==> r.reply.template in {a.alreadyRedeemedMessage, a.quotaExhaustedMessage}
    ensures r.Abort? && r.write.Some? ==>
      user.uuid != [] && r.reply.template == a.successTemplate &&
      r.write.value.key == UsersKey(a.keyword) && r.write.value.field == user.uuid &&
      r.write.value.ttl == a.endTime - now + RecordRetention
    ensures r.Abort? && r.write.Some? ==>
      r.reply.voucherCode.Some? &&
      svc.generate(VoucherData(GiverId(a.keyword), VoucherGiverName, user.uuid, a.creditAmount,
                               svc.addDays(now, a.voucherExpiryDays))) == Ok(r.reply.voucherCode.value)
  {
    var userId := user.uuid;
    if userId == [] then Next
    else
      var usersKey := UsersKey(a.keyword);
      var redeemed := svc.redis.getHashField(usersKey, userId);
      if redeemed.Ok? && redeemed.value != [] then
        var code := match svc.parseRecord(redeemed.value) case Some(rec) => rec.voucherCode case None => [];
        Abort(Reply(a.alreadyRedeemedMessage, a, now, Some(code)), None)
      else
        var userCount := match svc.redis.hashLen(usersKey) case Ok(n) => n case Err(_) => 0;
        if userCount >= a.totalQuota then Abort(Reply(a.quotaExhaustedMessage, a, now, None), None)
        else
          var data := VoucherData(GiverId(a.keyword), VoucherGiverName, userId, a.creditAmount,
                                  svc.addDays(now, a.voucherExpiryDays));
          match svc.generate(data)
          case Err(_) => Next
          case Ok(voucherCode) =>
            match svc.marshal(RedemptionRecord(userId, user.name, voucherCode, now))
            case Err(_) => Next
            case Ok(recordJson) =>
              Abort(Reply(a.successTemplate, a, now, Some(voucherCode)),
                    Some(StoreWrite(usersKey, userId, recordJson, a.endTime - now + RecordRetention)))
  }

  /** Step 6 and on, for the matched activity: before its start the request
      passes, after its end the expiry message is sent, and both boundary
      instants count as running. */
  function ActivityDecision(a: Activity, user: UserInfo, now: int, svc: Services): (r: Outcome)
    ensures now < a.startTime ==> r == Next
    ensures now > a.endTime && a.startTime <= now ==> r == Abort(Reply(a.expiredMessage, a, now, None), None)
    ensures a.startTime <= now <= a.endTime ==> r == Redeem(a, user, now, svc)
  {
    if now < a.startTime then Next
    else if now > a.endTime then Abort(Reply(a.expiredMessage, a, now, None), None)
    else Redeem(a, user, now, svc)
  }

  /** The whole middleware as a function of its inputs. */
  function Decide(req: Request, svc: Services): (r: Outcome)
    ensures req.config.None? || !req.config.value.enabled ==> r == Next
    ensures req.messages.Ok? && TitleRequest(req.messages.value, svc.render) ==> r == Next
    ensures MatchedActivity(req, svc).None? ==> r == Next
    ensures r.Abort? ==> MatchedActivity(req, svc) == Some(r.reply.activity) && r.reply.activity.startTime <= req.now
    ensures r.Abort? ==> r.reply.currentTime == req.now
    ensures r.Abort? && r.write.Some? ==> req.now <= r.reply.activity.endTime && r.reply.template == r.reply.activity.successTemplate
    ensures MatchedActivity(req, svc).Some? ==>
      r == ActivityDecision(MatchedActivity(req, svc).value, req.identity.value.userInfo.value, req.now, svc)
  {
    match MatchedActivity(req, svc)
    case None => Next
    case Some(a) => ActivityDecision(a, req.identity.value.userInfo.value, req.now, svc)
  }

  /** No voucher is generated for a user who already redeemed: the answer is
      the same whatever the voucher generator and the record encoder do. */
  lemma AlreadyRedeemedGeneratesNothing(a: Activity, user: UserInfo, now: int, svc: Services,
                                        generate: VoucherData -> Result<string, string>,
                                        marshal: RedemptionRecord -> Result<string, string>)
    requires user.uuid != [] && HoldsRecord(a, user, svc)
    ensures Redeem(a, user, now, svc) == Redeem(a, user, now, svc.(generate := generate, marshal := marshal))
  {
  }

  /** A failing count lookup counts as zero redemptions: it never exhausts a
      positive quota. */
  lemma CountErrorIsZero(a: Activity, user: UserInfo, now: int, svc: Services)
    requires user.uuid != [] && a.totalQuota > 0
    requires svc.redis.getHashField(UsersKey(a.keyword), user.uuid).Err?
    requires svc.redis.hashLen(UsersKey(a.keyword)).Err?
    ensures Redeem(a, user, now, svc).Abort? ==> Redeem(a, user, now, svc).reply.template == a.successTemplate
  {
  }

  /** VoucherActivityMiddleware: the step-by-step procedure, with early exits. */
  method VoucherActivityMiddleware(req: Request, svc: Services) returns (outcome: Outcome)
    ensures outcome == Decide(req, svc)
  {
    // 1. activity enabled
    if req.config.None? || !req.config.value.enabled {
      return Next;
    }
    var voucherConfig := req.config.value;
    // 2. identity
    if req.identity.None? || req.identity.value.userInfo.None? {
      return Next;
    }
    var identity := req.identity.value;
    // 3. request body
    if req.messages.Err? {
      return Next;
    }
    var messages := req.messages.value;
    // 4. messages
    if |messages| == 0 {
      return Next;
    }
    if |messages| == 3 {
      var secondMessage := svc.render(messages[1].content);
      if Contains(secondMessage, TitleRequestMarker) {
        return Next;
      }
    }
    var userMessage := svc.render(messages[|messages| - 1].content);
    // 5. matching activity
    var matched := FindActivity(voucherConfig.activities, a => KeywordMatches(a, userMessage));
    if matched.None? {
      return Next;
    }
    var activity := voucherConfig.activities[matched.value];
    assert MatchedActivity(req, svc) == Some(activity);
    outcome := ProcessActivity(activity, identity.userInfo.value, req.now, svc);
  }

  /** Steps 6 to 11 for the matched activity. */
  method ProcessActivity(activity: Activity, user: UserInfo, currentTime: int, svc: Services) returns (outcome: Outcome)
    ensures outcome == ActivityDecision(activity, user, currentTime, svc)
  {
    // 6. time window
    if currentTime < activity.startTime {
      return Next;
    }
    if currentTime > activity.endTime {
      return Abort(Reply(activity.expiredMessage, activity, currentTime, None), None);
    }
    // 7. user id
    var userId := user.uuid;
    if userId == [] {
      return Next;
    }
    // 8. already redeemed
    var usersKey := UsersKey(activity.keyword);
    var redeemedRecord := svc.redis.getHashField(usersKey, userId);
    if redeemedRecord.Ok? && redeemedRecord.value != [] {
      var record := svc.parseRecord(redeemedRecord.value);
      var code := if record.Some? then record.value.voucherCode else [];
      return Abort(Reply(activity.alreadyRedeemedMessage, activity, currentTime, Some(code)), None);
    }
    // 9. quota
    var count := svc.redis.hashLen(usersKey);
    var userCount := if count.Ok? then count.value else 0;
    if userCount >= activity.totalQuota {
      return Abort(Reply(activity.quotaExhaustedMessage, activity, currentTime, None), None);
    }
    // 10. voucher
    var voucherData := VoucherData(GiverId(activity.keyword), VoucherGiverName, userId, activity.creditAmount,
                                   svc.addDays(currentTime, activity.voucherExpiryDays));
    var voucherCode := svc.generate(voucherData);
    if voucherCode.Err? {
      return Next;
    }
    // 11. redemption record
    var recordJson := svc.marshal(RedemptionRecord(userId, user.name, voucherCode.value, currentTime));
    if recordJson.Err? {
      return Next;
    }
    var expiration := activity.endTime - currentTime + RecordRetention;
    var write := StoreWrite(usersKey, userId, recordJson.value, expiration);
    return Abort(Reply(activity.successTemplate, activity, currentTime, Some(voucherCode.value)), Some(write));
  }
}
