/**
  The decision layer of the moderation plugin: the two tools an LLM agent
  may call, `set_group_ban` (mute) and `set_group_kick` (kick).

  Each tool is a pure function from the plugin's configuration, the
  triggering message event and the tool's arguments to an `Outcome`: either
  a rejection string returned to the agent with no platform call, or exactly
  one platform call (an `Action` record carrying every parameter the
  platform client receives) together with the confirmation string.
 */
module AdminTools {

  datatype Option<T> = None | Some(value: T)

  /** What the plugin reads from the message event that invoked a tool. */
  datatype Event = Event(
    groupId: Option<string>,  // absent or empty outside a group chat
    selfId: string,           // the bot's own account
    senderId: string,         // the user whose message led to the tool call
    isAdmin: bool)            // decided by the platform

  /** The plugin instance: the one value it keeps after construction. */
  datatype Plugin = Plugin(maxUnauthorizedBanDuration: int)

  /** A call on the platform client, with all of its keyword arguments. */
  datatype Action =
    | SetGroupBanCall(groupId: string, userId: string, duration: int, selfId: string)
    | SetGroupKickCall(groupId: string, userId: string, rejectAddRequest: bool, selfId: string)

  /** What a tool invocation does: reject with a message, or make one call and reply. */
  datatype Outcome =
    | Reject(msg: string)
    | Call(action: Action, reply: string)

  /** The string the agent sees, whichever way the tool went. */
  function ReplyText(o: Outcome): string
  {
    match o
    case Reject(msg) => msg
    case Call(_, reply) => reply
  }

  const MaxDurationKey: string := "max_unauthorized_ban_duration"
  const DefaultMaxUnauthorizedBanDuration: int := 3 * 60
  const GroupOnlyMessage: string := "此操作仅可在群聊中进行。"

  function MuteReply(userId: string): string { "用户 " + userId + " 已被禁言。" }
  function KickReply(userId: string): string { "用户 " + userId + " 已被踢出群聊。" }
  function NotAuthorizedMessage(senderId: string): string { senderId + " 无法执行该操作" }

  /** Python truthiness of the event's group id: neither absent nor empty. */
  predicate InGroup(e: Event)
  {
    e.groupId.Some? && e.groupId.value != ""
  }

  /** Construction: the configured maximum, falling back to three minutes. */
  function NewPlugin(config: map<string, int>): (p: Plugin)
    ensures MaxDurationKey in config ==> p.maxUnauthorizedBanDuration == config[MaxDurationKey]
    ensures MaxDurationKey !in config ==> p.maxUnauthorizedBanDuration == 180
  {
    Plugin(if MaxDurationKey in config then config[MaxDurationKey] else DefaultMaxUnauthorizedBanDuration)
  }

  /** The mute tool. */
  function SetGroupBan(p: Plugin, e: Event, userId: string, duration: int): (r: Outcome)
    // outside a group chat: the fixed rejection, and no platform call
    ensures r.Reject? <==> !InGroup(e)
    ensures r.Reject? ==> r.msg == GroupOnlyMessage
    // in a group chat: one mute call on the event's group, as the bot, on the given user
    ensures r.Call? ==>
              && r.action.SetGroupBanCall?
              && r.action.groupId == e.groupId.value
              && r.action.selfId == e.selfId
              && r.action.userId == userId
              && r.reply == MuteReply(userId)
    // an admin's duration is passed through untouched (0 unmutes)
    ensures r.Call? && e.isAdmin ==> r.action.duration == duration
    // a non-admin's duration is capped by the maximum and otherwise unchanged
    ensures r.Call? && !e.isAdmin ==> r.action.duration <= p.maxUnauthorizedBanDuration
    ensures r.Call? && !e.isAdmin && duration <= p.maxUnauthorizedBanDuration ==> r.action.duration == duration
    ensures r.Call? && !e.isAdmin && duration > p.maxUnauthorizedBanDuration ==> r.action.duration == p.maxUnauthorizedBanDuration
  {
    if !InGroup(e) then
      Reject(GroupOnlyMessage)
    else
      var effective :=
        if !e.isAdmin && duration > p.maxUnauthorizedBanDuration
        then p.maxUnauthorizedBanDuration
        else duration;
      Call(SetGroupBanCall(e.groupId.value, userId, effective, e.selfId), MuteReply(userId))
  }

  /** The kick tool; only admins may use it, and the group check comes first. */
  function SetGroupKick(e: Event, userId: string): (r: Outcome)
    // outside a group chat: the group-only rejection, whoever asks
    ensures !InGroup(e) ==> r == Reject(GroupOnlyMessage)
    // a non-admin in a group chat: a rejection naming the sender
    ensures InGroup(e) && !e.isAdmin ==> r == Reject(NotAuthorizedMessage(e.senderId))
    // a platform call happens exactly for an admin in a group chat
    ensures r.Call? <==> InGroup(e) && e.isAdmin
    ensures r.Call? ==>
              && r.action.SetGroupKickCall?
              && r.action.groupId == e.groupId.value
              && r.action.selfId == e.selfId
              && r.action.userId == userId
              && !r.action.rejectAddRequest
              && r.reply == KickReply(userId)
  {
    if !InGroup(e) then
      Reject(GroupOnlyMessage)
    else if !e.isAdmin then
      Reject(NotAuthorizedMessage(e.senderId))
    else
      Call(SetGroupKickCall(e.groupId.value, userId, false, e.selfId), KickReply(userId))
  }

  // ---------------------------------------------------------------------------
  // The effective mute duration against an independent reference: the minimum.

  function Min(a: int, b: int): int { if a <= b then a else b }

  /** For a non-admin in a group, the duration sent is min(requested, maximum). */
  lemma NonAdminDurationIsMin(p: Plugin, e: Event, userId: string, duration: int)
    requires InGroup(e) && !e.isAdmin
    ensures SetGroupBan(p, e, userId, duration).Call?
    ensures SetGroupBan(p, e, userId, duration).action.duration == Min(duration, p.maxUnauthorizedBanDuration)
  {
  }

  /** Asking again with the duration that was actually sent sends the same call. */
  lemma ClampIdempotent(p: Plugin, e: Event, userId: string, duration: int)
    requires InGroup(e)
    ensures var r := SetGroupBan(p, e, userId, duration);
            r.Call? && SetGroupBan(p, e, userId, r.action.duration) == r
  {
  }

  /** A non-admin never gets a longer mute than an admin asking for the same. */
  lemma NonAdminNeverExceedsAdmin(p: Plugin, e: Event, userId: string, duration: int)
    requires InGroup(e)
    ensures SetGroupBan(p, e.(isAdmin := false), userId, duration).action.duration
         <= SetGroupBan(p, e.(isAdmin := true), userId, duration).action.duration
  {
  }

  /** With the default configuration a non-admin's 600-second request becomes 180 seconds. */
  lemma DefaultConfigClampsScenario(e: Event, userId: string)
    requires InGroup(e) && !e.isAdmin
    ensures SetGroupBan(NewPlugin(map[]), e, userId, 600)
         == Call(SetGroupBanCall(e.groupId.value, userId, 180, e.selfId), MuteReply(userId))
  {
  }

  // ---------------------------------------------------------------------------
  // The string returned to the agent tells it what happened.

  /** The last character of a non-empty string. */
  function Last(s: string): char
    requires s != []
  {
    s[|s| - 1]
  }

  lemma {:induction false} MuteReplyNotGroupOnly(userId: string)
    ensures MuteReply(userId) != GroupOnlyMessage
  {
    assert MuteReply(userId)[0] == '用';
    assert GroupOnlyMessage[0] == '此';
  }

  lemma {:induction false} KickReplyNotGroupOnly(userId: string)
    ensures KickReply(userId) != GroupOnlyMessage
  {
    assert KickReply(userId)[0] == '用';
    assert GroupOnlyMessage[0] == '此';
  }

  lemma {:induction false} NotAuthorizedNotGroupOnly(senderId: string)
    ensures NotAuthorizedMessage(senderId) != GroupOnlyMessage
  {
    assert Last(NotAuthorizedMessage(senderId)) == '作';
    assert Last(GroupOnlyMessage) == '。';
  }

  lemma {:induction false} NotAuthorizedNotKickReply(senderId: string, userId: string)
    ensures NotAuthorizedMessage(senderId) != KickReply(userId)
  {
    assert Last(NotAuthorizedMessage(senderId)) == '作';
    assert Last(KickReply(userId)) == '。';
  }

  /** From the mute tool's reply alone the agent can tell whether the user was muted. */
  lemma {:induction false} MuteReplyRevealsCall(p: Plugin, e1: Event, u1: string, d1: int,
                                                e2: Event, u2: string, d2: int)
    requires ReplyText(SetGroupBan(p, e1, u1, d1)) == ReplyText(SetGroupBan(p, e2, u2, d2))
    ensures SetGroupBan(p, e1, u1, d1).Call? == SetGroupBan(p, e2, u2, d2).Call?
  {
    MuteReplyNotGroupOnly(u1);
    MuteReplyNotGroupOnly(u2);
  }

  /**
    From the kick tool's reply alone the agent can tell which of the three
    branches was taken: not a group, not an admin, or kicked.
   */
  lemma {:induction false} KickReplyRevealsBranch(e1: Event, u1: string, e2: Event, u2: string)
    requires ReplyText(SetGroupKick(e1, u1)) == ReplyText(SetGroupKick(e2, u2))
    ensures InGroup(e1) == InGroup(e2)
    ensures SetGroupKick(e1, u1).Call? == SetGroupKick(e2, u2).Call?
  {
    KickReplyNotGroupOnly(u1);
    KickReplyNotGroupOnly(u2);
    NotAuthorizedNotGroupOnly(e1.senderId);
    NotAuthorizedNotGroupOnly(e2.senderId);
    NotAuthorizedNotKickReply(e1.senderId, u2);
    NotAuthorizedNotKickReply(e2.senderId, u1);
  }

  /** The confirmation names exactly one user: distinct users get distinct replies. */
  lemma {:induction false} MuteReplyInjective(u1: string, u2: string)
    requires MuteReply(u1) == MuteReply(u2)
    ensures u1 == u2
  {
    assert |u1| == |u2|;
    assert u1 == MuteReply(u1)[3..3 + |u1|];
    assert u2 == MuteReply(u2)[3..3 + |u2|];
  }

  lemma {:induction false} KickReplyInjective(u1: string, u2: string)
    requires KickReply(u1) == KickReply(u2)
    ensures u1 == u2
  {
    assert |u1| == |u2|;
    assert u1 == KickReply(u1)[3..3 + |u1|];
    assert u2 == KickReply(u2)[3..3 + |u2|];
  }

  /** Two mutes that reply with the same confirmation acted on the same user. */
  lemma {:induction false} MuteConfirmationNamesTarget(p: Plugin, e1: Event, u1: string, d1: int,
                                                       e2: Event, u2: string, d2: int)
    requires SetGroupBan(p, e1, u1, d1).Call? && SetGroupBan(p, e2, u2, d2).Call?
    requires ReplyText(SetGroupBan(p, e1, u1, d1)) == ReplyText(SetGroupBan(p, e2, u2, d2))
    ensures SetGroupBan(p, e1, u1, d1).action.userId == SetGroupBan(p, e2, u2, d2).action.userId
  {
    MuteReplyInjective(u1, u2);
  }

  /** Two kicks that reply with the same confirmation acted on the same user. */
  lemma {:induction false} KickConfirmationNamesTarget(e1: Event, u1: string, e2: Event, u2: string)
    requires SetGroupKick(e1, u1).Call? && SetGroupKick(e2, u2).Call?
    requires ReplyText(SetGroupKick(e1, u1)) == ReplyText(SetGroupKick(e2, u2))
    ensures SetGroupKick(e1, u1).action.userId == SetGroupKick(e2, u2).action.userId
  {
    KickReplyInjective(u1, u2);
  }
}
