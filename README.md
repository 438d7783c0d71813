# Admin tools plugin: the mute and kick decisions

This project models the decision layer of a chat-bot moderation plugin
(`astrbot_plugin_admin_tools`). The plugin exposes two tools that an LLM
agent may call while handling a group-chat message:

- `set_group_ban` mutes a user for a number of seconds (0 unmutes). Outside
  a group chat it refuses. A non-admin's requested duration is capped at a
  configured maximum, `max_unauthorized_ban_duration`, which defaults to
  180 seconds. An admin's duration is passed on as given.
- `set_group_kick` removes a user from the group. Outside a group chat it
  refuses. Non-admins are refused with a message naming them. An admin's
  request becomes one platform kick that does not block the user from
  asking to rejoin (`reject_add_request=False`).

Each tool is the pure function `AdminTools.SetGroupBan` or
`AdminTools.SetGroupKick` in `admin_tools.dfy`. It maps the plugin
(its configured maximum), the message event (group id, bot id, sender id,
admin flag) and the tool's arguments to an `Outcome`. An outcome is either
`Reject(msg)`, a string returned with no platform call, or
`Call(action, reply)`: exactly one platform call, as a record holding all
of its keyword arguments, plus the confirmation string. The group id is
`Option<string>`; like Python's `not group_id`, both an absent and an
empty id count as "not in a group".

Beyond the clamping, pass-through and ordering rules, the model proves that
the string the agent gets back tells it what happened. No rejection text
equals a confirmation. Each kick branch has its own text. Each confirmation
names its target user unambiguously.

The confirmation for a mute is `用户 {user_id} 已被禁言。`; it does not
mention the duration (main.py:54).

## Model

| member | source | states |
|---|---|---|
| `AdminTools.NewPlugin` | main.py:21-23 | the maximum is the config's `max_unauthorized_ban_duration` entry when there is one, and 180 seconds otherwise |
| `AdminTools.SetGroupBan` | main.py:41-54 | rejects with `此操作仅可在群聊中进行。` exactly when the group id is absent or empty, with no platform call; otherwise one mute call with the event's group id and bot id and the given user, replying `用户 {user_id} 已被禁言。`; an admin's duration is unchanged; a non-admin's is at most the maximum, unchanged when within it, and equal to the maximum when above it |
| `AdminTools.SetGroupKick` | main.py:65-80 | no group gives the group-only rejection even for a non-admin; a non-admin in a group gets `{sender_id} 无法执行该操作`; a platform call happens exactly for an admin in a group, and it is one kick with the event's group id and bot id, the given user and `reject_add_request` false, replying `用户 {user_id} 已被踢出群聊。` |
| `AdminTools.NonAdminDurationIsMin` | main.py:46-48 | for a non-admin in a group, the duration sent equals min(requested, maximum) |
| `AdminTools.ClampIdempotent` | main.py:46-48 | re-requesting the duration that was actually sent produces the same call and reply |
| `AdminTools.NonAdminNeverExceedsAdmin` | main.py:46-52 | the same request sends a duration no longer for a non-admin than for an admin |
| `AdminTools.DefaultConfigClampsScenario` | main.py:46-52 | with an empty config, a non-admin's 600-second request sends a 180-second mute call |
| `AdminTools.MuteReplyNotGroupOnly` | main.py:43-54 | the mute confirmation differs from the group-only rejection for every user id |
| `AdminTools.KickReplyNotGroupOnly` | main.py:67-80 | the kick confirmation differs from the group-only rejection for every user id |
| `AdminTools.NotAuthorizedNotGroupOnly` | main.py:67-71 | the non-admin rejection differs from the group-only rejection for every sender id |
| `AdminTools.NotAuthorizedNotKickReply` | main.py:70-80 | the non-admin rejection differs from the kick confirmation for every sender and user |
| `AdminTools.MuteReplyRevealsCall` | main.py:41-54 | two mute invocations with the same reply text either both made the platform call or neither did |
| `AdminTools.KickReplyRevealsBranch` | main.py:65-80 | two kick invocations with the same reply text agree on whether they were in a group and on whether a kick call was made |
| `AdminTools.MuteReplyInjective` | main.py:54 | different user ids give different mute confirmations |
| `AdminTools.KickReplyInjective` | main.py:80 | different user ids give different kick confirmations |
| `AdminTools.MuteConfirmationNamesTarget` | main.py:50-54 | two successful mutes with the same confirmation muted the same user |
| `AdminTools.KickConfirmationNamesTarget` | main.py:73-80 | two successful kicks with the same confirmation kicked the same user |

## Left out

- The platform client calls (`event.bot.set_group_ban`, `event.bot.set_group_kick`) are asynchronous foreign I/O. They are returned as `Action` records rather than performed. A failing call propagates to the tool layer in the source; that failure is not modelled.
- `logger.info` lines after each call are logging only.
- Plugin registration, the tool decorators and the empty `initialize`/`terminate` hooks are framework plumbing.
- Configuration loading is reduced to a `map<string, int>`. A non-integer value under the key is not modelled. `StarTools.get_data_dir()` and the unused `data_dir` are left out.
- The admin flag, the group id, the bot id and the sender id are inputs decided by the platform.
- `AdminTools.SetGroupBan`: durations are modelled as integers. The tool documents its parameter as a number and Python does not enforce the `int` annotation, so a fractional request would reach the comparison and the platform call unchanged; such fractional values are not modelled, although the clamping would treat them the same way.
- The doc comment's "multiple of 60" note for the duration is not enforced by the code, so the model does not enforce it either. Negative durations are passed on as the code passes them.
- main.py contains no blacklist store, expiry check or message gate; they are not modelled.
- main.py has no strict policy that rejects non-admin mutes outright; it only clamps, so no such policy is modelled.
