/** What the bot's queue holds: a request tagged with the action that
    `process_queue` dispatches on, and the user it is counted against. */
module Requests {

  /** The `action` tags: `'lightycard'` and `'lightycard_three_pack'` on card
      generators, `'discord_chat'` on chat generators. */
  datatype Action = LightyCard | LightyCardThreePack | DiscordChat

  /** The id every Twitch redemption is queued under (`CustomDiscordUser.id`). */
  const TwitchUserId: nat := 666

  /** A queued request: its action, the id and display name of its user, and its prompt. */
  datatype Request = Request(action: Action, userId: nat, userName: string, prompt: string)
}
