/** `LightyMTGClient` (lighty_mtg.py): the per-user pending counters, the
    FIFO generation queue, the `currently_processing` flag, the four places
    that admit requests, and `process_queue`, which serves one request at a
    time. The loop body is split at the point where it waits for generation
    (`Take`, then `Finish` or `FinishCorrected`), so admissions can be
    interleaved while a request is being generated, as they are under
    asyncio. Generation itself, Discord and Twitch are outside the model:
    what generation produced, and whether and where an exception cut the
    item short, are inputs. */
module Dispatch {
  import opened Wrappers
  import opened Requests
  import Text
  import Settings
  import Prompts
  import Replies
  import CardRules

  /** What the bot visibly does while admitting and serving requests. */
  datatype Event =
    | Reply(content: string, ephemeral: bool)   // an answer to the user at admission time
    | Post(message: Message)                    // `queue_request.channel.send(...)`
    | SaveImage(path: string)                   // `queue_request.card.save(path, format="WEBP")`
    | TwitchMessage(message: Message)           // `twitch_channel.send(...)`

  /** The messages `process_queue` sends, by the template they are written from. */
  datatype Message =
    | CardPosted(user: string, prompt: string)
    | PackLink(user: string, stamp: string)
    | PackPosted(user: string, prompt: string)
    | ChatChunk(text: string)
    | ReadyNotice(user: string, pack: bool, link: string)

  /** The text of a message. */
  function Render(m: Message): string
  {
    match m
    case CardPosted(user, prompt) => "Twitch Card for `" + user + "`: Prompt: `" + prompt + "`"
    case PackLink(user, stamp) =>
      "# " + user + " Open your pack here: [OPEN PACK](http://theblackgoat.net/cardflip-dynamic.html?username="
      + user + "&datetimestring=" + stamp + ")"
    case PackPosted(user, prompt) => "Card Pack for `" + user + "`: Prompt: `" + prompt + "`"
    case ChatChunk(text) => text
    case ReadyNotice(user, pack, link) =>
      "@" + user + ": Your " + (if pack then "pack" else "card") + " is ready at: " + link
  }

  /** What serving a request produced outside the dispatcher. `draws` are the
      `random.randint(1, 99999999)` draws of the storage names, `stamp` the
      `now.strftime("%Y%m%d%H%M%S")` of a pack, `link` the posted message's URL. */
  datatype Generated =
    | CardResult(cardType: string, draw: nat, link: string)
    | PackResult(cardTypes: seq<string>, draws: seq<nat>, stamp: string, link: string)
    | ChatResult(response: string)

  /** The result fits the action: one card, three cards, or a chat reply. */
  predicate Matches(a: Action, g: Generated)
  {
    match a
    case LightyCard => g.CardResult?
    case LightyCardThreePack => g.PackResult? && |g.cardTypes| == 3 && |g.draws| == 3
    case DiscordChat => g.ChatResult?
  }

  const QueueFullChat: string := "Queue limit has been reached, please wait for your previous gens to finish"
  const QueueFullCommand: string := "Queue limit reached, please wait until your current gen or gens finish"
  const DisabledOrBanned: string := "Disabled or user banned"
  const CardBeingCreated: string := "Card Being Created:"
  const BotActions: string := "enable_bot_actions"
  const RewardNameKey: string := "twitch_reward_name"

  /** The number in a storage name. */
  function ImageNumber(d: nat): nat
  {
    CardRules.Pick(1, 100000000, d)
  }

  /** The notice relayed to Twitch when the request came from a redemption. */
  function Relay(r: Request, pack: bool, link: string): seq<Event>
  {
    if r.userId == TwitchUserId then [TwitchMessage(ReadyNotice(r.userName, pack, link))] else []
  }

  /** The two saves of the k-th card of a pack (k from 1). */
  function PackCardSaves(r: Request, cardType: string, draw: nat, stamp: string, k: nat): seq<Event>
  {
    [SaveImage(Prompts.CardImagePath(r.userName, cardType, r.prompt, ImageNumber(draw))),
     SaveImage(Prompts.PackImagePath(r.userName, stamp, k))]
  }

  /** One message per piece of a chat reply. */
  function Posts(parts: seq<string>): (events: seq<Event>)
    ensures |events| == |parts|
    ensures forall i :: 0 <= i < |parts| ==> events[i] == Post(ChatChunk(parts[i]))
  {
    if parts == [] then [] else [Post(ChatChunk(parts[0]))] + Posts(parts[1..])
  }

  /** The two posts that announce a finished pack: the link to open it, then the caption. */
  function PackPosts(r: Request, stamp: string): seq<Event>
  {
    [Post(PackLink(r.userName, stamp)), Post(PackPosted(r.userName, r.prompt))]
  }

  /** Everything `process_queue` does for a request that does not fail, in order. */
  function ItemEvents(r: Request, g: Generated): seq<Event>
    requires Matches(r.action, g)
  {
    match r.action
    case LightyCard =>
      [Post(CardPosted(r.userName, r.prompt)),
       SaveImage(Prompts.CardImagePath(r.userName, g.cardType, r.prompt, ImageNumber(g.draw)))]
      + Relay(r, false, g.link)
    case LightyCardThreePack =>
      PackCardSaves(r, g.cardTypes[0], g.draws[0], g.stamp, 1)
      + PackCardSaves(r, g.cardTypes[1], g.draws[1], g.stamp, 2)
      + PackCardSaves(r, g.cardTypes[2], g.draws[2], g.stamp, 3)
      + PackPosts(r, g.stamp)
      + Relay(r, true, g.link)
    case DiscordChat =>
      Posts(Replies.Chunks(g.response))
  }

  /** What is done before an exception raised after `k` of the steps (all of them if k is larger). */
  function Emitted(all: seq<Event>, failAt: Option<nat>): (done: seq<Event>)
    ensures done <= all
    ensures failAt.None? ==> done == all
  {
    match failAt
    case None => all
    case Some(k) => if k <= |all| then all[..k] else all
  }

  /** A chat reply goes out as ceil(|response| / 2000) messages of at most
      2000 characters each, in order, which together are the whole reply. */
  lemma ChatReplyEvents(r: Request, response: string)
    requires r.action == DiscordChat
    ensures var events := ItemEvents(r, ChatResult(response));
            |events| == (|response| + 1999) / 2000
            && (forall i :: 0 <= i < |events| ==>
                  events[i] == Post(ChatChunk(Replies.Chunks(response)[i])) && 1 <= |Render(events[i].message)| <= 2000)
            && Replies.Concat(Replies.Chunks(response)) == response
  {
    Replies.ChunksCount(response);
    Replies.ChunksConcat(response);
    var events := ItemEvents(r, ChatResult(response));
    forall i | 0 <= i < |events|
      ensures events[i] == Post(ChatChunk(Replies.Chunks(response)[i])) && 1 <= |Render(events[i].message)| <= 2000
    {
      Replies.ChunkAt(response, i);
    }
  }

  /** Every image saved by `events` is under directory `dir`. */
  predicate SavesUnder(events: seq<Event>, dir: string)
  {
    forall i :: 0 <= i < |events| && events[i].SaveImage? ==> Text.StartsWith(events[i].path, dir)
  }

  lemma SavesUnderConcat(a: seq<Event>, b: seq<Event>, dir: string)
    requires SavesUnder(a, dir) && SavesUnder(b, dir)
    ensures SavesUnder(a + b, dir)
  {
    forall i | 0 <= i < |a + b| && (a + b)[i].SaveImage?
      ensures Text.StartsWith((a + b)[i].path, dir)
    {
      if i >= |a| {
        assert (a + b)[i] == b[i - |a|];
      }
    }
  }

  lemma PackCardSavesUnder(r: Request, cardType: string, draw: nat, stamp: string, k: nat)
    requires '/' !in cardType
    ensures SavesUnder(PackCardSaves(r, cardType, draw, stamp, k), "users/" + r.userName + "/")
  {
    var dir := "users/" + r.userName + "/";
    Prompts.CardImagePathInUserDirectory(r.userName, cardType, r.prompt, ImageNumber(draw));
    var pack := Prompts.PackImagePath(r.userName, stamp, k);
    assert pack == dir + (stamp + "/card" + Text.NatToString(k) + ".webp");
    assert pack[..|dir|] == dir;
  }

  lemma CardSavesUnder(r: Request, g: Generated)
    requires r.action == LightyCard && g.CardResult? && '/' !in g.cardType
    ensures SavesUnder(ItemEvents(r, g), "users/" + r.userName + "/")
  {
    var dir := "users/" + r.userName + "/";
    var path := Prompts.CardImagePath(r.userName, g.cardType, r.prompt, ImageNumber(g.draw));
    Prompts.CardImagePathInUserDirectory(r.userName, g.cardType, r.prompt, ImageNumber(g.draw));
    var head := [Post(CardPosted(r.userName, r.prompt)), SaveImage(path)];
    assert SavesUnder(head, dir);
    assert SavesUnder(Relay(r, false, g.link), dir);
    SavesUnderConcat(head, Relay(r, false, g.link), dir);
  }

  lemma PackSavesUnder(r: Request, g: Generated)
    requires r.action == LightyCardThreePack && Matches(r.action, g)
    requires forall i :: 0 <= i < |g.cardTypes| ==> '/' !in g.cardTypes[i]
    ensures SavesUnder(ItemEvents(r, g), "users/" + r.userName + "/")
  {
    var dir := "users/" + r.userName + "/";
    var s1 := PackCardSaves(r, g.cardTypes[0], g.draws[0], g.stamp, 1);
    var s2 := PackCardSaves(r, g.cardTypes[1], g.draws[1], g.stamp, 2);
    var s3 := PackCardSaves(r, g.cardTypes[2], g.draws[2], g.stamp, 3);
    var posts := PackPosts(r, g.stamp);
    var relay := Relay(r, true, g.link);
    PackCardSavesUnder(r, g.cardTypes[0], g.draws[0], g.stamp, 1);
    PackCardSavesUnder(r, g.cardTypes[1], g.draws[1], g.stamp, 2);
    PackCardSavesUnder(r, g.cardTypes[2], g.draws[2], g.stamp, 3);
    SavesUnderConcat(s1, s2, dir);
    SavesUnderConcat(s1 + s2, s3, dir);
    assert SavesUnder(posts, dir);
    SavesUnderConcat(s1 + s2 + s3, posts, dir);
    assert SavesUnder(relay, dir);
    SavesUnderConcat(s1 + s2 + s3 + posts, relay, dir);
  }

  /** Every image a request saves lands under `users/{user}/`. */
  lemma SavesInUserDirectory(r: Request, g: Generated)
    requires Matches(r.action, g)
    requires g.CardResult? ==> '/' !in g.cardType
    requires g.PackResult? ==> forall i :: 0 <= i < |g.cardTypes| ==> '/' !in g.cardTypes[i]
    ensures SavesUnder(ItemEvents(r, g), "users/" + r.userName + "/")
  {
    match r.action
    case LightyCard => CardSavesUnder(r, g);
    case LightyCardThreePack => PackSavesUnder(r, g);
    case DiscordChat =>
  }

  /** Every image a request saves lands under `users/{user}/` when its card
      types are the ones `choose_card_type` drew (draws i for card i). */
  lemma DrawnTypesSaveInUserDirectory(r: Request, g: Generated, categoryDraws: seq<nat>, typeDraws: seq<nat>)
    requires Matches(r.action, g)
    requires g.CardResult? ==>
               |categoryDraws| >= 1 && |typeDraws| >= 1
               && g.cardType == CardRules.ChosenType(categoryDraws[0], typeDraws[0])
    requires g.PackResult? ==>
               |categoryDraws| == |g.cardTypes| && |typeDraws| == |g.cardTypes|
               && forall i :: 0 <= i < |g.cardTypes| ==> g.cardTypes[i] == CardRules.ChosenType(categoryDraws[i], typeDraws[i])
    ensures SavesUnder(ItemEvents(r, g), "users/" + r.userName + "/")
  {
    if g.CardResult? {
      CardRules.ChosenTypeHasNoSlash(categoryDraws[0], typeDraws[0]);
    }
    if g.PackResult? {
      forall i | 0 <= i < |g.cardTypes|
        ensures '/' !in g.cardTypes[i]
      {
        CardRules.ChosenTypeHasNoSlash(categoryDraws[i], typeDraws[i]);
      }
    }
    SavesInUserDirectory(r, g);
  }

  /** The three pack images are stored under three different names. */
  lemma PackImagesDistinct(r: Request, g: Generated)
    requires r.action == LightyCardThreePack && Matches(r.action, g)
    ensures var events := ItemEvents(r, g);
            events[1] == SaveImage(Prompts.PackImagePath(r.userName, g.stamp, 1))
            && events[3] == SaveImage(Prompts.PackImagePath(r.userName, g.stamp, 2))
            && events[5] == SaveImage(Prompts.PackImagePath(r.userName, g.stamp, 3))
            && events[1] != events[3] && events[3] != events[5] && events[1] != events[5]
  {
    Prompts.PackImagePathsDistinct(r.userName, g.stamp, 1, 2);
    Prompts.PackImagePathsDistinct(r.userName, g.stamp, 2, 3);
    Prompts.PackImagePathsDistinct(r.userName, g.stamp, 1, 3);
  }

  // ---------------------------------------------------------------------------
  // Pending requests per user
  // ---------------------------------------------------------------------------

  /** How many requests of user `u` are in `q`. */
  function Occurrences(q: seq<Request>, u: nat): nat
  {
    if q == [] then 0 else (if q[0].userId == u then 1 else 0) + Occurrences(q[1..], u)
  }

  lemma {:induction false} OccurrencesAppend(q: seq<Request>, r: Request, u: nat)
    ensures Occurrences(q + [r], u) == Occurrences(q, u) + (if r.userId == u then 1 else 0)
  {
    if q != [] {
      OccurrencesAppend(q[1..], r, u);
      assert (q + [r])[1..] == q[1..] + [r];
    }
  }

  /** A user with no request in `q` has none counted. */
  lemma {:induction false} OccurrencesAbsent(q: seq<Request>, u: nat)
    requires forall r :: r in q ==> r.userId != u
    ensures Occurrences(q, u) == 0
  {
    if q != [] {
      OccurrencesAbsent(q[1..], u);
    }
  }

  /** The requests of `u` waiting in the queue or being served. */
  function PendingOf(queue: seq<Request>, current: Option<Request>, u: nat): nat
  {
    Occurrences(queue, u) + (if current.Some? && current.value.userId == u then 1 else 0)
  }

  /** Taking the head of the queue into service leaves every user's pending
      requests, and so every counter's relation to them, as they were. */
  lemma PendingAfterTake(queue: seq<Request>, counts: map<nat, int>, failures: map<nat, nat>, depth: int)
    requires queue != []
    requires forall u :: u in counts ==>
               counts[u] == PendingOf(queue, None, u) - Get(failures, u) && counts[u] <= MaxDepth(depth)
    ensures forall u :: u in counts ==>
              counts[u] == PendingOf(queue[1..], Some(queue[0]), u) - Get(failures, u) && counts[u] <= MaxDepth(depth)
  {
  }

  /** Finishing the request being served removes one pending request of its user only. */
  lemma PendingAfterService(queue: seq<Request>, served: Request, v: nat)
    ensures PendingOf(queue, None, v) == PendingOf(queue, Some(served), v) - (if v == served.userId then 1 else 0)
  {
  }

  /** The most requests one user can have admitted at once: the depth, or 0 for a depth below 0. */
  function MaxDepth(depth: int): nat
  {
    if depth < 0 then 0 else depth
  }

  function Get(m: map<nat, nat>, u: nat): nat
  {
    if u in m then m[u] else 0
  }

  // ---------------------------------------------------------------------------
  // The client
  // ---------------------------------------------------------------------------

  class Client {
    /** `int(SETTINGS.get("user_queue_depth", [1])[0])`, read once (the settings do not change). */
    const depth: int
    /** `generation_queue_concurrency_list`. */
    var counts: map<nat, int>
    /** The contents of `generation_queue`, head first. */
    var queue: seq<Request>
    /** `currently_processing`. */
    var processing: bool
    /** The request `process_queue` has taken and not yet finished. */
    var current: Option<Request>
    /** `generation_queue`'s count of unfinished tasks (`put` adds one, `task_done` removes one). */
    var unfinished: nat
    /** What the bot has done so far, in order. */
    var outbox: seq<Event>
    /** Every request ever admitted, every request ever taken, in order. */
    ghost var admitted: seq<Request>
    ghost var taken: seq<Request>
    /** How many of each user's requests failed under the as-written `Finish`. */
    ghost var failures: map<nat, nat>

    /** Requests leave in the order they were admitted; the flag is set exactly
        while a request is being served; every request admitted and not yet
        finished is an unfinished task; and each user's counter is the number
        of their pending requests minus the number of their failed ones, and
        never above the depth (it only rises from below it). */
    ghost predicate Valid()
      reads this
    {
      admitted == taken + queue
      && processing == current.Some?
      && (current.Some? ==> |taken| >= 1 && taken[|taken| - 1] == current.value)
      && unfinished == |queue| + (if processing then 1 else 0)
      && (forall r :: r in queue ==> r.userId in counts)
      && (current.Some? ==> current.value.userId in counts)
      && (forall u :: u in failures ==> u in counts)
      && (forall u :: u in counts ==>
            counts[u] == PendingOf(queue, current, u) - Get(failures, u) && counts[u] <= MaxDepth(depth))
    }

    constructor(depth: int)
      ensures Valid()
      ensures this.depth == depth && counts == map[] && queue == [] && !processing && outbox == []
    {
      this.depth := depth;
      counts := map[];
      queue := [];
      processing := false;
      current := None;
      unfinished := 0;
      outbox := [];
      admitted := [];
      taken := [];
      failures := map[];
    }

    /** `is_room_in_queue`: an unseen user gets a counter of 0; the answer is
        whether the user's counter is below the depth. Nothing else changes. */
    method IsRoomInQueue(userId: nat) returns (room: bool)
      requires Valid()
      modifies this
      ensures Valid()
      ensures counts == if userId in old(counts) then old(counts) else old(counts)[userId := 0]
      ensures room <==> counts[userId] < depth
      ensures queue == old(queue) && current == old(current) && processing == old(processing)
      ensures unfinished == old(unfinished) && outbox == old(outbox)
      ensures admitted == old(admitted) && taken == old(taken) && failures == old(failures)
    {
      if userId !in counts {
        OccurrencesAbsent(queue, userId);
        counts := counts[userId := 0];
      }
      room := counts[userId] < depth;
    }

    /** `+= 1` on the user's counter and `generation_queue.put(request)`. */
    method Admit(r: Request)
      requires Valid() && r.userId in counts && counts[r.userId] < depth
      modifies this
      ensures Valid()
      ensures counts == old(counts)[r.userId := old(counts)[r.userId] + 1]
      ensures queue == old(queue) + [r] && admitted == old(admitted) + [r]
      ensures unfinished == old(unfinished) + 1
      ensures current == old(current) && processing == old(processing) && outbox == old(outbox)
      ensures taken == old(taken) && failures == old(failures)
    {
      forall u | u in counts
        ensures Occurrences(queue + [r], u) == Occurrences(queue, u) + (if r.userId == u then 1 else 0)
      {
        OccurrencesAppend(queue, r, u);
      }
      counts := counts[r.userId := counts[r.userId] + 1];
      queue := queue + [r];
      admitted := admitted + [r];
      unfinished := unfinished + 1;
    }

    /** `is_room_in_queue`, then either `Admit` followed by `accepted`, or `refused`. */
    method AdmitOrRefuse(r: Request, accepted: seq<Event>, refused: seq<Event>) returns (room: bool)
      requires Valid()
      modifies this
      ensures Valid()
      ensures var before := if r.userId in old(counts) then old(counts)[r.userId] else 0;
              room == (before < depth)
              && (room ==> counts == old(counts)[r.userId := before + 1]
                           && queue == old(queue) + [r] && outbox == old(outbox) + accepted)
              && (!room ==> counts == old(counts)[r.userId := before]
                            && queue == old(queue) && outbox == old(outbox) + refused)
      ensures current == old(current) && taken == old(taken) && failures == old(failures)
    {
      room := IsRoomInQueue(r.userId);
      if room {
        Admit(r);
        Record(accepted);
      } else {
        Record(refused);
      }
    }

    /** `on_message`: a message that mentions the bot, from a user for whom
        bot actions are enabled and who is not banned, queues a chat request
        for the message with its mention tags stripped, or is told the queue
        is full. An exception in the enabled check is swallowed. */
    method OnMessage(mentioned: bool, settings: Settings.Store, authorId: nat, authorName: string, content: string)
      requires Valid()
      modifies this
      ensures Valid()
      ensures var req := Request(DiscordChat, authorId, authorName, Prompts.MentionPrompt(content));
              var before := if authorId in old(counts) then old(counts)[authorId] else 0;
              if !mentioned || Settings.EnabledNotBanned(settings, BotActions, authorId) != Some(true) then
                counts == old(counts) && queue == old(queue) && outbox == old(outbox)
              else if before < depth then
                counts == old(counts)[authorId := before + 1] && queue == old(queue) + [req] && outbox == old(outbox)
              else
                counts == old(counts)[authorId := before]
                && queue == old(queue) && outbox == old(outbox) + [Reply(QueueFullChat, false)]
      ensures current == old(current) && taken == old(taken) && failures == old(failures)
    {
      var prompt := Prompts.MentionPrompt(content);
      ChatAdmission(mentioned, settings, authorId, authorName, prompt);
    }

    /** The admission part of `on_message`, for a chat request with prompt `prompt`. */
    method ChatAdmission(mentioned: bool, settings: Settings.Store, authorId: nat, authorName: string, prompt: string)
      requires Valid()
      modifies this
      ensures Valid()
      ensures var req := Request(DiscordChat, authorId, authorName, prompt);
              var before := if authorId in old(counts) then old(counts)[authorId] else 0;
              if !mentioned || Settings.EnabledNotBanned(settings, BotActions, authorId) != Some(true) then
                counts == old(counts) && queue == old(queue) && outbox == old(outbox)
              else if before < depth then
                counts == old(counts)[authorId := before + 1] && queue == old(queue) + [req] && outbox == old(outbox)
              else
                counts == old(counts)[authorId := before]
                && queue == old(queue) && outbox == old(outbox) + [Reply(QueueFullChat, false)]
      ensures current == old(current) && taken == old(taken) && failures == old(failures)
    {
      if !mentioned {
        return;
      }
      var enabled := Settings.EnabledNotBanned(settings, BotActions, authorId);
      if enabled != Some(true) {
        return;
      }
      var room := AdmitOrRefuse(Request(DiscordChat, authorId, authorName, prompt), [], [Reply(QueueFullChat, false)]);
      assert old(outbox) + [] == old(outbox);
    }

    /** The shared body of the `lighty_mtg` and `lighty_mtg_three_pack`
        commands: refuse a disabled or banned user, otherwise queue the card
        request and confirm it, or say the queue is full. An exception in
        the enabled check ends the command with no answer. */
    method CardCommand(action: Action, settings: Settings.Store, userId: nat, userName: string, prompt: string)
      requires Valid()
      modifies this
      ensures Valid()
      ensures var enabled := Settings.EnabledNotBanned(settings, BotActions, userId);
              var before := if userId in old(counts) then old(counts)[userId] else 0;
              if enabled.None? then
                counts == old(counts) && queue == old(queue) && outbox == old(outbox)
              else if enabled == Some(false) then
                counts == old(counts) && queue == old(queue) && outbox == old(outbox) + [Reply(DisabledOrBanned, true)]
              else if before < depth then
                counts == old(counts)[userId := before + 1]
                && queue == old(queue) + [Request(action, userId, userName, prompt)]
                && outbox == old(outbox) + [Reply(CardBeingCreated, true)]
              else
                counts == old(counts)[userId := before]
                && queue == old(queue) && outbox == old(outbox) + [Reply(QueueFullCommand, false)]
      ensures current == old(current) && taken == old(taken) && failures == old(failures)
    {
      var enabled := Settings.EnabledNotBanned(settings, BotActions, userId);
      if enabled.None? {
        return;
      }
      if enabled == Some(false) {
        Record([Reply(DisabledOrBanned, true)]);
        return;
      }
      var room := AdmitOrRefuse(Request(action, userId, userName, prompt), [Reply(CardBeingCreated, true)], [Reply(QueueFullCommand, false)]);
    }

    /** Either slash command as written: `MTGCardGenerator` is called with the
        action and three more arguments, but its `__init__` takes three, so the
        call raises `TypeError` once the enabled check has passed and before
        the room check. Only a disabled or banned user is answered, and no
        request is ever queued. */
    method CardCommandAsWritten(settings: Settings.Store, userId: nat)
      requires Valid()
      modifies this
      ensures Valid()
      ensures counts == old(counts) && queue == old(queue)
      ensures outbox == old(outbox) + (if Settings.EnabledNotBanned(settings, BotActions, userId) == Some(false)
                                        then [Reply(DisabledOrBanned, true)] else [])
      ensures current == old(current) && taken == old(taken) && failures == old(failures)
    {
      var enabled := Settings.EnabledNotBanned(settings, BotActions, userId);
      if enabled.None? {
        return;
      }
      if enabled == Some(false) {
        Record([Reply(DisabledOrBanned, true)]);
        return;
      }
      // Enabled: the constructor call raises here, before `is_room_in_queue`.
    }

    /** The `lighty_mtg` slash command. */
    method LightyMtg(settings: Settings.Store, userId: nat, userName: string, prompt: string)
      requires Valid()
      modifies this
      ensures Valid()
      ensures var enabled := Settings.EnabledNotBanned(settings, BotActions, userId);
              var before := if userId in old(counts) then old(counts)[userId] else 0;
              if enabled.None? then
                counts == old(counts) && queue == old(queue) && outbox == old(outbox)
              else if enabled == Some(false) then
                counts == old(counts) && queue == old(queue) && outbox == old(outbox) + [Reply(DisabledOrBanned, true)]
              else if before < depth then
                counts == old(counts)[userId := before + 1]
                && queue == old(queue) + [Request(LightyCard, userId, userName, prompt)]
                && outbox == old(outbox) + [Reply(CardBeingCreated, true)]
              else
                counts == old(counts)[userId := before]
                && queue == old(queue) && outbox == old(outbox) + [Reply(QueueFullCommand, false)]
      ensures current == old(current) && taken == old(taken) && failures == old(failures)
      ensures Settings.EnabledNotBanned(settings, BotActions, userId) == Some(true)
              && (if userId in old(counts) then old(counts)[userId] else 0) < depth
              <==> queue == old(queue) + [Request(LightyCard, userId, userName, prompt)]
    {
      CardCommand(LightyCard, settings, userId, userName, prompt);
    }

    /** The `lighty_mtg_three_pack` slash command. */
    method LightyMtgThreePack(settings: Settings.Store, userId: nat, userName: string, prompt: string)
      requires Valid()
      modifies this
      ensures Valid()
      ensures var enabled := Settings.EnabledNotBanned(settings, BotActions, userId);
              var before := if userId in old(counts) then old(counts)[userId] else 0;
              if enabled.None? then
                counts == old(counts) && queue == old(queue) && outbox == old(outbox)
              else if enabled == Some(false) then
                counts == old(counts) && queue == old(queue) && outbox == old(outbox) + [Reply(DisabledOrBanned, true)]
              else if before < depth then
                counts == old(counts)[userId := before + 1]
                && queue == old(queue) + [Request(LightyCardThreePack, userId, userName, prompt)]
                && outbox == old(outbox) + [Reply(CardBeingCreated, true)]
              else
                counts == old(counts)[userId := before]
                && queue == old(queue) && outbox == old(outbox) + [Reply(QueueFullCommand, false)]
      ensures current == old(current) && taken == old(taken) && failures == old(failures)
      ensures Settings.EnabledNotBanned(settings, BotActions, userId) == Some(true)
              && (if userId in old(counts) then old(counts)[userId] else 0) < depth
              <==> queue == old(queue) + [Request(LightyCardThreePack, userId, userName, prompt)]
    {
      CardCommand(LightyCardThreePack, settings, userId, userName, prompt);
    }

    /** `event_pubsub_channel_points`: a redemption of the configured reward
        queues a three-pack under the shared Twitch id 666 when that id has
        room. There is no enabled/banned check and no answer when it is full. */
    method ChannelPoints(settings: Settings.Store, rewardTitle: string, twitchName: string, input: string)
      requires Valid()
      modifies this
      ensures Valid()
      ensures var before := if TwitchUserId in old(counts) then old(counts)[TwitchUserId] else 0;
              if Settings.FirstValue(settings, RewardNameKey) != Some(rewardTitle) then
                counts == old(counts) && queue == old(queue)
              else if before < depth then
                counts == old(counts)[TwitchUserId := before + 1]
                && queue == old(queue) + [Request(LightyCardThreePack, TwitchUserId, twitchName, input)]
              else
                counts == old(counts)[TwitchUserId := before] && queue == old(queue)
      ensures outbox == old(outbox)
      ensures current == old(current) && taken == old(taken) && failures == old(failures)
    {
      if Settings.FirstValue(settings, RewardNameKey) != Some(rewardTitle) {
        return;
      }
      var room := AdmitOrRefuse(Request(LightyCardThreePack, TwitchUserId, twitchName, input), [], []);
    }

    /** `queue_request = await self.generation_queue.get()` and
        `self.currently_processing = True`: the head of the queue is served next. */
    method Take()
      requires Valid() && !processing && queue != []
      modifies this
      ensures Valid()
      ensures current == Some(old(queue)[0]) && processing
      ensures queue == old(queue)[1..] && taken == old(taken) + [old(queue)[0]]
      ensures counts == old(counts) && unfinished == old(unfinished) && outbox == old(outbox)
      ensures admitted == old(admitted) && failures == old(failures)
    {
      var head := queue[0];
      var rest := queue[1..];
      assert queue == [head] + rest;
      assert (taken + [head]) + rest == taken + queue;
      assert forall r :: r in rest ==> r in queue;
      PendingAfterTake(queue, counts, failures, depth);
      current, processing, queue, taken := Some(head), true, rest, taken + [head];
    }

    /** Append what the bot did to the outbox. */
    method Record(events: seq<Event>)
      requires Valid()
      modifies this
      ensures Valid()
      ensures outbox == old(outbox) + events
      ensures counts == old(counts) && queue == old(queue) && current == old(current) && processing == old(processing)
      ensures unfinished == old(unfinished) && admitted == old(admitted) && taken == old(taken) && failures == old(failures)
    {
      outbox := outbox + events;
    }

    /** The `except`/`finally` bookkeeping as written: one decrement in
        `except` when the request failed and one in `finally` always, then
        `task_done()` and the flag cleared. A failed request costs its user two. */
    method Release(failed: bool)
      requires Valid() && current.Some?
      modifies this
      ensures Valid()
      ensures var u := old(current).value.userId;
              counts == old(counts)[u := old(counts)[u] - (if failed then 2 else 1)]
              && failures == (if failed then old(failures)[u := Get(old(failures), u) + 1] else old(failures))
      ensures current == None && !processing && unfinished == old(unfinished) - 1
      ensures queue == old(queue) && outbox == old(outbox) && admitted == old(admitted) && taken == old(taken)
    {
      var u := current.value.userId;
      ghost var served := current.value;
      var count := counts[u];
      if failed {
        count := count - 1;
        failures := failures[u := Get(failures, u) + 1];
      }
      count := count - 1;
      counts := counts[u := count];
      unfinished := unfinished - 1;
      current := None;
      processing := false;
      forall v | v in counts
        ensures counts[v] == PendingOf(queue, current, v) - Get(failures, v)
      {
        PendingAfterService(queue, served, v);
      }
    }

    /** The bookkeeping with the decrement done once whatever happens. */
    method ReleaseCorrected()
      requires Valid() && current.Some?
      modifies this
      ensures Valid()
      ensures var u := old(current).value.userId;
              counts == old(counts)[u := old(counts)[u] - 1]
      ensures failures == old(failures)
      ensures current == None && !processing && unfinished == old(unfinished) - 1
      ensures queue == old(queue) && outbox == old(outbox) && admitted == old(admitted) && taken == old(taken)
    {
      var u := current.value.userId;
      counts := counts[u := counts[u] - 1];
      unfinished := unfinished - 1;
      current := None;
      processing := false;
    }

    /** The rest of the loop body as written: the effects of the request
        (all of them, or those before the exception), then `Release`. */
    method Finish(g: Generated, failAt: Option<nat>)
      requires Valid() && current.Some? && Matches(current.value.action, g)
      modifies this
      ensures Valid()
      ensures var r := old(current).value;
              outbox == old(outbox) + Emitted(ItemEvents(r, g), failAt)
              && counts == old(counts)[r.userId := old(counts)[r.userId] - (if failAt.Some? then 2 else 1)]
      ensures current == None && !processing && unfinished == old(unfinished) - 1
      ensures queue == old(queue) && admitted == old(admitted) && taken == old(taken)
    {
      var r := current.value;
      Record(Emitted(ItemEvents(r, g), failAt));
      Release(failAt.Some?);
    }

    /** The loop body with the decrement done once whatever happens: each
        user's counter stays equal to their pending requests. */
    method FinishCorrected(g: Generated, failAt: Option<nat>)
      requires Valid() && current.Some? && Matches(current.value.action, g)
      modifies this
      ensures Valid()
      ensures var r := old(current).value;
              outbox == old(outbox) + Emitted(ItemEvents(r, g), failAt)
              && counts == old(counts)[r.userId := old(counts)[r.userId] - 1]
      ensures failures == old(failures)
      ensures current == None && !processing && unfinished == old(unfinished) - 1
      ensures queue == old(queue) && admitted == old(admitted) && taken == old(taken)
    {
      var r := current.value;
      Record(Emitted(ItemEvents(r, g), failAt));
      ReleaseCorrected();
    }
  }

  /** Without failures every counter is the user's number of pending requests,
      so it is never negative, and no user has more requests queued or being
      served than the depth allows (what `is_room_in_queue` is there to keep). */
  lemma CountsArePending(c: Client, u: nat)
    requires c.Valid() && c.failures == map[] && u in c.counts
    ensures c.counts[u] == PendingOf(c.queue, c.current, u) && c.counts[u] >= 0
    ensures PendingOf(c.queue, c.current, u) <= MaxDepth(c.depth)
  {
  }
}
