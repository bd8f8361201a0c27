/** processUser.js, the newer revision of `processTelegramUser`: a regular send waits
    for its own cool-down (`telegramSendIntervalHours`), and an initial send, made
    once a user first links a Telegram id, skips it. */
module DigestSend {
  import opened Wrappers
  import opened Text
  import opened Records
  import opened Collaborators
  import opened DigestContent

  /** The user may receive a digest at all: pro tier and a Telegram id. */
  predicate Eligible(u: UserRow) {
    u.isPro && Truthy(u.telegramId)
  }

  /** A last send exists and lies within `hours` before `now` (both ends included). */
  predicate SentWithin(lastSent: Option<int>, now: int, hours: int) {
    lastSent.Some? && now - lastSent.value <= hours * MsPerHour
  }

  /** `shouldAttemptTelegramSend(user, isInitialSend)`. */
  predicate ShouldAttemptTelegramSend(u: UserRow, isInitialSend: bool, now: int, telegramSendIntervalHours: int)
    ensures ShouldAttemptTelegramSend(u, isInitialSend, now, telegramSendIntervalHours) ==>
      Eligible(u) && HasValidContentForTelegram(u)
    ensures Eligible(u) && HasValidContentForTelegram(u) ==>
      (ShouldAttemptTelegramSend(u, isInitialSend, now, telegramSendIntervalHours) <==>
        isInitialSend || !SentWithin(u.teleLastSent, now, telegramSendIntervalHours))
  {
    if !u.isPro || !Truthy(u.telegramId) then false
    else if !HasValidContentForTelegram(u) then false
    else if isInitialSend then true
    else if u.teleLastSent.Some? then
      var threshold := now - telegramSendIntervalHours * 60 * 60 * 1000;
      !(u.teleLastSent.value >= threshold)
    else true
  }

  /** An initial send does not look at `tele_last_sent`. */
  lemma InitialSendIgnoresCooldown(u: UserRow, lastSent: Option<int>, now: int, hours: int)
    ensures ShouldAttemptTelegramSend(u.(teleLastSent := lastSent), true, now, hours)
        == ShouldAttemptTelegramSend(u, true, now, hours)
  {
  }

  /** A regular send exactly one cool-down after the last one is still too early. */
  lemma CooldownBoundaryBlocks(u: UserRow, now: int, hours: int)
    requires u.teleLastSent == Some(now - hours * MsPerHour)
    ensures !ShouldAttemptTelegramSend(u, false, now, hours)
  {
  }

  /** Once a regular send is due it stays due as time goes on. */
  lemma DueStaysDue(u: UserRow, now: int, later: int, hours: int)
    requires now <= later
    requires ShouldAttemptTelegramSend(u, false, now, hours)
    ensures ShouldAttemptTelegramSend(u, false, later, hours)
  {
  }

  /** Where a call of `processTelegramUser` stopped. */
  datatype SendOutcome =
    | NotEligible          // not pro or no Telegram id
    | RefreshInProgress    // content stale and the user is locked by another cycle
    | RefreshFailed        // the forced refresh returned false or threw
    | RefetchFailed        // the row could not be read back after the refresh
    | NotDue               // shouldAttemptTelegramSend said no
    | Sent(delivered: bool)  // one post attempt, then one tele_last_sent update

  /** The row the send decision reads: the refetched one after a refresh. */
  function SendTarget(user: UserRow, stale: bool, replies: SendReplies): UserRow {
    if stale && replies.refetch.Fetched? then replies.refetch.value else user
  }

  /** The forced refresh, when content is stale, was admitted by the lock and
      produced a row to send from. */
  predicate RefreshAdmitted(user: UserRow, stale: bool, keys: set<string>, replies: SendReplies) {
    stale ==> user.email !in keys && replies.refresh == Returned(true) && replies.refetch.Fetched?
  }

  /** The send check passes on the row the decision reads: the user is eligible, a
      needed refresh was admitted and produced a row, and that row is due. */
  predicate Sends(user: UserRow, isInitialSend: bool, now: int, cfg: Settings, held: set<string>, replies: SendReplies) {
    var stale := IsContentStale(user, now, cfg.jobRefreshHours);
    Eligible(user) && RefreshAdmitted(user, stale, held, replies)
    && ShouldAttemptTelegramSend(SendTarget(user, stale, replies), isInitialSend, now, cfg.telegramSendIntervalHours)
  }

  /** The requests one call issues to the content pipeline, the messaging agent and
      the store. */
  datatype Effect = Effect(runs: seq<Run>, posts: seq<string>, writes: seq<Write>)

  /** The post and the `tele_last_sent` update issued from the row in hand once the
      refresh step is behind: both exactly when that row is due. */
  function Delivery(target: UserRow, isInitialSend: bool, now: int, cfg: Settings): Effect {
    var due := ShouldAttemptTelegramSend(target, isInitialSend, now, cfg.telegramSendIntervalHours);
    Effect([],
      if due then [DigestPrompt(Digest(target), target.telegramId.value)] else [],
      if due then [SetTeleLastSent(target.email, now)] else [])
  }

  /** What one call of `processTelegramUser` issues, given the lock set it starts
      from (`held`) and the answers it receives. */
  function SendEffect(user: UserRow, isInitialSend: bool, now: int, cfg: Settings, held: set<string>,
                      replies: SendReplies): Effect
  {
    var stale := IsContentStale(user, now, cfg.jobRefreshHours);
    var d := if Eligible(user) && RefreshAdmitted(user, stale, held, replies)
      then Delivery(SendTarget(user, stale, replies), isInitialSend, now, cfg) else Effect([], [], []);
    Effect(
      if Eligible(user) && stale && user.email !in held then [Run(user, true, held + {user.email})] else [],
      d.posts, d.writes)
  }

  /** Every post attempt is followed by exactly one `tele_last_sent` update of the
      row it was built from, and a post carries a non-empty digest that opens with a
      `## ` heading. */
  lemma {:induction false} EveryPostIsRecorded(user: UserRow, isInitialSend: bool, now: int, cfg: Settings,
                                               held: set<string>, replies: SendReplies)
    ensures var e := SendEffect(user, isInitialSend, now, cfg, held, replies);
      |e.posts| == |e.writes| <= 1
    ensures var e := SendEffect(user, isInitialSend, now, cfg, held, replies);
      var target := SendTarget(user, IsContentStale(user, now, cfg.jobRefreshHours), replies);
      |e.posts| == 1 ==>
        && e.writes[0] == SetTeleLastSent(target.email, now)
        && Digest(target) != "" && Digest(target)[0] == '#'
        && e.posts[0] == DigestPrompt(Digest(target), target.telegramId.value)
  {
    var stale := IsContentStale(user, now, cfg.jobRefreshHours);
    var target := SendTarget(user, stale, replies);
    if Sends(user, isInitialSend, now, cfg, held, replies) {
      DigestEmptyIff(target);
    }
  }

  /** A stale row whose refresh fails, throws, or finds its user locked gets no post. */
  lemma NoPostWithoutRefresh(user: UserRow, isInitialSend: bool, now: int, cfg: Settings,
                             held: set<string>, replies: SendReplies)
    requires IsContentStale(user, now, cfg.jobRefreshHours)
    requires user.email in held || replies.refresh != Returned(true) || replies.refetch.FetchFailed?
    ensures SendEffect(user, isInitialSend, now, cfg, held, replies).posts == []
    ensures SendEffect(user, isInitialSend, now, cfg, held, replies).writes == []
  {
  }

  /** The content pipeline is invoked only for an eligible user with stale content
      whose key is free, and then once, forced, with the key held. */
  lemma RefreshOnlyWhenStale(user: UserRow, isInitialSend: bool, now: int, cfg: Settings,
                             held: set<string>, replies: SendReplies)
    ensures var e := SendEffect(user, isInitialSend, now, cfg, held, replies);
      |e.runs| <= 1
      && (|e.runs| == 1 <==> Eligible(user) && IsContentStale(user, now, cfg.jobRefreshHours) && user.email !in held)
      && (|e.runs| == 1 ==> e.runs[0].force && e.runs[0].user == user && e.runs[0].locked == held + {user.email})
  {
  }

  class DigestSender {
    const locks: LockSet
    const world: Collaborators

    constructor (locks: LockSet, world: Collaborators)
      ensures this.locks == locks && this.world == world
    {
      this.locks := locks;
      this.world := world;
    }

    /** `processTelegramUser(user, usersCurrentlyProcessingContent, isInitialSend)`. */
    method ProcessTelegramUser(user: UserRow, isInitialSend: bool, now: int, cfg: Settings, replies: SendReplies)
      returns (outcome: SendOutcome)
      modifies locks, world
      ensures locks.keys == old(locks.keys)
      ensures var stale := IsContentStale(user, now, cfg.jobRefreshHours);
        var refreshing := Eligible(user) && stale && user.email !in old(locks.keys);
        && (!Eligible(user) ==> outcome == NotEligible)
        && (Eligible(user) && stale && user.email in old(locks.keys) ==> outcome == RefreshInProgress)
        && (refreshing && replies.refresh != Returned(true) ==> outcome == RefreshFailed)
        && (refreshing && replies.refresh == Returned(true) && replies.refetch.FetchFailed? ==> outcome == RefetchFailed)
      ensures var e := SendEffect(user, isInitialSend, now, cfg, old(locks.keys), replies);
        world.runs == old(world.runs) + e.runs && world.posts == old(world.posts) + e.posts
        && world.writes == old(world.writes) + e.writes
      ensures outcome.Sent? <==> Sends(user, isInitialSend, now, cfg, old(locks.keys), replies)
      ensures var stale := IsContentStale(user, now, cfg.jobRefreshHours);
        Eligible(user) && RefreshAdmitted(user, stale, old(locks.keys), replies)
        && !ShouldAttemptTelegramSend(SendTarget(user, stale, replies), isInitialSend, now, cfg.telegramSendIntervalHours)
        ==> outcome == NotDue
      ensures outcome.Sent? ==> outcome.delivered == replies.postDelivered
    {
      ghost var held := locks.keys;
      ghost var stale := IsContentStale(user, now, cfg.jobRefreshHours);
      if !user.isPro || !Truthy(user.telegramId) {
        return NotEligible;
      }
      var stop, currentUserData := RefreshIfStale(user, now, cfg, replies);
      if stop.Some? {
        return stop.value;
      }
      assert currentUserData == SendTarget(user, stale, replies);
      assert Sends(user, isInitialSend, now, cfg, held, replies)
        <==> ShouldAttemptTelegramSend(currentUserData, isInitialSend, now, cfg.telegramSendIntervalHours);
      outcome := Deliver(currentUserData, isInitialSend, now, cfg, replies);
    }

    /** The first half of `processTelegramUser`: when content is stale, a forced
      refresh under the user's lock and a read-back of the row. `stop` is the outcome
      when the call ends here; otherwise `target` is the row to send from. */
    method RefreshIfStale(user: UserRow, now: int, cfg: Settings, replies: SendReplies)
      returns (stop: Option<SendOutcome>, target: UserRow)
      modifies locks, world
      ensures locks.keys == old(locks.keys)
      ensures world.posts == old(world.posts) && world.writes == old(world.writes)
      ensures var stale := IsContentStale(user, now, cfg.jobRefreshHours);
        world.runs == old(world.runs) +
          if stale && user.email !in old(locks.keys) then [Run(user, true, old(locks.keys) + {user.email})] else []
      ensures var stale := IsContentStale(user, now, cfg.jobRefreshHours);
        && (stop.None? <==> RefreshAdmitted(user, stale, old(locks.keys), replies))
        && (stop.None? ==> target == SendTarget(user, stale, replies))
        && (stale && user.email in old(locks.keys) ==> stop == Some(RefreshInProgress))
        && (stale && user.email !in old(locks.keys) && replies.refresh != Returned(true) ==> stop == Some(RefreshFailed))
        && (stale && user.email !in old(locks.keys) && replies.refresh == Returned(true) && replies.refetch.FetchFailed?
            ==> stop == Some(RefetchFailed))
    {
      target := user;
      stop := None;
      if IsContentStale(target, now, cfg.jobRefreshHours) {
        if target.email in locks.keys {
          return Some(RefreshInProgress), target;
        }
        locks.keys := locks.keys + {target.email};
        world.runs := world.runs + [Run(target, true, locks.keys)];
        // a throw is caught and leaves the flag false; the key is removed in `finally`
        var refreshSuccessful := replies.refresh == Returned(true);
        locks.keys := locks.keys - {target.email};
        if !refreshSuccessful {
          return Some(RefreshFailed), target;
        }
        if replies.refetch.FetchFailed? {
          return Some(RefetchFailed), target;
        }
        target := replies.refetch.value;
      }
    }

    /** The second half of `processTelegramUser`: the send check on the row in hand,
      then the digest, one post attempt and its `tele_last_sent` update. */
    method Deliver(target: UserRow, isInitialSend: bool, now: int, cfg: Settings, replies: SendReplies)
      returns (outcome: SendOutcome)
      modifies world
      ensures world.runs == old(world.runs)
      ensures outcome == (if ShouldAttemptTelegramSend(target, isInitialSend, now, cfg.telegramSendIntervalHours)
                          then Sent(replies.postDelivered) else NotDue)
      ensures var d := Delivery(target, isInitialSend, now, cfg);
        world.posts == old(world.posts) + d.posts && world.writes == old(world.writes) + d.writes
    {
      if !ShouldAttemptTelegramSend(target, isInitialSend, now, cfg.telegramSendIntervalHours) {
        return NotDue;
      }
      var combinedNews := BuildDigest(target);
      if combinedNews == "" {
        // unreachable: the send check above already demands a sendable field
        assert false;
      }
      var prompt := DigestPrompt(combinedNews, target.telegramId.value);
      var postAttempted := false;
      world.posts := world.posts + [prompt];
      postAttempted := true;  // set after a delivered post and in the `catch` alike
      if postAttempted {
        world.writes := world.writes + [SetTeleLastSent(target.email, now)];
      }
      outcome := Sent(replies.postDelivered);
    }
  }
}
