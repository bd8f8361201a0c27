/** processTelegramUser.js, the older revision of `processTelegramUser`: there is no
    initial send, and the send cool-down is the content refresh window
    (`jobRefreshHours`). The helpers shared with the newer revision live in
    DigestContent; the flow is otherwise the same. */
module LegacyDigestSend {
  import opened Wrappers
  import opened Text
  import opened Records
  import opened Collaborators
  import opened DigestContent
  import DigestSend

  /** `shouldAttemptTelegramSend(user)`: no initial-send bypass, and the cool-down is
      the content refresh window. */
  predicate ShouldAttemptTelegramSend(u: UserRow, now: int, jobRefreshHours: int)
    ensures ShouldAttemptTelegramSend(u, now, jobRefreshHours) <==>
      DigestSend.Eligible(u) && HasValidContentForTelegram(u)
      && !DigestSend.SentWithin(u.teleLastSent, now, jobRefreshHours)
  {
    if !u.isPro || !Truthy(u.telegramId) then false
    else if !HasValidContentForTelegram(u) then false
    else if u.teleLastSent.Some? then
      var threshold := now - jobRefreshHours * 60 * 60 * 1000;
      !(u.teleLastSent.value >= threshold)
    else true
  }

  /** The older send check is the newer one's regular send, with the refresh window
      as its cool-down. */
  lemma {:induction false} OlderIsRegularSend(u: UserRow, now: int, jobRefreshHours: int)
    ensures ShouldAttemptTelegramSend(u, now, jobRefreshHours)
        == DigestSend.ShouldAttemptTelegramSend(u, false, now, jobRefreshHours)
  {
  }

  class LegacyDigestSender {
    const locks: LockSet
    const world: Collaborators

    constructor (locks: LockSet, world: Collaborators)
      ensures this.locks == locks && this.world == world
    {
      this.locks := locks;
      this.world := world;
    }

    /** `processTelegramUser(user, usersCurrentlyProcessingContent)`. */
    method ProcessTelegramUser(user: UserRow, now: int, cfg: Settings, replies: SendReplies)
      returns (outcome: DigestSend.SendOutcome)
      modifies locks, world
      ensures locks.keys == old(locks.keys)
      ensures var stale := IsContentStale(user, now, cfg.jobRefreshHours);
        var refreshing := DigestSend.Eligible(user) && stale && user.email !in old(locks.keys);
        && (!DigestSend.Eligible(user) ==> outcome == DigestSend.NotEligible)
        && (DigestSend.Eligible(user) && stale && user.email in old(locks.keys) ==> outcome == DigestSend.RefreshInProgress)
        && (refreshing && replies.refresh != Returned(true) ==> outcome == DigestSend.RefreshFailed)
        && (refreshing && replies.refresh == Returned(true) && replies.refetch.FetchFailed? ==> outcome == DigestSend.RefetchFailed)
      ensures var stale := IsContentStale(user, now, cfg.jobRefreshHours);
        world.runs == old(world.runs) +
          if DigestSend.Eligible(user) && stale && user.email !in old(locks.keys)
          then [Run(user, true, old(locks.keys) + {user.email})] else []
      ensures var stale := IsContentStale(user, now, cfg.jobRefreshHours);
        var target := DigestSend.SendTarget(user, stale, replies);
        outcome.Sent? <==>
          DigestSend.Eligible(user) && DigestSend.RefreshAdmitted(user, stale, old(locks.keys), replies)
          && ShouldAttemptTelegramSend(target, now, cfg.jobRefreshHours)
      ensures var stale := IsContentStale(user, now, cfg.jobRefreshHours);
        DigestSend.Eligible(user) && DigestSend.RefreshAdmitted(user, stale, old(locks.keys), replies)
        && !ShouldAttemptTelegramSend(DigestSend.SendTarget(user, stale, replies), now, cfg.jobRefreshHours)
        ==> outcome == DigestSend.NotDue
      ensures var target := DigestSend.SendTarget(user, IsContentStale(user, now, cfg.jobRefreshHours), replies);
        outcome.Sent? ==>
          && outcome.delivered == replies.postDelivered
          && Digest(target) != ""
          && world.posts == old(world.posts) + [DigestPrompt(Digest(target), target.telegramId.value)]
          && world.writes == old(world.writes) + [SetTeleLastSent(target.email, now)]
      ensures !outcome.Sent? ==> world.posts == old(world.posts) && world.writes == old(world.writes)
    {
      if !user.isPro || !Truthy(user.telegramId) {
        return DigestSend.NotEligible;
      }
      var currentUserData := user;
      if IsContentStale(currentUserData, now, cfg.jobRefreshHours) {
        if currentUserData.email in locks.keys {
          return DigestSend.RefreshInProgress;
        }
        locks.keys := locks.keys + {currentUserData.email};
        world.runs := world.runs + [Run(currentUserData, true, locks.keys)];
        // a throw is caught and leaves the flag false; the key is removed in `finally`
        var refreshSuccessful := replies.refresh == Returned(true);
        locks.keys := locks.keys - {currentUserData.email};
        if !refreshSuccessful {
          return DigestSend.RefreshFailed;
        }
        if replies.refetch.FetchFailed? {
          return DigestSend.RefetchFailed;
        }
        currentUserData := replies.refetch.value;
      }
      assert currentUserData == DigestSend.SendTarget(user, IsContentStale(user, now, cfg.jobRefreshHours), replies);
      outcome := Deliver(currentUserData, now, cfg, replies);
    }

    /** The second half of `processTelegramUser`: the send check on the row in hand,
      then the digest, one post attempt and its `tele_last_sent` update. */
    method Deliver(target: UserRow, now: int, cfg: Settings, replies: SendReplies)
      returns (outcome: DigestSend.SendOutcome)
      modifies world
      ensures world.runs == old(world.runs)
      ensures var due := ShouldAttemptTelegramSend(target, now, cfg.jobRefreshHours);
        outcome == if due then DigestSend.Sent(replies.postDelivered) else DigestSend.NotDue
      ensures outcome.Sent? ==>
          && Digest(target) != ""
          && world.posts == old(world.posts) + [DigestPrompt(Digest(target), target.telegramId.value)]
          && world.writes == old(world.writes) + [SetTeleLastSent(target.email, now)]
      ensures !outcome.Sent? ==> world.posts == old(world.posts) && world.writes == old(world.writes)
    {
      if !ShouldAttemptTelegramSend(target, now, cfg.jobRefreshHours) {
        return DigestSend.NotDue;
      }
      var combinedNews := BuildDigest(target);
      if combinedNews == "" {
        // unreachable: the send check above already demands a sendable field
        assert false;
      }
      var prompt := DigestPrompt(combinedNews, target.telegramId.value);
      var postAttempted := false;
      world.posts := world.posts + [prompt];
      postAttempted := true;  // set after a delivered post and in the `catch` alike
      if postAttempted {
        world.writes := world.writes + [SetTeleLastSent(target.email, now)];
      }
      outcome := DigestSend.Sent(replies.postDelivered);
    }
  }
}
