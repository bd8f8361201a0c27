/** What the core sees of the code it calls but does not contain: the shared lock
    set, and a log of every request issued to the content pipeline (`processUser`),
    to the messaging agent (`postMessage`) and to the persistence store (partial
    updates of `user_preferences`). The answers those collaborators give are inputs
    of the operations that call them. */
module Collaborators {
  import opened Wrappers
  import opened Records

  /** The `usersCurrentlyProcessingContent` Set of worker.js, shared by every cycle
      and passed into `processTelegramUser`. Membership means "processUser is
      running for this user". */
  class LockSet {
    var keys: set<string>

    constructor ()
      ensures keys == {}
    {
      keys := {};
    }
  }

  /** One call of `processUser(user, force)`, with the lock set as it was while the
      call ran. */
  datatype Run = Run(user: UserRow, force: bool, locked: set<string>)

  /** A partial-field update of one `user_preferences` row, keyed by user_email. */
  datatype Write =
    | SetTeleLastSent(email: string, at: int)
    | SetInitialSendScheduledAt(email: string, at: int)

  /** The request log of the external collaborators. */
  class Collaborators {
    var runs: seq<Run>
    var posts: seq<string>
    var writes: seq<Write>

    constructor ()
      ensures runs == [] && posts == [] && writes == []
    {
      runs, posts, writes := [], [], [];
    }
  }

  /** A query answered by the store: the data, or its error indicator (also used for
      `.single()` finding no row). */
  datatype Fetch<T> = Fetched(value: T) | FetchFailed(message: string)

  /** How a call of `processUser` ended: it returned a boolean, or it threw. */
  datatype RefreshReply = Returned(ok: bool) | Threw

  /** The answers `processTelegramUser` receives: the forced refresh, the refetch of
      the user row, and whether the agent accepted the post. */
  datatype SendReplies = SendReplies(refresh: RefreshReply, refetch: Fetch<UserRow>, postDelivered: bool)
}
