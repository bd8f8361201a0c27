/** worker.js: four self-rescheduling cycles over the pro users, each with its
    re-entrancy flag and at most one pending timer, sharing one lock set of user
    keys with the digest sender. Timers are state: a set of pending timers, each
    with a fresh id, and a handle per cycle. The store's answers, the two
    `needs*Update` predicates and the local wall clock are inputs. */
module Worker {
  import opened Wrappers
  import opened Text
  import opened Records
  import opened Collaborators
  import opened DigestSend

  /** `FIVE_MINUTES_MS`, the delay of an initial Telegram send. */
  const FiveMinutesMs: int := 5 * MsPerMinute

  datatype Cycle = ScheduledContent | ImmediateCheck | TelegramJob | MidnightRefresh

  /** What a timer runs when it fires: a cycle, or the deferred initial send of a
      copy of a user row. */
  datatype Job = RunCycle(cycle: Cycle) | InitialSend(user: UserRow)

  datatype Timer = Timer(id: nat, job: Job, delay: int)

  /** The four `*TimeoutId` variables. */
  datatype HandleState = HandleState(scheduledContent: Option<Timer>, immediateCheck: Option<Timer>,
                                     telegramJob: Option<Timer>, midnightRefresh: Option<Timer>)
  {
    function Get(c: Cycle): Option<Timer> {
      match c
      case ScheduledContent => scheduledContent
      case ImmediateCheck => immediateCheck
      case TelegramJob => telegramJob
      case MidnightRefresh => midnightRefresh
    }

    function Set(c: Cycle, t: Option<Timer>): HandleState {
      match c
      case ScheduledContent => this.(scheduledContent := t)
      case ImmediateCheck => this.(immediateCheck := t)
      case TelegramJob => this.(telegramJob := t)
      case MidnightRefresh => this.(midnightRefresh := t)
    }
  }

  /** The rows a user query yields: none when it reports an error. */
  function FetchedUsers(fetch: Fetch<seq<UserRow>>): seq<UserRow> {
    if fetch.Fetched? then fetch.value else []
  }

  // ---------------------------------------------------------------------------
  // Content refresh (scheduled and immediate cycles)

  /** The `processUser(user)` calls one pass over `users` makes when the lock set
      stands at `held` throughout: each user that is not locked and that `due`
      selects, in order, with its own key added. */
  function ContentRuns(users: seq<UserRow>, held: set<string>, due: UserRow -> bool): seq<Run>
    decreases |users|
  {
    if users == [] then []
    else
      var n := |users| - 1;
      var u := users[n];
      ContentRuns(users[..n], held, due)
      + if u.email !in held && due(u) then [Run(u, false, held + {u.email})] else []
  }

  /** A pass refreshes exactly the selected users that are not locked, each
      unforced and with its key held during the call. */
  lemma {:induction false} ContentRunsExactly(users: seq<UserRow>, held: set<string>, due: UserRow -> bool)
    ensures forall r :: r in ContentRuns(users, held, due) ==>
      r.user in users && r.user.email !in held && due(r.user) && !r.force && r.locked == held + {r.user.email}
    ensures forall k :: 0 <= k < |users| && users[k].email !in held && due(users[k]) ==>
      Run(users[k], false, held + {users[k].email}) in ContentRuns(users, held, due)
    ensures |ContentRuns(users, held, due)| <= |users|
    decreases |users|
  {
    if users != [] {
      var n := |users| - 1;
      ContentRunsExactly(users[..n], held, due);
      var prev := ContentRuns(users[..n], held, due);
      var last := if users[n].email !in held && due(users[n]) then [Run(users[n], false, held + {users[n].email})] else [];
      assert ContentRuns(users, held, due) == prev + last;
      forall k | 0 <= k < |users| && users[k].email !in held && due(users[k])
        ensures Run(users[k], false, held + {users[k].email}) in prev + last
      {
        if k < n {
          assert users[k] == users[..n][k];
        }
      }
    }
  }

  // ---------------------------------------------------------------------------
  // Initial Telegram sends (immediate cycle)

  /** The row has a Telegram id but no `telegram_initial_send_scheduled_at` yet. */
  predicate NeedsInitialSend(u: UserRow) {
    Truthy(u.telegramId) && u.initialSendScheduledAt.None?
  }

  /** The marking updates a pass issues: one per row that needs an initial send,
      stamped with the time (`clock` at the row's position) the row was handled. */
  function InitialMarks(users: seq<UserRow>, clock: nat -> int): seq<Write>
    decreases |users|
  {
    if users == [] then []
    else
      var n := |users| - 1;
      InitialMarks(users[..n], clock)
      + if NeedsInitialSend(users[n]) then [SetInitialSendScheduledAt(users[n].email, clock(n))] else []
  }

  /** The rows whose initial send gets scheduled: those that need one and whose
      marking update succeeded (`markOk` answers for the row at each position). */
  function InitialQueue(users: seq<UserRow>, markOk: nat -> bool): seq<UserRow>
    decreases |users|
  {
    if users == [] then []
    else
      var n := |users| - 1;
      InitialQueue(users[..n], markOk) + if NeedsInitialSend(users[n]) && markOk(n) then [users[n]] else []
  }

  /** The five-minute timers of the initial sends, numbered from `firstId` in the
      order the rows come. */
  function InitialTimers(users: seq<UserRow>, markOk: nat -> bool, firstId: nat): set<Timer>
    decreases |users|
  {
    if users == [] then {}
    else
      var n := |users| - 1;
      InitialTimers(users[..n], markOk, firstId)
      + if NeedsInitialSend(users[n]) && markOk(n)
        then {Timer(firstId + |InitialQueue(users[..n], markOk)|, InitialSend(users[n]), FiveMinutesMs)}
        else {}
  }

  /** A send is scheduled only after a marking update was issued for the row, so
      there are never more initial timers than marks; each queued row needs its
      initial send. */
  lemma {:induction false} QueueFollowsMarks(users: seq<UserRow>, markOk: nat -> bool, clock: nat -> int)
    ensures |InitialQueue(users, markOk)| <= |InitialMarks(users, clock)|
    ensures forall u :: u in InitialQueue(users, markOk) ==> u in users && NeedsInitialSend(u)
    decreases |users|
  {
    if users != [] {
      var n := |users| - 1;
      QueueFollowsMarks(users[..n], markOk, clock);
    }
  }

  /** The initial timers are five-minute initial sends of queued rows with ids
      in `[firstId, firstId + |queue|)`, one per queued row. */
  lemma {:induction false} InitialTimersShape(users: seq<UserRow>, markOk: nat -> bool, firstId: nat)
    ensures forall t :: t in InitialTimers(users, markOk, firstId) ==>
      && t.job.InitialSend? && t.job.user in InitialQueue(users, markOk) && t.delay == FiveMinutesMs
      && firstId <= t.id < firstId + |InitialQueue(users, markOk)|
    ensures |InitialTimers(users, markOk, firstId)| == |InitialQueue(users, markOk)|
    decreases |users|
  {
    if users != [] {
      var n := |users| - 1;
      InitialTimersShape(users[..n], markOk, firstId);
      var q := InitialQueue(users[..n], markOk);
      if NeedsInitialSend(users[n]) && markOk(n) {
        var t := Timer(firstId + |q|, InitialSend(users[n]), FiveMinutesMs);
        assert t !in InitialTimers(users[..n], markOk, firstId);
        assert InitialQueue(users, markOk) == q + [users[n]];
      }
    }
  }

  /** No cycle timer is an initial-send timer. */
  lemma {:induction false} CycleTimerNotInitial(users: seq<UserRow>, markOk: nat -> bool, firstId: nat, t: Timer)
    requires t.job.RunCycle?
    ensures t !in InitialTimers(users, markOk, firstId)
    decreases |users|
  {
    if users != [] {
      CycleTimerNotInitial(users[..|users| - 1], markOk, firstId, t);
    }
  }

  // ---------------------------------------------------------------------------
  // Regular Telegram sends (telegram cycle)

  /** The requests a pass of regular sends issues, the lock set standing at `held`
      throughout; `clock` is the time read when the row at each position is
      handled, and `replies` answers for that row. */
  function TelegramRound(users: seq<UserRow>, clock: nat -> int, cfg: Settings, held: set<string>,
                         replies: nat -> SendReplies): Effect
    decreases |users|
  {
    if users == [] then Effect([], [], [])
    else
      var n := |users| - 1;
      var before := TelegramRound(users[..n], clock, cfg, held, replies);
      var e := SendEffect(users[n], false, clock(n), cfg, held, replies(n));
      Effect(before.runs + e.runs, before.posts + e.posts, before.writes + e.writes)
  }

  /** Clearing a timer that was not among those just added commutes with adding them. */
  lemma ClearAfterAdd(p: set<Timer>, added: set<Timer>, cleared: set<Timer>, t: Timer)
    requires added !! cleared
    ensures p + added - cleared + {t} == p - cleared + added + {t}
  {
  }

  lemma AppendAssoc<T>(a: seq<T>, b: seq<T>, c: seq<T>)
    ensures (a + b) + c == a + (b + c)
  {
  }

  /** A round over one more row appends that row's effect. */
  lemma TelegramRoundSnoc(users: seq<UserRow>, i: nat, clock: nat -> int, cfg: Settings, held: set<string>,
                          replies: nat -> SendReplies)
    requires i < |users|
    ensures var before := TelegramRound(users[..i], clock, cfg, held, replies);
      var e := SendEffect(users[i], false, clock(i), cfg, held, replies(i));
      TelegramRound(users[..i + 1], clock, cfg, held, replies)
        == Effect(before.runs + e.runs, before.posts + e.posts, before.writes + e.writes)
  {
    assert users[..i + 1][..i] == users[..i];
  }

  /** Over a whole pass every post attempt has its own `tele_last_sent` update,
      stamped with the time one of the rows was handled, and every content refresh
      is forced. */
  lemma {:induction false} RoundRecordsEveryPost(users: seq<UserRow>, clock: nat -> int, cfg: Settings,
                                                 held: set<string>, replies: nat -> SendReplies)
    ensures var e := TelegramRound(users, clock, cfg, held, replies);
      |e.posts| == |e.writes|
      && (forall w :: w in e.writes ==> w.SetTeleLastSent? && exists k :: 0 <= k < |users| && w.at == clock(k))
      && (forall r :: r in e.runs ==> r.force && r.user.email !in held)
    decreases |users|
  {
    if users != [] {
      var n := |users| - 1;
      RoundRecordsEveryPost(users[..n], clock, cfg, held, replies);
      EveryPostIsRecorded(users[n], false, clock(n), cfg, held, replies(n));
      RefreshOnlyWhenStale(users[n], false, clock(n), cfg, held, replies(n));
      var e := SendEffect(users[n], false, clock(n), cfg, held, replies(n));
      assert forall w :: w in e.writes ==> w.SetTeleLastSent? && w.at == clock(n);
    }
  }

  // ---------------------------------------------------------------------------
  // Midnight refresh

  /** The `processUser(user, true)` calls of the midnight batch. The check and the
      add of every key run before the first `await`, so keys added for earlier
      rows of the batch count as held for later ones. */
  function MidnightRuns(users: seq<UserRow>, held: set<string>): seq<Run>
    decreases |users|
  {
    if users == [] then []
    else if users[0].email in held then MidnightRuns(users[1..], held)
    else [Run(users[0], true, held + {users[0].email})] + MidnightRuns(users[1..], held + {users[0].email})
  }

  /** The keys of a batch. */
  function Emails(users: seq<UserRow>): set<string> {
    set k | 0 <= k < |users| :: users[k].email
  }

  /** Every call of the batch is forced and is for a row of the batch whose key was
      not held. */
  lemma {:induction false} MidnightRunsFresh(users: seq<UserRow>, held: set<string>)
    ensures forall r :: r in MidnightRuns(users, held) ==> r.force && r.user in users && r.user.email !in held
    decreases |users|
  {
    if users != [] {
      var u := users[0];
      var rest := users[1..];
      if u.email in held {
        MidnightRunsFresh(rest, held);
      } else {
        var held' := held + {u.email};
        MidnightRunsFresh(rest, held');
        assert MidnightRuns(users, held) == [Run(u, true, held')] + MidnightRuns(rest, held');
      }
    }
  }

  /** No key is refreshed twice in one batch, even when it repeats. */
  lemma {:induction false} MidnightRunsDistinct(users: seq<UserRow>, held: set<string>)
    ensures forall i, j :: 0 <= i < j < |MidnightRuns(users, held)| ==>
      MidnightRuns(users, held)[i].user.email != MidnightRuns(users, held)[j].user.email
    decreases |users|
  {
    if users != [] {
      var u := users[0];
      var rest := users[1..];
      if u.email in held {
        MidnightRunsDistinct(rest, held);
        assert MidnightRuns(users, held) == MidnightRuns(rest, held);
      } else {
        var held' := held + {u.email};
        MidnightRunsDistinct(rest, held');
        MidnightRunsFresh(rest, held');
        var tail := MidnightRuns(rest, held');
        var runs := MidnightRuns(users, held);
        assert runs == [Run(u, true, held')] + tail;
        forall i, j | 0 <= i < j < |runs|
          ensures runs[i].user.email != runs[j].user.email
        {
          assert runs[j] == tail[j - 1];
          if i == 0 {
            assert tail[j - 1] in tail;
            assert tail[j - 1].user.email !in held';
          } else {
            assert runs[i] == tail[i - 1];
          }
        }
      }
    }
  }

  /** Every key of the batch that was not held is refreshed. */
  lemma {:induction false} MidnightRunsComplete(users: seq<UserRow>, held: set<string>)
    ensures forall e :: e in Emails(users) && e !in held ==> exists r :: r in MidnightRuns(users, held) && r.user.email == e
    decreases |users|
  {
    if users != [] {
      var u := users[0];
      var rest := users[1..];
      var held' := if u.email in held then held else held + {u.email};
      MidnightRunsComplete(rest, held');
      var runs := MidnightRuns(users, held);
      var tail := MidnightRuns(rest, held');
      assert forall r :: r in tail ==> r in runs;
      forall e | e in Emails(users) && e !in held
        ensures exists r :: r in runs && r.user.email == e
      {
        var k :| 0 <= k < |users| && users[k].email == e;
        if e == u.email {
          assert runs[0].user.email == e;
        } else {
          assert rest[k - 1].email == e;
          assert e in Emails(rest);
        }
      }
    }
  }

  /** Local wall-clock time after `toLocaleString`, which keeps whole seconds:
      `day` counts local days. */
  datatype WallClock = WallClock(day: int, hour: int, minute: int, second: int)

  predicate ValidClock(c: WallClock) {
    0 <= c.hour < 24 && 0 <= c.minute < 60 && 0 <= c.second < 60
  }

  function TimeOfDayMs(c: WallClock): int {
    c.hour * MsPerHour + c.minute * MsPerMinute + c.second * MsPerSecond
  }

  /** `londonNow.getTime()` on the local time line, daylight saving aside. */
  function LocalTime(c: WallClock): int {
    c.day * MsPerDay + TimeOfDayMs(c)
  }

  /** `setDate(getDate() + 1)` then `setHours(0, 0, 0, 0)`. */
  function NextMidnight(c: WallClock): int {
    (c.day + 1) * MsPerDay
  }

  /** `msUntilMidnight`: one day less the local time of day, so within a day and
      never zero, in whole seconds. */
  function MsUntilMidnight(c: WallClock): (d: int)
    requires ValidClock(c)
    ensures d == MsPerDay - TimeOfDayMs(c)
    ensures 0 < d <= MsPerDay
    ensures d % MsPerSecond == 0
  {
    NextMidnight(c) - LocalTime(c)
  }

  /** The refresh is due on a local midnight; a later time of the same day waits
      less; one second before midnight waits one second and midnight a whole day. */
  lemma MidnightDelayFacts(c: WallClock, c': WallClock)
    requires ValidClock(c) && ValidClock(c') && c.day == c'.day && LocalTime(c) <= LocalTime(c')
    ensures (LocalTime(c) + MsUntilMidnight(c)) % MsPerDay == 0
    ensures LocalTime(c) < LocalTime(c) + MsUntilMidnight(c) <= LocalTime(c) + MsPerDay
    ensures MsUntilMidnight(c') <= MsUntilMidnight(c)
    ensures c.hour == 23 && c.minute == 59 && c.second == 59 ==> MsUntilMidnight(c) == MsPerSecond
    ensures c.hour == 0 && c.minute == 0 && c.second == 0 ==> MsUntilMidnight(c) == MsPerDay
  {
    assert LocalTime(c) + MsUntilMidnight(c) == (c.day + 1) * MsPerDay;
  }

  // ---------------------------------------------------------------------------
  // The scheduler

  class Scheduler {
    const locks: LockSet
    const world: Collaborators
    const sender: DigestSender
    const settings: Settings

    var isScheduledContentJobRunning: bool
    var isImmediateContentCheckRunning: bool
    var isTelegramJobRunning: bool
    var isMidnightRefreshRunning: bool

    var scheduledContentTimeout: Option<Timer>
    var immediateCheckTimeout: Option<Timer>
    var telegramJobTimeout: Option<Timer>
    var midnightRefreshTimeout: Option<Timer>

    /** Timers set and neither fired nor cleared, and the next fresh timer id. */
    var pending: set<Timer>
    var nextTimerId: nat

    function Running(c: Cycle): bool
      reads this`isScheduledContentJobRunning, this`isImmediateContentCheckRunning
      reads this`isTelegramJobRunning, this`isMidnightRefreshRunning
    {
      match c
      case ScheduledContent => isScheduledContentJobRunning
      case ImmediateCheck => isImmediateContentCheckRunning
      case TelegramJob => isTelegramJobRunning
      case MidnightRefresh => isMidnightRefreshRunning
    }

    /** The four running flags. */
    function Flags(): (bool, bool, bool, bool)
      reads this`isScheduledContentJobRunning, this`isImmediateContentCheckRunning
      reads this`isTelegramJobRunning, this`isMidnightRefreshRunning
    {
      (isScheduledContentJobRunning, isImmediateContentCheckRunning, isTelegramJobRunning, isMidnightRefreshRunning)
    }

    function Handles(): HandleState
      reads this`scheduledContentTimeout, this`immediateCheckTimeout
      reads this`telegramJobTimeout, this`midnightRefreshTimeout
    {
      HandleState(scheduledContentTimeout, immediateCheckTimeout, telegramJobTimeout, midnightRefreshTimeout)
    }

    /** The `*TimeoutId` variable of the cycle. */
    function Handle(c: Cycle): Option<Timer>
      reads this`scheduledContentTimeout, this`immediateCheckTimeout
      reads this`telegramJobTimeout, this`midnightRefreshTimeout
    {
      Handles().Get(c)
    }

    /** The sender shares the lock set and the collaborators; ids are fresh below
      `nextTimerId`; a handle holds a timer of its own cycle; and a pending cycle
      timer is the one its handle holds — so each cycle has at most one. */
    predicate Valid()
      reads this`pending, this`nextTimerId
      reads this`scheduledContentTimeout, this`immediateCheckTimeout
      reads this`telegramJobTimeout, this`midnightRefreshTimeout
    {
      && sender.locks == locks && sender.world == world
      && (forall t :: t in pending ==> t.id < nextTimerId)
      && (forall c :: Handle(c).Some? ==> Handle(c).value.id < nextTimerId && Handle(c).value.job == RunCycle(c))
      && (forall t :: t in pending && t.job.RunCycle? ==> Handle(t.job.cycle) == Some(t))
    }

    /** The handle's timer as a set: what `clearTimeout` takes out of `pending`. */
    function HandleSet(c: Cycle): set<Timer>
      reads this`scheduledContentTimeout, this`immediateCheckTimeout
      reads this`telegramJobTimeout, this`midnightRefreshTimeout
    {
      if Handle(c).Some? then {Handle(c).value} else {}
    }

    /** Each cycle has at most one pending timer. */
    lemma OnePendingTimerPerCycle(c: Cycle, t1: Timer, t2: Timer)
      requires Valid()
      requires t1 in pending && t2 in pending && t1.job == RunCycle(c) && t2.job == RunCycle(c)
      ensures t1 == t2
    {
    }

    constructor (settings: Settings)
      ensures Valid() && this.settings == settings
      ensures fresh(locks) && fresh(world) && fresh(sender)
      ensures locks.keys == {} && world.runs == [] && world.posts == [] && world.writes == []
      ensures forall c :: !Running(c) && Handle(c).None?
      ensures pending == {}
    {
      var locks := new LockSet();
      var world := new Collaborators();
      this.locks := locks;
      this.world := world;
      this.sender := new DigestSender(locks, world);
      this.settings := settings;
      isScheduledContentJobRunning, isImmediateContentCheckRunning := false, false;
      isTelegramJobRunning, isMidnightRefreshRunning := false, false;
      scheduledContentTimeout, immediateCheckTimeout := None, None;
      telegramJobTimeout, midnightRefreshTimeout := None, None;
      pending, nextTimerId := {}, 0;
    }

    method SetHandle(c: Cycle, t: Option<Timer>)
      modifies this
      ensures Handles() == old(Handles()).Set(c, t)
      ensures pending == old(pending) && nextTimerId == old(nextTimerId)
      ensures Flags() == old(Flags())
    {
      match c
      case ScheduledContent => scheduledContentTimeout := t;
      case ImmediateCheck => immediateCheckTimeout := t;
      case TelegramJob => telegramJobTimeout := t;
      case MidnightRefresh => midnightRefreshTimeout := t;
    }

    /** The body every `scheduleNext*` shares: clear the cycle's old timer, then set
      a new one and keep its handle. */
    method Reschedule(c: Cycle, delay: int)
      requires Valid()
      modifies this
      ensures Valid()
      ensures Handle(c) == Some(Timer(old(nextTimerId), RunCycle(c), delay))
      ensures pending == old(pending) - old(HandleSet(c)) + {Handle(c).value}
      ensures nextTimerId == old(nextTimerId) + 1
      ensures Handles() == old(Handles()).Set(c, Handle(c))
      ensures Flags() == old(Flags())
    {
      ghost var h0, p0 := Handles(), pending - HandleSet(c);
      assert forall d :: h0.Get(d) == Handle(d) && (Handle(d).Some? ==> Handle(d).value.id < nextTimerId && Handle(d).value.job == RunCycle(d));
      if Handle(c).Some? {
        pending := pending - {Handle(c).value};
      }
      assert pending == p0;
      assert forall u :: u in p0 && u.job.RunCycle? ==> u.job.cycle != c && h0.Get(u.job.cycle) == Some(u);
      var t := Timer(nextTimerId, RunCycle(c), delay);
      nextTimerId := nextTimerId + 1;
      pending := pending + {t};
      SetHandle(c, Some(t));
      assert forall d :: Handle(d) == if d == c then Some(t) else h0.Get(d);
    }

    /** `scheduleNextScheduledContentRun`. */
    method ScheduleNextScheduledContentRun()
      requires Valid()
      modifies this
      ensures Valid()
      ensures Handle(ScheduledContent) == Some(Timer(old(nextTimerId), RunCycle(ScheduledContent), settings.jobIntervalMs))
      ensures pending == old(pending) - old(HandleSet(ScheduledContent)) + {Handle(ScheduledContent).value}
      ensures nextTimerId == old(nextTimerId) + 1
      ensures Handles() == old(Handles()).Set(ScheduledContent, Handle(ScheduledContent))
      ensures Flags() == old(Flags())
    {
      Reschedule(ScheduledContent, settings.jobIntervalMs);
    }

    /** `scheduleNextImmediateCheck`. */
    method ScheduleNextImmediateCheck()
      requires Valid()
      modifies this
      ensures Valid()
      ensures Handle(ImmediateCheck) == Some(Timer(old(nextTimerId), RunCycle(ImmediateCheck), settings.instantCheckIntervalMs))
      ensures pending == old(pending) - old(HandleSet(ImmediateCheck)) + {Handle(ImmediateCheck).value}
      ensures nextTimerId == old(nextTimerId) + 1
      ensures Handles() == old(Handles()).Set(ImmediateCheck, Handle(ImmediateCheck))
      ensures Flags() == old(Flags())
    {
      Reschedule(ImmediateCheck, settings.instantCheckIntervalMs);
    }

    /** `scheduleNextTelegramRun`. */
    method ScheduleNextTelegramRun()
      requires Valid()
      modifies this
      ensures Valid()
      ensures Handle(TelegramJob) == Some(Timer(old(nextTimerId), RunCycle(TelegramJob), settings.telegramJobIntervalMs))
      ensures pending == old(pending) - old(HandleSet(TelegramJob)) + {Handle(TelegramJob).value}
      ensures nextTimerId == old(nextTimerId) + 1
      ensures Handles() == old(Handles()).Set(TelegramJob, Handle(TelegramJob))
      ensures Flags() == old(Flags())
    {
      Reschedule(TelegramJob, settings.telegramJobIntervalMs);
    }

    /** `scheduleNextMidnightRefresh`, with `clock` the local wall clock now. */
    method ScheduleNextMidnightRefresh(clock: WallClock)
      requires Valid() && ValidClock(clock)
      modifies this
      ensures Valid()
      ensures Handle(MidnightRefresh) == Some(Timer(old(nextTimerId), RunCycle(MidnightRefresh), MsUntilMidnight(clock)))
      ensures pending == old(pending) - old(HandleSet(MidnightRefresh)) + {Handle(MidnightRefresh).value}
      ensures nextTimerId == old(nextTimerId) + 1
      ensures Handles() == old(Handles()).Set(MidnightRefresh, Handle(MidnightRefresh))
      ensures Flags() == old(Flags())
    {
      var msUntilMidnight := NextMidnight(clock) - LocalTime(clock);
      Reschedule(MidnightRefresh, msUntilMidnight);
    }

    /** A timer fires: it leaves `pending`; the handle keeps pointing at it. */
    method Fire(t: Timer)
      requires Valid() && t in pending
      modifies this
      ensures Valid()
      ensures pending == old(pending) - {t} && nextTimerId == old(nextTimerId)
      ensures Handles() == old(Handles()) && Flags() == old(Flags())
    {
      pending := pending - {t};
    }

    /** The guarded `processUser(user)` of the two content cycles: a user whose key
      is free and whom `due` selects is refreshed with its key added, and the key
      is deleted in `finally`. */
    method RefreshUnderLock(user: UserRow, due: bool)
      modifies locks, world
      ensures locks.keys == old(locks.keys)
      ensures world.runs == old(world.runs) +
        if user.email !in old(locks.keys) && due then [Run(user, false, old(locks.keys) + {user.email})] else []
      ensures world.posts == old(world.posts) && world.writes == old(world.writes)
    {
      if due && user.email !in locks.keys {
        locks.keys := locks.keys + {user.email};
        world.runs := world.runs + [Run(user, false, locks.keys)];  // `processUser(user)`; a throw is caught
        locks.keys := locks.keys - {user.email};                    // `finally`
      }
    }

    /** The initial-send step of the immediate check for one row: mark the row, and
      when the mark was stored set the five-minute timer for a copy of it. */
    method ScheduleInitialSend(user: UserRow, markOk: bool, now: int)
      requires Valid()
      modifies this, world
      ensures Valid()
      ensures world.writes == old(world.writes) +
        if NeedsInitialSend(user) then [SetInitialSendScheduledAt(user.email, now)] else []
      ensures world.runs == old(world.runs) && world.posts == old(world.posts)
      ensures var scheduled := NeedsInitialSend(user) && markOk;
        && pending == old(pending) + (if scheduled then {Timer(old(nextTimerId), InitialSend(user), FiveMinutesMs)} else {})
        && nextTimerId == old(nextTimerId) + (if scheduled then 1 else 0)
      ensures Handles() == old(Handles()) && Flags() == old(Flags())
    {
      if Truthy(user.telegramId) && user.initialSendScheduledAt.None? {
        world.writes := world.writes + [SetInitialSendScheduledAt(user.email, now)];
        if markOk {
          pending := pending + {Timer(nextTimerId, InitialSend(user), FiveMinutesMs)};
          nextTimerId := nextTimerId + 1;
        }
      }
    }

    /** The scheduled cycle's loop: each unlocked user `needsScheduledUpdate`
      selects is refreshed, holding its key for the call. */
    method ScheduledContentPass(users: seq<UserRow>, needsScheduledUpdate: UserRow -> bool)
      modifies locks, world
      ensures locks.keys == old(locks.keys)
      ensures world.runs == old(world.runs) + ContentRuns(users, old(locks.keys), needsScheduledUpdate)
      ensures world.posts == old(world.posts) && world.writes == old(world.writes)
    {
      var i := 0;
      while i < |users|
        invariant 0 <= i <= |users|
        invariant locks.keys == old(locks.keys)
        invariant world.runs == old(world.runs) + ContentRuns(users[..i], old(locks.keys), needsScheduledUpdate)
        invariant world.posts == old(world.posts) && world.writes == old(world.writes)
      {
        assert users[..i + 1][..i] == users[..i];
        RefreshUnderLock(users[i], needsScheduledUpdate(users[i]));
        i := i + 1;
      }
      assert users[..|users|] == users;
    }

    /** `runScheduledContentCycle`: when already running, only reschedule; otherwise
      run the pass over the fetched users, then clear the flag and reschedule. */
    method RunScheduledContentCycle(fetch: Fetch<seq<UserRow>>, needsScheduledUpdate: UserRow -> bool)
      requires Valid()
      modifies this, locks, world
      ensures Valid()
      ensures locks.keys == old(locks.keys)
      ensures world.runs == old(world.runs) +
        if old(Running(ScheduledContent)) then [] else ContentRuns(FetchedUsers(fetch), old(locks.keys), needsScheduledUpdate)
      ensures world.posts == old(world.posts) && world.writes == old(world.writes)
      ensures Flags() == old(Flags())
      ensures Handle(ScheduledContent) == Some(Timer(old(nextTimerId), RunCycle(ScheduledContent), settings.jobIntervalMs))
      ensures pending == old(pending) - old(HandleSet(ScheduledContent)) + {Handle(ScheduledContent).value}
      ensures nextTimerId == old(nextTimerId) + 1
      ensures Handles() == old(Handles()).Set(ScheduledContent, Handle(ScheduledContent))
    {
      if isScheduledContentJobRunning {
        ScheduleNextScheduledContentRun();
        return;
      }
      isScheduledContentJobRunning := true;
      ScheduledContentPass(FetchedUsers(fetch), needsScheduledUpdate);
      isScheduledContentJobRunning := false;
      ScheduleNextScheduledContentRun();
    }

    /** What the immediate check's loop has issued after its first `i` rows, from
      the lock set `held`, the logs `runs0` and `writes0`, the pending timers
      `pending0` and the first fresh id `firstId`. */
    ghost predicate ImmediateProgress(users: seq<UserRow>, i: nat, needsImmediateUpdate: UserRow -> bool,
                                      markOk: nat -> bool, clock: nat -> int, held: set<string>, runs0: seq<Run>,
                                      writes0: seq<Write>, pending0: set<Timer>, firstId: nat)
      requires i <= |users|
      reads this, locks, world
    {
      && locks.keys == held
      && world.runs == runs0 + ContentRuns(users[..i], held, needsImmediateUpdate)
      && world.writes == writes0 + InitialMarks(users[..i], clock)
      && pending == pending0 + InitialTimers(users[..i], markOk, firstId)
      && nextTimerId == firstId + |InitialQueue(users[..i], markOk)|
    }

    /** One row of the immediate check: the content refresh, then the initial-send
      step. */
    method ImmediateCheckStep(users: seq<UserRow>, i: nat, needsImmediateUpdate: UserRow -> bool,
                              markOk: nat -> bool, clock: nat -> int, ghost held: set<string>, ghost runs0: seq<Run>,
                              ghost writes0: seq<Write>, ghost pending0: set<Timer>, ghost firstId: nat)
      requires i < |users| && Valid()
      requires ImmediateProgress(users, i, needsImmediateUpdate, markOk, clock, held, runs0, writes0, pending0, firstId)
      modifies this, locks, world
      ensures Valid()
      ensures ImmediateProgress(users, i + 1, needsImmediateUpdate, markOk, clock, held, runs0, writes0, pending0, firstId)
      ensures world.posts == old(world.posts)
      ensures Handles() == old(Handles()) && Flags() == old(Flags())
    {
      assert users[..i + 1][..i] == users[..i];
      RefreshUnderLock(users[i], needsImmediateUpdate(users[i]));
      ScheduleInitialSend(users[i], markOk(i), clock(i));
    }

    /** The immediate check's loop: refresh each unlocked user `needsImmediateUpdate`
      selects; for each row with a new Telegram id, mark it as scheduled and, when
      the mark was stored (`markOk` at the row's position), set the initial-send
      timer; `clock` is the time read when each row is handled. */
    method ImmediateCheckPass(users: seq<UserRow>, needsImmediateUpdate: UserRow -> bool, markOk: nat -> bool, clock: nat -> int)
      requires Valid()
      modifies this, locks, world
      ensures Valid()
      ensures locks.keys == old(locks.keys)
      ensures world.runs == old(world.runs) + ContentRuns(users, old(locks.keys), needsImmediateUpdate)
      ensures world.writes == old(world.writes) + InitialMarks(users, clock)
      ensures pending == old(pending) + InitialTimers(users, markOk, old(nextTimerId))
      ensures nextTimerId == old(nextTimerId) + |InitialQueue(users, markOk)|
      ensures world.posts == old(world.posts)
      ensures Handles() == old(Handles()) && Flags() == old(Flags())
    {
      ghost var held, runs0, writes0, pending0, firstId := locks.keys, world.runs, world.writes, pending, nextTimerId;
      var i := 0;
      while i < |users|
        invariant 0 <= i <= |users|
        invariant Valid()
        invariant ImmediateProgress(users, i, needsImmediateUpdate, markOk, clock, held, runs0, writes0, pending0, firstId)
        invariant world.posts == old(world.posts)
        invariant Handles() == old(Handles()) && Flags() == old(Flags())
      {
        ImmediateCheckStep(users, i, needsImmediateUpdate, markOk, clock, held, runs0, writes0, pending0, firstId);
        i := i + 1;
      }
      assert users[..|users|] == users;
    }

    /** `runImmediateCheckCycle` past its guard: set the flag, run the pass over
      the fetched users, clear the flag and reschedule; the new handle's id follows
      the initial-send timers' ids. */
    method ImmediateCheckRun(users: seq<UserRow>, needsImmediateUpdate: UserRow -> bool, markOk: nat -> bool, clock: nat -> int,
                             ghost timers: set<Timer>, ghost count: nat)
      requires Valid() && !Running(ImmediateCheck)
      requires timers == InitialTimers(users, markOk, nextTimerId) && count == |InitialQueue(users, markOk)|
      requires timers !! HandleSet(ImmediateCheck)
      modifies this, locks, world
      ensures Valid()
      ensures locks.keys == old(locks.keys)
      ensures world.runs == old(world.runs) + ContentRuns(users, old(locks.keys), needsImmediateUpdate)
      ensures world.writes == old(world.writes) + InitialMarks(users, clock)
      ensures world.posts == old(world.posts)
      ensures Handle(ImmediateCheck) == Some(Timer(old(nextTimerId) + count, RunCycle(ImmediateCheck),
                                                   settings.instantCheckIntervalMs))
      ensures pending == old(pending) - old(HandleSet(ImmediateCheck)) + timers + {Handle(ImmediateCheck).value}
      ensures nextTimerId == old(nextTimerId) + count + 1
      ensures Flags() == old(Flags())
      ensures Handles() == old(Handles()).Set(ImmediateCheck, Handle(ImmediateCheck))
    {
      ghost var cleared := HandleSet(ImmediateCheck);
      isImmediateContentCheckRunning := true;
      ImmediateCheckPass(users, needsImmediateUpdate, markOk, clock);
      assert nextTimerId == old(nextTimerId) + count;
      isImmediateContentCheckRunning := false;
      ScheduleNextImmediateCheck();
      ClearAfterAdd(old(pending), timers, cleared, Handle(ImmediateCheck).value);
    }

    /** `runImmediateCheckCycle`: when already running, only reschedule. */
    method RunImmediateCheckCycle(fetch: Fetch<seq<UserRow>>, needsImmediateUpdate: UserRow -> bool,
                                  markOk: nat -> bool, clock: nat -> int)
      requires Valid()
      modifies this, locks, world
      ensures Valid()
      ensures locks.keys == old(locks.keys)
      ensures var users := if old(Running(ImmediateCheck)) then [] else FetchedUsers(fetch);
        && world.runs == old(world.runs) + ContentRuns(users, old(locks.keys), needsImmediateUpdate)
        && world.writes == old(world.writes) + InitialMarks(users, clock)
        && Handle(ImmediateCheck) == Some(Timer(old(nextTimerId) + |InitialQueue(users, markOk)|,
                                                RunCycle(ImmediateCheck), settings.instantCheckIntervalMs))
        && pending == old(pending) - old(HandleSet(ImmediateCheck)) + InitialTimers(users, markOk, old(nextTimerId))
                      + {Handle(ImmediateCheck).value}
        && nextTimerId == old(nextTimerId) + |InitialQueue(users, markOk)| + 1
      ensures world.posts == old(world.posts)
      ensures Flags() == old(Flags())
      ensures Handles() == old(Handles()).Set(ImmediateCheck, Handle(ImmediateCheck))
    {
      if isImmediateContentCheckRunning {
        assert InitialQueue([], markOk) == [] && InitialTimers([], markOk, nextTimerId) == {};
        ScheduleNextImmediateCheck();
        return;
      }
      var users := FetchedUsers(fetch);
      if Handle(ImmediateCheck).Some? {
        CycleTimerNotInitial(users, markOk, nextTimerId, Handle(ImmediateCheck).value);
      }
      ImmediateCheckRun(users, needsImmediateUpdate, markOk, clock,
                        InitialTimers(users, markOk, nextTimerId), |InitialQueue(users, markOk)|);
    }

    /** What the telegram cycle's loop has issued after its first `i` rows, from the
      lock set `held` and the logs `runs0`, `posts0` and `writes0`. */
    ghost predicate TelegramProgress(users: seq<UserRow>, i: nat, clock: nat -> int, replies: nat -> SendReplies,
                                     held: set<string>, runs0: seq<Run>, posts0: seq<string>, writes0: seq<Write>)
      requires i <= |users|
      reads this, locks, world
    {
      var e := TelegramRound(users[..i], clock, settings, held, replies);
      && locks.keys == held
      && world.runs == runs0 + e.runs && world.posts == posts0 + e.posts && world.writes == writes0 + e.writes
    }

    /** One regular send: `processTelegramUser(user, usersCurrentlyProcessingContent)`;
      a throw is caught. */
    method TelegramJobStep(users: seq<UserRow>, i: nat, clock: nat -> int, replies: nat -> SendReplies, ghost held: set<string>,
                           ghost runs0: seq<Run>, ghost posts0: seq<string>, ghost writes0: seq<Write>)
      requires i < |users| && sender.locks == locks && sender.world == world
      requires TelegramProgress(users, i, clock, replies, held, runs0, posts0, writes0)
      modifies locks, world
      ensures TelegramProgress(users, i + 1, clock, replies, held, runs0, posts0, writes0)
    {
      ghost var before := TelegramRound(users[..i], clock, settings, held, replies);
      ghost var e := SendEffect(users[i], false, clock(i), settings, held, replies(i));
      TelegramRoundSnoc(users, i, clock, settings, held, replies);
      var _ := sender.ProcessTelegramUser(users[i], false, clock(i), settings, replies(i));
      AppendAssoc(runs0, before.runs, e.runs);
      AppendAssoc(posts0, before.posts, e.posts);
      AppendAssoc(writes0, before.writes, e.writes);
    }

    /** The telegram cycle's loop: a regular send for each row, in order, under the
      shared lock set; `replies` answers for the row at each position. */
    method TelegramJobPass(users: seq<UserRow>, clock: nat -> int, replies: nat -> SendReplies)
      requires sender.locks == locks && sender.world == world
      modifies locks, world
      ensures locks.keys == old(locks.keys)
      ensures var e := TelegramRound(users, clock, settings, old(locks.keys), replies);
        world.runs == old(world.runs) + e.runs && world.posts == old(world.posts) + e.posts
        && world.writes == old(world.writes) + e.writes
    {
      ghost var held, runs0, posts0, writes0 := locks.keys, world.runs, world.posts, world.writes;
      var i := 0;
      while i < |users|
        invariant 0 <= i <= |users|
        invariant TelegramProgress(users, i, clock, replies, held, runs0, posts0, writes0)
      {
        TelegramJobStep(users, i, clock, replies, held, runs0, posts0, writes0);
        i := i + 1;
      }
      assert users[..|users|] == users;
    }

    /** `runTelegramJobCycle`. */
    method RunTelegramJobCycle(fetch: Fetch<seq<UserRow>>, clock: nat -> int, replies: nat -> SendReplies)
      requires Valid()
      modifies this, locks, world
      ensures Valid()
      ensures locks.keys == old(locks.keys)
      ensures var e := TelegramRound(if old(Running(TelegramJob)) then [] else FetchedUsers(fetch),
                                     clock, settings, old(locks.keys), replies);
        world.runs == old(world.runs) + e.runs && world.posts == old(world.posts) + e.posts
        && world.writes == old(world.writes) + e.writes
      ensures Flags() == old(Flags())
      ensures Handle(TelegramJob) == Some(Timer(old(nextTimerId), RunCycle(TelegramJob), settings.telegramJobIntervalMs))
      ensures pending == old(pending) - old(HandleSet(TelegramJob)) + {Handle(TelegramJob).value}
      ensures nextTimerId == old(nextTimerId) + 1
      ensures Handles() == old(Handles()).Set(TelegramJob, Handle(TelegramJob))
    {
      if isTelegramJobRunning {
        ScheduleNextTelegramRun();
        return;
      }
      isTelegramJobRunning := true;
      TelegramJobPass(FetchedUsers(fetch), clock, replies);
      isTelegramJobRunning := false;
      ScheduleNextTelegramRun();
    }

    /** The deferred initial send fires: `processTelegramUser(copy, locks, true)`. */
    method RunInitialSend(t: Timer, now: int, replies: SendReplies)
      requires Valid() && t in pending && t.job.InitialSend?
      modifies this, locks, world
      ensures Valid()
      ensures locks.keys == old(locks.keys)
      ensures var e := SendEffect(t.job.user, true, now, settings, old(locks.keys), replies);
        world.runs == old(world.runs) + e.runs && world.posts == old(world.posts) + e.posts
        && world.writes == old(world.writes) + e.writes
      ensures pending == old(pending) - {t} && nextTimerId == old(nextTimerId)
      ensures Handles() == old(Handles()) && Flags() == old(Flags())
    {
      Fire(t);
      var _ := sender.ProcessTelegramUser(t.job.user, true, now, settings, replies);
    }

    /** The midnight batch: every callback checks and adds its key before its first
      `await` (and starts `processUser(user, true)`); then each started call's key
      is deleted in its `finally`. The lock set ends as it began. */
    method MidnightRefreshPass(users: seq<UserRow>)
      modifies locks, world
      ensures locks.keys == old(locks.keys)
      ensures world.runs == old(world.runs) + MidnightRuns(users, old(locks.keys))
      ensures world.posts == old(world.posts) && world.writes == old(world.writes)
    {
      var started: seq<string> := [];
      var i := 0;
      while i < |users|
        invariant 0 <= i <= |users|
        invariant world.runs + MidnightRuns(users[i..], locks.keys) == old(world.runs) + MidnightRuns(users, old(locks.keys))
        invariant forall x :: x in locks.keys <==> x in old(locks.keys) || x in started
        invariant forall x :: x in started ==> x !in old(locks.keys)
        invariant forall a, b :: 0 <= a < b < |started| ==> started[a] != started[b]
        invariant world.posts == old(world.posts) && world.writes == old(world.writes)
      {
        var user := users[i];
        assert users[i..][1..] == users[i + 1..];
        if user.email !in locks.keys {
          locks.keys := locks.keys + {user.email};
          world.runs := world.runs + [Run(user, true, locks.keys)];  // `processUser(user, true)` starts
          started := started + [user.email];
        }
        i := i + 1;
      }
      assert world.runs == old(world.runs) + MidnightRuns(users, old(locks.keys));
      var j := 0;
      while j < |started|
        invariant 0 <= j <= |started|
        invariant forall x :: x in locks.keys <==> x in old(locks.keys) || x in started[j..]
        invariant world.runs == old(world.runs) + MidnightRuns(users, old(locks.keys))
        invariant world.posts == old(world.posts) && world.writes == old(world.writes)
      {
        assert started[j..] == [started[j]] + started[j + 1..];
        assert started[j] !in started[j + 1..];
        locks.keys := locks.keys - {started[j]};  // the call's `finally`
        j := j + 1;
      }
      assert locks.keys == old(locks.keys);
    }

    /** `runMidnightRefresh`. */
    method RunMidnightRefresh(fetch: Fetch<seq<UserRow>>, clock: WallClock)
      requires Valid() && ValidClock(clock)
      modifies this, locks, world
      ensures Valid()
      ensures locks.keys == old(locks.keys)
      ensures world.runs == old(world.runs) +
        if old(Running(MidnightRefresh)) then [] else MidnightRuns(FetchedUsers(fetch), old(locks.keys))
      ensures world.posts == old(world.posts) && world.writes == old(world.writes)
      ensures Flags() == old(Flags())
      ensures Handle(MidnightRefresh) == Some(Timer(old(nextTimerId), RunCycle(MidnightRefresh), MsUntilMidnight(clock)))
      ensures pending == old(pending) - old(HandleSet(MidnightRefresh)) + {Handle(MidnightRefresh).value}
      ensures nextTimerId == old(nextTimerId) + 1
      ensures Handles() == old(Handles()).Set(MidnightRefresh, Handle(MidnightRefresh))
    {
      if isMidnightRefreshRunning {
        ScheduleNextMidnightRefresh(clock);
        return;
      }
      isMidnightRefreshRunning := true;
      MidnightRefreshPass(FetchedUsers(fetch));
      isMidnightRefreshRunning := false;
      ScheduleNextMidnightRefresh(clock);
    }

    /** `shutdown`: clear the four cycle timers. The initial-send timers stay, and
      with the process exit they are lost. */
    method Shutdown()
      requires Valid()
      modifies this
      ensures Valid()
      ensures pending == set t | t in old(pending) && t.job.InitialSend?
      ensures nextTimerId == old(nextTimerId)
      ensures Handles() == old(Handles()) && Flags() == old(Flags())
    {
      ghost var cleared := HandleSet(ScheduledContent) + HandleSet(ImmediateCheck) + HandleSet(TelegramJob)
                           + HandleSet(MidnightRefresh);
      // each `if (handle) clearTimeout(handle)`
      pending := pending - HandleSet(ScheduledContent);
      pending := pending - HandleSet(ImmediateCheck);
      pending := pending - HandleSet(TelegramJob);
      pending := pending - HandleSet(MidnightRefresh);
      assert pending == old(pending) - cleared;
      forall t | t in old(pending) && t.job.RunCycle?
        ensures t in cleared
      {
        assert old(Handle(t.job.cycle)) == Some(t);
      }
      assert forall t :: t in cleared ==> t.job.RunCycle?;
    }
  }
}
