/** The `user_preferences` row as the core reads it, and the configuration values
    the core takes from its environment. Timestamps are milliseconds since the
    epoch; an absent or empty timestamp column is `None`. */
module Records {
  import opened Wrappers

  const MsPerSecond: int := 1000
  const MsPerMinute: int := 60 * MsPerSecond
  const MsPerHour: int := 60 * MsPerMinute
  const MsPerDay: int := 24 * MsPerHour

  datatype UserRow = UserRow(
    email: string,                         // user_email, the lock key
    isPro: bool,                           // ispro
    telegramId: Option<string>,            // telegramid
    watchlist: Option<string>,             // the three content columns
    sector: Option<string>,
    narrative: Option<string>,
    lastJob: Option<int>,                  // last_job
    teleLastSent: Option<int>,             // tele_last_sent
    initialSendScheduledAt: Option<int>)   // telegram_initial_send_scheduled_at

  /** The numeric settings of config.js that the core uses. */
  datatype Settings = Settings(
    jobIntervalMs: int,
    instantCheckIntervalMs: int,
    telegramJobIntervalMs: int,
    jobRefreshHours: int,
    telegramSendIntervalHours: int)
}
