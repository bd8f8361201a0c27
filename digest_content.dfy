/** The helpers that processUser.js and processTelegramUser.js define identically:
    which content counts as sendable, when content is stale, and the digest text
    assembled from the sendable fields. */
module DigestContent {
  import opened Wrappers
  import opened Text
  import opened Records

  const PlaceholderMessage: string := "Please Select A Preference To View Personalized News Here"
  const ErrorFetchingPrefix: string := "Error fetching"

  /** `isValidContent`: present, non-empty, not the placeholder and not an error text. */
  predicate IsValidContent(c: Option<string>)
    ensures c.None? || c == Some("") ==> !IsValidContent(c)
    ensures c == Some(PlaceholderMessage) ==> !IsValidContent(c)
    ensures c.Some? && ErrorFetchingPrefix <= c.value ==> !IsValidContent(c)
    ensures c.Some? && c.value != "" && c.value != PlaceholderMessage && !(ErrorFetchingPrefix <= c.value)
      ==> IsValidContent(c)
  {
    Truthy(c) && c.value != PlaceholderMessage && !StartsWith(c.value, ErrorFetchingPrefix)
  }

  const Blank: string := "\n\n"
  const WatchlistHeading: string := "## Watchlist News"
  const SectorHeading: string := "## Sector News"
  const NarrativeHeading: string := "## Narrative News"

  /** The section of the digest for one content field: its heading, a blank line, the text. */
  function Section(heading: string, body: string): string {
    heading + Blank + body
  }

  /** The section of one field, if that field is sendable. */
  function SectionIfValid(heading: string, c: Option<string>): seq<string> {
    if IsValidContent(c) then [Section(heading, c.value)] else []
  }

  /** One section per sendable field, always in the order Watchlist, Sector, Narrative. */
  function Sections(u: UserRow): seq<string> {
    SectionIfValid(WatchlistHeading, u.watchlist)
    + SectionIfValid(SectorHeading, u.sector)
    + SectionIfValid(NarrativeHeading, u.narrative)
  }

  /** `hasValidContentForTelegram`: some field is sendable, that is, the digest has a section. */
  predicate HasValidContentForTelegram(u: UserRow)
    ensures HasValidContentForTelegram(u) <==> |Sections(u)| > 0
  {
    IsValidContent(u.watchlist) || IsValidContent(u.sector) || IsValidContent(u.narrative)
  }

  /** `isContentStale`: no `last_job`, or more than the refresh window has elapsed since it. */
  predicate IsContentStale(u: UserRow, now: int, jobRefreshHours: int)
    ensures IsContentStale(u, now, jobRefreshHours) <==>
      (u.lastJob.None? || now - u.lastJob.value > jobRefreshHours * MsPerHour)
  {
    if u.lastJob.None? then true
    else
      var threshold := now - jobRefreshHours * 60 * 60 * 1000;
      u.lastJob.value < threshold
  }

  /** `parts` separated by `sep`. */
  function Join(parts: seq<string>, sep: string): string {
    if |parts| == 0 then ""
    else if |parts| == 1 then parts[0]
    else Join(parts[..|parts| - 1], sep) + sep + parts[|parts| - 1]
  }

  /** Each of `parts` with `sep` in front of it, concatenated: what a run of
      `combinedNews += sep + part` leaves behind. */
  function Prefixed(parts: seq<string>, sep: string): string {
    if |parts| == 0 then "" else Prefixed(parts[..|parts| - 1], sep) + sep + parts[|parts| - 1]
  }

  /** The digest: the sections separated by blank lines, trailing white space removed. */
  function Digest(u: UserRow): string {
    TrimEnd(Join(Sections(u), Blank))
  }

  lemma {:induction false} PrefixedIsJoin(parts: seq<string>, sep: string)
    ensures Prefixed(parts, sep) == if parts == [] then "" else sep + Join(parts, sep)
  {
    if |parts| > 1 {
      PrefixedIsJoin(parts[..|parts| - 1], sep);
    }
  }

  lemma {:induction false} JoinStartsWithFirst(parts: seq<string>, sep: string)
    requires |parts| > 0
    ensures StartsWith(Join(parts, sep), parts[0])
  {
    if |parts| > 1 {
      var init := parts[..|parts| - 1];
      JoinStartsWithFirst(init, sep);
      assert init[0] == parts[0];
      var j := Join(init, sep);
      assert (j + sep + parts[|parts| - 1])[..|parts[0]|] == j[..|parts[0]|];
    }
  }

  /** A digest whose first section opens with `h` opens with `h` too, the trimming
      of trailing white space notwithstanding. */
  lemma DigestStartsWith(u: UserRow, h: string)
    requires |Sections(u)| > 0 && StartsWith(Sections(u)[0], h)
    requires h != [] && !IsSpace(h[|h| - 1])
    ensures StartsWith(Digest(u), h)
  {
    var secs := Sections(u);
    JoinStartsWithFirst(secs, Blank);
    var j := Join(secs, Blank);
    assert j[..|h|] == j[..|secs[0]|][..|h|];
    TrimEndKeeps(j, h);
  }

  /** The digest opens with the heading of the first sendable field, in the order
      Watchlist, Sector, Narrative. */
  lemma DigestOpensWithFirstHeading(u: UserRow)
    ensures IsValidContent(u.watchlist) ==> StartsWith(Digest(u), WatchlistHeading)
    ensures !IsValidContent(u.watchlist) && IsValidContent(u.sector) ==> StartsWith(Digest(u), SectorHeading)
    ensures !IsValidContent(u.watchlist) && !IsValidContent(u.sector) && IsValidContent(u.narrative)
      ==> StartsWith(Digest(u), NarrativeHeading)
  {
    var secs := Sections(u);
    if IsValidContent(u.watchlist) {
      assert secs[0] == Section(WatchlistHeading, u.watchlist.value);
      DigestStartsWith(u, WatchlistHeading);
    } else if IsValidContent(u.sector) {
      assert secs[0] == Section(SectorHeading, u.sector.value);
      DigestStartsWith(u, SectorHeading);
    } else if IsValidContent(u.narrative) {
      assert secs[0] == Section(NarrativeHeading, u.narrative.value);
      DigestStartsWith(u, NarrativeHeading);
    }
  }

  /** The digest is empty exactly when no field is sendable; otherwise it starts with
      a heading and ends with a visible character. */
  lemma DigestEmptyIff(u: UserRow)
    ensures Digest(u) == "" <==> !HasValidContentForTelegram(u)
    ensures Digest(u) != "" ==> Digest(u)[0] == '#' && !IsSpace(Digest(u)[|Digest(u)| - 1])
  {
    DigestOpensWithFirstHeading(u);
  }

  lemma AppendSection(acc: string, done: seq<string>, heading: string, body: string)
    requires acc == Prefixed(done, Blank)
    ensures acc + Blank + heading + Blank + body == Prefixed(done + [Section(heading, body)], Blank)
  {
    assert (done + [Section(heading, body)])[..|done|] == done;
  }

  /** Trimming the `+=`-assembled text gives the digest. */
  lemma TrimPrefixedSections(u: UserRow)
    ensures Trim(Prefixed(Sections(u), Blank)) == Digest(u)
  {
    var secs := Sections(u);
    PrefixedIsJoin(secs, Blank);
    if secs != [] {
      var j := Join(secs, Blank);
      JoinStartsWithFirst(secs, Blank);
      assert secs[0][0] == '#';
      assert j[0] == '#';
      TrimStartSkips(Blank, j);
    }
  }

  /** Assembles the digest the way `processTelegramUser` does: appends a section for
      each sendable field with `+=`, then trims. */
  method BuildDigest(u: UserRow) returns (news: string)
    ensures news == Digest(u)
    ensures news == "" <==> !HasValidContentForTelegram(u)
  {
    ghost var done: seq<string> := [];
    var combinedNews := "";
    if IsValidContent(u.watchlist) {
      AppendSection(combinedNews, done, WatchlistHeading, u.watchlist.value);
      combinedNews := combinedNews + Blank + WatchlistHeading + Blank + u.watchlist.value;
      done := done + [Section(WatchlistHeading, u.watchlist.value)];
    }
    assert done == SectionIfValid(WatchlistHeading, u.watchlist);
    assert combinedNews == Prefixed(done, Blank);
    ghost var soFar := done;
    if IsValidContent(u.sector) {
      AppendSection(combinedNews, done, SectorHeading, u.sector.value);
      combinedNews := combinedNews + Blank + SectorHeading + Blank + u.sector.value;
      done := done + [Section(SectorHeading, u.sector.value)];
    }
    assert done == soFar + SectionIfValid(SectorHeading, u.sector);
    assert combinedNews == Prefixed(done, Blank);
    soFar := done;
    if IsValidContent(u.narrative) {
      AppendSection(combinedNews, done, NarrativeHeading, u.narrative.value);
      combinedNews := combinedNews + Blank + NarrativeHeading + Blank + u.narrative.value;
      done := done + [Section(NarrativeHeading, u.narrative.value)];
    }
    assert done == soFar + SectionIfValid(NarrativeHeading, u.narrative);
    assert done == Sections(u);
    TrimPrefixedSections(u);
    news := Trim(combinedNews);
    DigestEmptyIff(u);
  }

  /** The instruction posted to the messaging agent: the digest and the recipient. */
  function DigestPrompt(news: string, telegramId: string): string {
    "this is the news for today {" + news + "} form a concise message from this and send it to user id {"
    + telegramId + "} , title it as Degen Times - Daily Digest"
  }
}
