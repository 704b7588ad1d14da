/** The extension's persisted key-value store: the settings blob (synced
    storage), the signed-in user and the time-tracking blob (local storage).
    Each blob is either absent or holds one whole value; readers substitute a
    default for an absent blob and writers replace the whole blob. */
module Storage {
  import opened Wrappers
  import opened Types

  /** Dwell time accumulated on one domain. `totalSeconds` is fractional
      seconds; `lastActive` is a timestamp in milliseconds. */
  datatype TimeRecord = TimeRecord(totalSeconds: real, lastActive: int, blocked: bool)

  /** The time-tracking blob: domain to record. */
  type TimeTrackingData = map<string, TimeRecord>

  datatype StoredUser = StoredUser(id: string, username: string, token: string)

  /** A `Partial<ScrollStopSettings>`: `None` marks a field the caller left
      out. `activeRoomId` may be supplied as `null`, hence its nested option. */
  datatype SettingsUpdate = SettingsUpdate(
    trackedDomains: Option<seq<DomainConfig>>,
    timeLimitMinutes: Option<int>,
    questionsRequired: Option<int>,
    activeRoomId: Option<Option<string>>)

  const NO_UPDATE: SettingsUpdate := SettingsUpdate(None, None, None, None)

  /** The update that supplies every field of `s`. */
  function FullUpdate(s: Settings): SettingsUpdate {
    SettingsUpdate(Some(s.trackedDomains), Some(s.timeLimitMinutes),
                   Some(s.questionsRequired), Some(s.activeRoomId))
  }

  /** The update that only replaces the tracked-domain list. */
  function DomainsUpdate(ds: seq<DomainConfig>): SettingsUpdate {
    SettingsUpdate(Some(ds), None, None, None)
  }

  /** `result[SETTINGS_KEY] ?? DEFAULT_SETTINGS` */
  function SettingsOrDefault(stored: Option<Settings>): (s: Settings)
    ensures stored.Some? ==> s == stored.value
    ensures stored.None? ==> s == DEFAULT_SETTINGS
  {
    stored.GetOr(DEFAULT_SETTINGS)
  }

  /** `result[TIME_TRACKING_KEY] ?? {}` */
  function TimeTrackingOrEmpty(stored: Option<TimeTrackingData>): (d: TimeTrackingData)
    ensures stored.Some? ==> d == stored.value
    ensures stored.None? ==> d == map[]
  {
    stored.GetOr(map[])
  }

  /** `{ ...current, ...update }`: each field the update supplies wins, every
      other field keeps its current value. */
  function Merge(current: Settings, u: SettingsUpdate): (r: Settings)
    ensures u.trackedDomains.Some? ==> r.trackedDomains == u.trackedDomains.value
    ensures u.trackedDomains.None? ==> r.trackedDomains == current.trackedDomains
    ensures u.timeLimitMinutes.Some? ==> r.timeLimitMinutes == u.timeLimitMinutes.value
    ensures u.timeLimitMinutes.None? ==> r.timeLimitMinutes == current.timeLimitMinutes
    ensures u.questionsRequired.Some? ==> r.questionsRequired == u.questionsRequired.value
    ensures u.questionsRequired.None? ==> r.questionsRequired == current.questionsRequired
    ensures u.activeRoomId.Some? ==> r.activeRoomId == u.activeRoomId.value
    ensures u.activeRoomId.None? ==> r.activeRoomId == current.activeRoomId
  {
    Settings(
      u.trackedDomains.GetOr(current.trackedDomains),
      u.timeLimitMinutes.GetOr(current.timeLimitMinutes),
      u.questionsRequired.GetOr(current.questionsRequired),
      u.activeRoomId.GetOr(current.activeRoomId))
  }

  /** The spread of two partial objects: the later one wins field by field. */
  function Then(first: SettingsUpdate, second: SettingsUpdate): SettingsUpdate {
    SettingsUpdate(
      if second.trackedDomains.Some? then second.trackedDomains else first.trackedDomains,
      if second.timeLimitMinutes.Some? then second.timeLimitMinutes else first.timeLimitMinutes,
      if second.questionsRequired.Some? then second.questionsRequired else first.questionsRequired,
      if second.activeRoomId.Some? then second.activeRoomId else first.activeRoomId)
  }

  /** An empty update keeps the settings. */
  lemma MergeNothing(current: Settings)
    ensures Merge(current, NO_UPDATE) == current
  {
  }

  /** A complete update replaces the settings, whatever they were. */
  lemma MergeFull(current: Settings, s: Settings)
    ensures Merge(current, FullUpdate(s)) == s
  {
  }

  /** Applying the same update twice is applying it once. */
  lemma MergeIdempotent(current: Settings, u: SettingsUpdate)
    ensures Merge(Merge(current, u), u) == Merge(current, u)
  {
  }

  /** Two successive saves amount to one save of the combined update. */
  lemma MergeThen(current: Settings, first: SettingsUpdate, second: SettingsUpdate)
    ensures Merge(Merge(current, first), second) == Merge(current, Then(first, second))
  {
  }

  /** The explicit per-domain reset: a present domain gets zero time and is
      unblocked with its `lastActive` kept; an absent domain gets no record;
      no other domain's record changes. */
  function ResetDomain(data: TimeTrackingData, domain: string): (r: TimeTrackingData)
    ensures r.Keys == data.Keys
    ensures domain in data ==> r[domain].totalSeconds == 0.0 && !r[domain].blocked
                                 && r[domain].lastActive == data[domain].lastActive
    ensures forall d :: d in data && d != domain ==> r[d] == data[d]
  {
    if domain in data then
      data[domain := data[domain].(totalSeconds := 0.0, blocked := false)]
    else data
  }

  /** Resetting twice is resetting once. */
  lemma ResetDomainIdempotent(data: TimeTrackingData, domain: string)
    ensures ResetDomain(ResetDomain(data, domain), domain) == ResetDomain(data, domain)
  {
  }

  /** The storage areas the extension uses. */
  class Store {
    var settingsBlob: Option<Settings>
    var userBlob: Option<StoredUser>
    var timeBlob: Option<TimeTrackingData>

    constructor (settingsBlob: Option<Settings>, userBlob: Option<StoredUser>,
                 timeBlob: Option<TimeTrackingData>)
      ensures this.settingsBlob == settingsBlob && this.userBlob == userBlob
      ensures this.timeBlob == timeBlob
    {
      this.settingsBlob := settingsBlob;
      this.userBlob := userBlob;
      this.timeBlob := timeBlob;
    }

    /** The settings every reader sees. */
    function CurrentSettings(): Settings
      reads this
    {
      SettingsOrDefault(settingsBlob)
    }

    /** The time-tracking map every reader sees. */
    function TimeTracking(): TimeTrackingData
      reads this
    {
      TimeTrackingOrEmpty(timeBlob)
    }

    /** `getSettings`: the stored settings, or the defaults when none are stored. */
    method GetSettings() returns (s: Settings)
      ensures settingsBlob.Some? ==> s == settingsBlob.value
      ensures settingsBlob.None? ==> s == DEFAULT_SETTINGS
    {
      s := SettingsOrDefault(settingsBlob);
    }

    /** `saveSettings`: stores the current settings with the supplied fields
        overridden and returns what it stored; the other blobs are untouched. */
    method SaveSettings(u: SettingsUpdate) returns (updated: Settings)
      modifies this
      ensures updated == Merge(old(CurrentSettings()), u)
      ensures settingsBlob == Some(updated)
      ensures userBlob == old(userBlob) && timeBlob == old(timeBlob)
    {
      var current := GetSettings();
      updated := Merge(current, u);
      settingsBlob := Some(updated);
    }

    /** `getUser`: the stored user, or `null`. */
    method GetUser() returns (user: Option<StoredUser>)
      ensures user == userBlob
    {
      user := userBlob;
    }

    /** `getTimeTracking`: the stored map, or the empty map when none is stored. */
    method GetTimeTracking() returns (data: TimeTrackingData)
      ensures timeBlob.Some? ==> data == timeBlob.value
      ensures timeBlob.None? ==> data == map[]
    {
      data := TimeTrackingOrEmpty(timeBlob);
    }

    /** `saveTimeTracking`: replaces the whole time-tracking blob. */
    method SaveTimeTracking(data: TimeTrackingData)
      modifies this
      ensures timeBlob == Some(data)
      ensures settingsBlob == old(settingsBlob) && userBlob == old(userBlob)
    {
      timeBlob := Some(data);
    }

    /** `resetDomainTime`: loads the map, resets the one domain's record if
        it has one, and writes the whole map back (even when nothing changed). */
    method ResetDomainTime(domain: string)
      modifies this
      ensures timeBlob == Some(ResetDomain(old(TimeTracking()), domain))
      ensures settingsBlob == old(settingsBlob) && userBlob == old(userBlob)
    {
      var data := GetTimeTracking();
      if domain in data {
        data := data[domain := data[domain].(totalSeconds := 0.0, blocked := false)];
      }
      SaveTimeTracking(data);
    }
  }
}
