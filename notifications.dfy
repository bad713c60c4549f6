/** The decision parts of the notification service (lib/services/notifications.ts
    with its channel table in config/notifications.ts): which channels a
    priority uses, whether a user's preferences let a notification through,
    quiet hours, and which channel result sendNotification reports. The
    sending itself, the user lookup and the clock are inputs. */
module Notifications {
  import opened Common

  datatype Channel = Push | Sms | Webhook | Email | InApp

  datatype Category = Alert | Warning | Info | CriticalCategory

  /** The key a category has in a user's preference record. */
  function CategoryKey(c: Category): (k: string)
    ensures |k| > 0
  {
    match c
    case Alert => "alert"
    case Warning => "warning"
    case Info => "info"
    case CriticalCategory => "critical"
  }

  /** The priority names getChannels maps, with the mapped priority. This
      table is the priority map of getChannels. */
  function PriorityOf(key: string): (p: Severity)
    ensures key == "critical" ==> p == Critical
    ensures key == "high" || key == "alert" ==> p == High
    ensures key == "low" || key == "info" ==> p == Low
    ensures !(key in {"critical", "high", "alert", "low", "info"}) ==> p == Medium
  {
    if key == "critical" then Critical
    else if key == "high" || key == "alert" then High
    else if key == "low" || key == "info" then Low
    else Medium
  }

  /** The channel table of the configuration. */
  function ChannelsFor(p: Severity): seq<Channel>
  {
    match p
    case Critical => [Push, Sms, Webhook]
    case High => [Push, Webhook]
    case Medium => [Push]
    case Low => [InApp]
  }

  /** getChannels: unknown priority names use the medium channels. */
  function GetChannels(key: string): (cs: seq<Channel>)
    ensures |cs| > 0
    ensures key == "critical" ==> cs == [Push, Sms, Webhook]
    ensures key == "high" || key == "alert" ==> cs == [Push, Webhook]
    ensures key == "low" || key == "info" ==> cs == [InApp]
    ensures !(key in {"critical", "high", "alert", "low", "info"}) ==> cs == [Push]
  {
    ChannelsFor(PriorityOf(key))
  }

  /** The more urgent the priority, the more channels: every channel of a
      lower priority other than in-app is also used by a higher one. */
  lemma ChannelsGrowWithPriority(p: Severity, q: Severity, ch: Channel)
    requires Rank(p) <= Rank(q) && ch in ChannelsFor(p) && ch != InApp
    ensures ch in ChannelsFor(q)
  {
  }

  /** A clock reading or a window bound: hour and minute. */
  datatype Clock = Clock(hour: int, minute: int)

  function Minutes(c: Clock): int
  {
    c.hour * 60 + c.minute
  }

  /** isInQuietHours: both ends belong to the window; a window whose start is
      after its end runs over midnight. */
  function IsInQuietHours(current: Clock, start: Clock, end: Clock): (r: bool)
    ensures Minutes(start) <= Minutes(end) ==>
      (r <==> Minutes(start) <= Minutes(current) <= Minutes(end))
    ensures Minutes(start) > Minutes(end) ==>
      (r <==> Minutes(current) >= Minutes(start) || Minutes(current) <= Minutes(end))
  {
    var now := Minutes(current);
    var startTime := Minutes(start);
    var endTime := Minutes(end);
    if startTime <= endTime then now >= startTime && now <= endTime
    else now >= startTime || now <= endTime
  }

  /** A window over midnight is the complement of the daytime window between
      its end and its start, both ends excluded; the two bounds are always in
      the window. */
  lemma QuietHoursShape(current: Clock, start: Clock, end: Clock)
    ensures Minutes(start) > Minutes(end) ==>
      (IsInQuietHours(current, start, end) <==> !(Minutes(end) < Minutes(current) < Minutes(start)))
    ensures IsInQuietHours(start, start, end) && IsInQuietHours(end, start, end)
  {
  }

  datatype QuietHours = QuietHours(enabled: bool, start: Clock, end: Clock)
  datatype DrivingMode = DrivingMode(enabled: bool, silent: bool)

  /** A user's notification preferences. `enabled` may be missing, and
      `switches` holds the per-category switches by key; a key that is
      missing does not block. */
  datatype Preferences = Preferences(
    enabled: Option<bool>,
    switches: map<string, bool>,
    quietHours: Option<QuietHours>,
    drivingMode: Option<DrivingMode>)

  /** The default preferences of the configuration. */
  const DefaultPreferences: Preferences :=
    Preferences(Some(true), map["critical" := true, "high" := true, "medium" := true, "low" := false],
                Some(QuietHours(false, Clock(22, 0), Clock(6, 0))), Some(DrivingMode(false, false)))

  /** What looking the user up gave: an error, no user, a user without
      settings, or settings with or without a notification record. */
  datatype UserLookup = LookupFailed | NoUser | NoSettings | Settings(notifications: Option<Preferences>)

  predicate CategoryOn(prefs: Preferences, category: Category)
  {
    !(CategoryKey(category) in prefs.switches && !prefs.switches[CategoryKey(category)])
  }

  predicate QuietNow(prefs: Preferences, now: Clock)
  {
    prefs.quietHours.Some? && prefs.quietHours.value.enabled &&
    IsInQuietHours(now, prefs.quietHours.value.start, prefs.quietHours.value.end)
  }

  predicate SilentDriving(prefs: Preferences)
  {
    prefs.drivingMode.Some? && prefs.drivingMode.value.enabled && prefs.drivingMode.value.silent
  }

  /** The preferences in force: the user's record, or the defaults. */
  function PreferencesOf(settings: Option<Preferences>): Preferences
  {
    if settings.Some? then settings.value else DefaultPreferences
  }

  /** The decision of checkUserPreferences, with the clock as `now`. */
  function CheckUserPreferences(lookup: UserLookup, category: Category, now: Clock): (allowed: bool)
    ensures !lookup.Settings? ==> allowed
    ensures lookup.Settings? ==>
      (allowed <==>
        var prefs := PreferencesOf(lookup.notifications);
        prefs.enabled == Some(true) && CategoryOn(prefs, category) &&
        (category == CriticalCategory || (!QuietNow(prefs, now) && !SilentDriving(prefs))))
  {
    match lookup
    case LookupFailed => true
    case NoUser => true
    case NoSettings => true
    case Settings(notifications) =>
      var prefs := PreferencesOf(notifications);
      if prefs.enabled != Some(true) then false
      else if !CategoryOn(prefs, category) then false
      else if QuietNow(prefs, now) && category != CriticalCategory then false
      else if SilentDriving(prefs) && category != CriticalCategory then false
      else true
  }

  /** Critical notifications ignore quiet hours and silent driving mode: the
      decision for them does not depend on either. Every other category is
      blocked by both. */
  lemma CriticalNeverSilenced(prefs: Preferences, now: Clock, later: Clock, category: Category)
    ensures CheckUserPreferences(Settings(Some(prefs)), CriticalCategory, now) ==
            CheckUserPreferences(Settings(Some(prefs.(quietHours := None, drivingMode := None))), CriticalCategory, later)
    ensures category != CriticalCategory && (QuietNow(prefs, now) || SilentDriving(prefs)) ==>
            !CheckUserPreferences(Settings(Some(prefs)), category, now)
  {
  }

  /** Switching notifications off, or one category off, blocks it whatever
      else the record says. */
  lemma SwitchesBlock(prefs: Preferences, category: Category, now: Clock)
    ensures prefs.enabled != Some(true) ==> !CheckUserPreferences(Settings(Some(prefs)), category, now)
    ensures CategoryKey(category) in prefs.switches && !prefs.switches[CategoryKey(category)] ==>
            !CheckUserPreferences(Settings(Some(prefs)), category, now)
  {
  }

  /** The default record switches the 'low' key off, but no category is keyed
      'low', so the defaults let every category through. */
  lemma DefaultsAllowEveryCategory(category: Category, now: Clock)
    ensures CheckUserPreferences(Settings(None), category, now)
  {
    assert CategoryKey(category) != "low";
  }

  /** The outcome of one channel, stamped with the channel that produced it. */
  datatype NotificationResult = NotificationResult(success: bool, error: Option<string>, channel: Option<Channel>)

  /** Which senders the configuration enables: push, SMS and email only with
      their keys, webhooks and in-app always. */
  datatype Config = Config(fcmEnabled: bool, smsEnabled: bool, emailEnabled: bool)

  predicate ChannelEnabled(config: Config, ch: Channel)
  {
    match ch
    case Push => config.fcmEnabled
    case Sms => config.smsEnabled
    case Webhook => true
    case Email => config.emailEnabled
    case InApp => true
  }

  /** One result per enabled channel, in channel order. */
  function ChannelResults(channels: seq<Channel>, config: Config, send: Channel -> NotificationResult):
    (rs: seq<NotificationResult>)
    ensures |rs| <= |channels|
  {
    if channels == [] then []
    else
      var init := ChannelResults(channels[..|channels| - 1], config, send);
      var ch := channels[|channels| - 1];
      if ChannelEnabled(config, ch) then init + [send(ch).(channel := Some(ch))] else init
  }

  lemma {:induction false} ChannelResultsStamped(channels: seq<Channel>, config: Config,
                                                 send: Channel -> NotificationResult, i: int)
    requires 0 <= i < |ChannelResults(channels, config, send)|
    ensures var r := ChannelResults(channels, config, send)[i];
      r.channel.Some? && r.channel.value in channels && ChannelEnabled(config, r.channel.value) &&
      r == send(r.channel.value).(channel := r.channel)
  {
    var init := ChannelResults(channels[..|channels| - 1], config, send);
    if i < |init| {
      ChannelResultsStamped(channels[..|channels| - 1], config, send, i);
    }
  }

  const NoChannels: NotificationResult := NotificationResult(false, Some("No channels available"), None)
  const Declined: NotificationResult := NotificationResult(false, Some("User has disabled this notification type"), None)

  predicate Succeeded(r: NotificationResult)
  {
    r.success
  }

  /** The reported result: the first success, else the first result, else
      the no-channel failure. */
  function SelectResult(results: seq<NotificationResult>): (r: NotificationResult)
    ensures (exists i :: 0 <= i < |results| && results[i].success) ==>
      r.success && exists i :: 0 <= i < |results| && results[i] == r && forall j :: 0 <= j < i ==> !results[j].success
    ensures (forall i :: 0 <= i < |results| ==> !results[i].success) ==>
      r == if |results| > 0 then results[0] else NoChannels
  {
    var found := FindFirst(results, Succeeded);
    if found.Some? then found.value
    else if |results| > 0 then results[0]
    else NoChannels
  }

  /** A notification request; the texts and payload are not modelled.
      `priority` is the priority name, when the request carries one. */
  datatype NotificationRequest = NotificationRequest(userId: Option<string>, category: Category,
                                                     priority: Option<string>)

  /** The key getChannels is asked for: the priority, or else the category. */
  function ChannelKey(request: NotificationRequest): string
  {
    if request.priority.Some? && |request.priority.value| > 0 then request.priority.value
    else CategoryKey(request.category)
  }

  /** The preferences are consulted only for a user id that is present and
      not empty (a truthiness test). */
  predicate ChecksPreferences(request: NotificationRequest)
  {
    request.userId.Some? && |request.userId.value| > 0
  }

  /** sendNotification: `allowed` is the preference decision for the request's
      user, and `send` what each channel's sender returns. */
  method SendNotification(request: NotificationRequest, allowed: bool, config: Config,
                          send: Channel -> NotificationResult) returns (result: NotificationResult)
    ensures ChecksPreferences(request) && !allowed ==> result == Declined
    ensures !(ChecksPreferences(request) && !allowed) ==>
      result == SelectResult(ChannelResults(GetChannels(ChannelKey(request)), config, send))
  {
    if ChecksPreferences(request) && !allowed {
      return Declined;
    }
    var channels := GetChannels(ChannelKey(request));
    var results: seq<NotificationResult> := [];
    for k := 0 to |channels|
      invariant results == ChannelResults(channels[..k], config, send)
    {
      var channel := channels[k];
      assert channels[..k + 1][..k] == channels[..k];
      if channel == Push && config.fcmEnabled {
        results := results + [send(Push).(channel := Some(Push))];
      }
      if channel == Sms && config.smsEnabled {
        results := results + [send(Sms).(channel := Some(Sms))];
      }
      if channel == Webhook {
        results := results + [send(Webhook).(channel := Some(Webhook))];
      }
      if channel == Email && config.emailEnabled {
        results := results + [send(Email).(channel := Some(Email))];
      }
      if channel == InApp {
        results := results + [send(InApp).(channel := Some(InApp))];
      }
    }
    assert channels[..|channels|] == channels;
    var successResult := FindFirst(results, Succeeded);
    if successResult.Some? {
      return successResult.value;
    }
    if |results| > 0 {
      return results[0];
    }
    return NoChannels;
  }

  /** A request succeeds as soon as one enabled channel of its priority
      succeeds, and the result names one of its channels. */
  lemma SendOutcome(request: NotificationRequest, config: Config, send: Channel -> NotificationResult, ch: Channel)
    requires ch in GetChannels(ChannelKey(request)) && ChannelEnabled(config, ch) && send(ch).success
    ensures var r := SelectResult(ChannelResults(GetChannels(ChannelKey(request)), config, send));
      r.success && r.channel.Some? && r.channel.value in GetChannels(ChannelKey(request))
  {
    var channels := GetChannels(ChannelKey(request));
    var results := ChannelResults(channels, config, send);
    ChannelReported(channels, config, send, ch);
    var r := SelectResult(results);
    var i :| 0 <= i < |results| && results[i] == r;
    ChannelResultsStamped(channels, config, send, i);
  }

  /** Conversely, the outcome succeeds only when some enabled channel of the
      request's priority succeeded. */
  lemma SuccessNeedsSucceedingChannel(request: NotificationRequest, config: Config,
                                      send: Channel -> NotificationResult)
    ensures SelectResult(ChannelResults(GetChannels(ChannelKey(request)), config, send)).success ==>
      exists ch :: ch in GetChannels(ChannelKey(request)) && ChannelEnabled(config, ch) && send(ch).success
  {
    var channels := GetChannels(ChannelKey(request));
    var results := ChannelResults(channels, config, send);
    if SelectResult(results).success {
      var i :| 0 <= i < |results| && results[i].success;
      ChannelResultsStamped(channels, config, send, i);
      var ch := results[i].channel.value;
      assert send(ch).success;
    }
  }

  /** Every enabled channel has its stamped result among the channel results. */
  lemma {:induction false} ChannelReported(channels: seq<Channel>, config: Config,
                                           send: Channel -> NotificationResult, ch: Channel)
    requires ch in channels && ChannelEnabled(config, ch)
    ensures send(ch).(channel := Some(ch)) in ChannelResults(channels, config, send)
  {
    var init := channels[..|channels| - 1];
    if ch != channels[|channels| - 1] {
      assert channels == init + [channels[|channels| - 1]];
      ChannelReported(init, config, send, ch);
    }
  }

  /** Without the push sender, a medium-priority request (including one with an
      unknown priority name) has no channel. */
  lemma PushOnlyWithoutFcm(request: NotificationRequest, config: Config, send: Channel -> NotificationResult)
    requires PriorityOf(ChannelKey(request)) == Medium && !config.fcmEnabled
    ensures SelectResult(ChannelResults(GetChannels(ChannelKey(request)), config, send)) == NoChannels
  {
    assert GetChannels(ChannelKey(request)) == [Push];
    assert [Push][..0] == [];
  }
}
