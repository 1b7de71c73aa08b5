/** The public API (`Countly`): initialisation, event recording with the
    super properties written into the caller's segmentation map, sending
    the user profile, and the super properties themselves. */
module Client {
  import opened Wrappers
  import Json
  import opened Platform
  import opened JavaText
  import opened Config
  import opened TimeUniques
  import opened CommonUtil
  import opened Events
  import UserProfile
  import opened HttpConsumer

  const INT_MIN: int := -0x8000_0000
  const INT_MAX: int := 0x7fff_ffff

  /** Java's `(int)` cast of a double: toward zero, saturating at the ends
      of the int range. */
  function IntOfDouble(x: real): (r: int)
    ensures INT_MIN <= r <= INT_MAX
    ensures x >= INT_MAX as real ==> r == INT_MAX
    ensures x <= INT_MIN as real ==> r == INT_MIN
    ensures INT_MIN as real < x < INT_MAX as real ==>
              && (x >= 0.0 ==> r as real <= x < r as real + 1.0)
              && (x < 0.0 ==> r as real - 1.0 < x <= r as real)
  {
    var t := if x >= 0.0 then x.Floor else -((-x).Floor);
    if t > INT_MAX then INT_MAX else if t < INT_MIN then INT_MIN else t
  }

  /** What `init` leaves in `Config` and in the consumer. */
  datatype Setup = Setup(serverUrl: string, appKey: string, deviceId: string, httpHeaders: Option<seq<HeaderEntry>>)

  /** The URL a request is sent to. */
  function RequestUrl(serverUrl: string, requestData: string): string
  {
    serverUrl + "/i?" + requestData
  }

  /** A server URL that parses once the request path is added, and whose
      query is then exactly the request text, for every request text
      without the fragment mark '#', where `getQuery` stops. */
  ghost predicate ServesQueries(serverUrl: string, p: Services)
  {
    forall q :: '#' !in q ==> p.urlParses(RequestUrl(serverUrl, q)) && p.urlQuery(RequestUrl(serverUrl, q)) == Some(q)
  }

  /** `new URL(u).getQuery()`: the text after the first '?' that comes
      before the fragment mark '#'; `None` when there is no such '?'. */
  function JavaQuery(u: string): Option<string>
  {
    var h := IndexOf(u, '#');
    var body := if h < 0 then u else u[..h];
    var i := IndexOf(body, '?');
    if i < 0 then None else Some(body[i + 1..])
  }

  /** The query of a request URL is the request text. */
  lemma JavaQueryOfRequestUrl(serverUrl: string, q: string)
    requires '?' !in serverUrl && '#' !in serverUrl && '#' !in q
    ensures JavaQuery(RequestUrl(serverUrl, q)) == Some(q)
  {
    var u := RequestUrl(serverUrl, q);
    var k := |serverUrl| + 2;
    assert u[..k] == serverUrl + "/i";
    assert u[k] == '?';
    assert u[k + 1..] == q;
    assert '#' !in u;
    IndexOfFirst(u, '?', k);
  }

  /** A server URL without '?' or '#' serves queries on a platform that
      reads queries as `java.net.URL` does and accepts its request URLs. */
  lemma JavaQueryServesQueries(serverUrl: string, p: Services)
    requires '?' !in serverUrl && '#' !in serverUrl
    requires forall u :: p.urlQuery(u) == JavaQuery(u)
    requires forall q :: p.urlParses(RequestUrl(serverUrl, q))
    ensures ServesQueries(serverUrl, p)
  {
    forall q | '#' !in q
      ensures p.urlQuery(RequestUrl(serverUrl, q)) == Some(q)
    {
      JavaQueryOfRequestUrl(serverUrl, q);
    }
  }

  /** The device id `init` draws holds neither '&' nor '#'. */
  lemma DeviceIdIsPlain(randomId: nat)
    ensures '&' !in ToHexString(randomId) && '#' !in ToHexString(randomId)
  {
  }

  /** The entries of `source` under the keys `keys`. */
  function Part(source: map<string, Json.Value>, keys: set<string>): map<string, Json.Value>
    requires keys <= source.Keys
  {
    map k | k in keys :: source[k]
  }

  /** One more `put` extends the part already written. */
  lemma PutOne(target: map<string, Json.Value>, source: map<string, Json.Value>, done: set<string>, k: string)
    requires done <= source.Keys && k in source
    ensures (target + Part(source, done))[k := source[k]] == target + Part(source, done + {k})
  {
  }

  lemma PartOfAll(source: map<string, Json.Value>)
    ensures Part(source, source.Keys) == source
  {
  }

  lemma PartOfNone(target: map<string, Json.Value>, source: map<string, Json.Value>)
    ensures target + Part(source, {}) == target
  {
  }

  /** Writing one more key leaves one key fewer to write. */
  lemma Shrinks(all: set<string>, done: set<string>, k: string)
    requires k in all - done
    ensures |all - (done + {k})| < |all - done|
  {
    assert all - (done + {k}) == (all - done) - {k};
  }

  /** The `put` loop: every entry of `source` written into `target`. */
  method PutAll(target: map<string, Json.Value>, source: map<string, Json.Value>) returns (merged: map<string, Json.Value>)
    ensures merged == target + source
  {
    merged := target;
    var done: set<string> := {};
    PartOfNone(target, source);
    while done != source.Keys
      invariant done <= source.Keys
      invariant merged == target + Part(source, done)
      decreases |source.Keys - done|
    {
      var k :| k in source.Keys - done;
      PutOne(target, source, done, k);
      merged := merged[k := source[k]];
      Shrinks(source.Keys, done, k);
      done := done + {k};
    }
    PartOfAll(source);
  }

  /** The caller's segmentation map, which `recordEvent` writes into. */
  class SegmentationMap {
    var entries: Segmentation

    constructor (entries: Segmentation)
      ensures this.entries == entries
    {
      this.entries := entries;
    }
  }

  // ---------------------------------------------------------------------
  // recordEvent

  /** The event `recordEvent` builds: the generator's timestamp, the
      clock's hour and day, the merged segmentation, the count, the sum cast
      to int and the duration. */
  function EventOf(key: string, segmentation: Option<Segmentation>, count: int, sum: real, dur: real,
                   timestamp: int, clock: Clock): EventFields
  {
    EventFields(Some(key), segmentation, count, IntOfDouble(sum), dur, timestamp, clock.hourOfDay,
                CurrentDayOfWeek(clock.calendarDayOfWeek))
  }

  /** The JSON array text that carries one event. */
  function EventBatch(e: EventFields, p: Services): string
  {
    p.jsonText(Json.Arr([ToJson(e)]))
  }

  /** The end of one `recordEvent`: skipped for a missing or empty key; a
      NullPointerException when super properties meet a null segmentation;
      or the event that was built and what sending it came to. */
  datatype EventOutcome =
    | Skipped
    | Threw(fault: RuntimeFault)
    | Dispatched(event: EventFields, send: SendOutcome)

  /** The outcome, the generator's history and the caller's map after it. */
  datatype Recorded = Recorded(outcome: EventOutcome, history: seq<int>, segmentation: Option<Segmentation>)

  /** `recordEvent(key, segmentation, count, sum, dur)`.  The event and the
      request each take a timestamp from the generator, in that order. */
  function RecordOf(setup: Setup, superProperties: map<string, Json.Value>, key: Option<string>,
                    segmentation: Option<Segmentation>, count: int, sum: real, dur: real,
                    history: seq<int>, clock: Clock, network: WireRequest -> NetworkResult, p: Services): Recorded
  {
    if key.None? || |key.value| < 1 then Recorded(Skipped, history, segmentation)
    else if segmentation.None? && superProperties != map[] then Recorded(Threw(NullPointer), history, segmentation)
    else
      var merged := if segmentation.Some? then Some(segmentation.value + superProperties) else None;
      var first := Step(history, clock.millis);
      var event := EventOf(key.value, merged, count, sum, dur, first.ms, clock);
      var second := Step(first.history, clock.millis);
      var url := RequestUrl(setup.serverUrl, Request(setup.appKey, setup.deviceId, second.ms, clock, EventBatch(event, p), TYPE_SEND_EVENT, p));
      Recorded(Dispatched(event, SendOf(setup.httpHeaders, url, network, clock.millis, p)), second.history, merged)
  }

  /** `new Event(key)` and the four setters `recordEvent` calls. */
  method BuildEvent(key: string, segmentation: Option<Segmentation>, count: int, sum: real, dur: real,
                    timeGenerator: TimeUniquesEnsurer, clock: Clock) returns (e: EventFields)
    requires timeGenerator.Valid()
    modifies timeGenerator
    ensures timeGenerator.Valid()
    ensures var step := Step(old(timeGenerator.lastTsMs), clock.millis);
            timeGenerator.lastTsMs == step.history && e == EventOf(key, segmentation, count, sum, dur, step.ms, clock)
  {
    var event := new Event(Some(key), timeGenerator, clock);
    event.SetSegmentation(segmentation);
    event.SetCount(count);
    event.SetSum(IntOfDouble(sum));
    event.SetDur(dur);
    e := event.Fields();
  }

  /** A null segmentation fails exactly when there are super properties to
      write into it; a present key is needed to get that far. */
  lemma NullSegmentationFailsOnlyWithSuperProperties(setup: Setup, superProperties: map<string, Json.Value>, key: string,
                                                     segmentation: Option<Segmentation>, count: int, sum: real, dur: real,
                                                     history: seq<int>, clock: Clock, network: WireRequest -> NetworkResult, p: Services)
    requires key != ""
    ensures var r := RecordOf(setup, superProperties, Some(key), segmentation, count, sum, dur, history, clock, network, p);
            && (r.outcome.Threw? <==> segmentation.None? && superProperties != map[])
            && (r.outcome.Threw? ==> r.history == history && r.segmentation == segmentation)
            && !r.outcome.Skipped?
  {
  }

  /** Every super property reaches the event, over the caller's value for
      the same name; the caller's other entries are kept.  The caller's map
      is changed the same way. */
  lemma SuperPropertiesReachEvent(setup: Setup, superProperties: map<string, Json.Value>, key: string,
                                  segmentation: Segmentation, count: int, sum: real, dur: real,
                                  history: seq<int>, clock: Clock, network: WireRequest -> NetworkResult, p: Services)
    requires key != ""
    ensures var r := RecordOf(setup, superProperties, Some(key), Some(segmentation), count, sum, dur, history, clock, network, p);
            && r.outcome.Dispatched?
            && r.segmentation == r.outcome.event.segmentation
            && var sent := r.outcome.event.segmentation.value;
            && sent.Keys == segmentation.Keys + superProperties.Keys
            && (forall k :: k in superProperties ==> sent[k] == superProperties[k])
            && (forall k :: k in segmentation && k !in superProperties ==> sent[k] == segmentation[k])
  {
  }

  /** The event's timestamp is new to the generator, and the request's
      timestamp differs from it. */
  lemma RecordIssuesDistinctTimestamps(setup: Setup, superProperties: map<string, Json.Value>, key: string,
                                       segmentation: Option<Segmentation>, count: int, sum: real, dur: real,
                                       history: seq<int>, clock: Clock, network: WireRequest -> NetworkResult, p: Services)
    ensures var r := RecordOf(setup, superProperties, Some(key), segmentation, count, sum, dur, history, clock, network, p);
            r.outcome.Dispatched? ==>
              var first := Step(history, clock.millis);
              && r.outcome.event.timestamp == first.ms
              && first.ms !in history
              && Step(first.history, clock.millis).ms != first.ms
              && r.history == Step(first.history, clock.millis).history
  {
    ConsecutiveCallsDiffer(history, clock.millis, clock.millis);
  }

  /** The event that goes out reads back, from its JSON, as the event built
      with the caller's count and duration and the cast sum. */
  lemma RecordedEventReadsBack(setup: Setup, superProperties: map<string, Json.Value>, key: string,
                               segmentation: Option<Segmentation>, count: int, sum: real, dur: real,
                               history: seq<int>, clock: Clock, network: WireRequest -> NetworkResult, p: Services)
    ensures var r := RecordOf(setup, superProperties, Some(key), segmentation, count, sum, dur, history, clock, network, p);
            r.outcome.Dispatched? ==>
              var e := r.outcome.event;
              && FromJson(ToJson(e)) == Some(OnWire(e))
              && e.key == Some(key) && e.count == count && e.sum == IntOfDouble(sum) && e.dur == dur
  {
    var r := RecordOf(setup, superProperties, Some(key), segmentation, count, sum, dur, history, clock, network, p);
    if r.outcome.Dispatched? {
      ToJsonRoundTrip(r.outcome.event);
    }
  }

  /** An event request goes out to a server that serves queries with the
      plain form content type and no upload, whatever the events hold. */
  lemma EventSendNeverUploads(setup: Setup, superProperties: map<string, Json.Value>, key: string,
                              segmentation: Option<Segmentation>, count: int, sum: real, dur: real,
                              history: seq<int>, clock: Clock, network: WireRequest -> NetworkResult, p: Services)
    requires p.Valid() && ServesQueries(setup.serverUrl, p)
    requires '&' !in setup.appKey && '&' !in setup.deviceId && '#' !in setup.appKey && '#' !in setup.deviceId
    ensures var r := RecordOf(setup, superProperties, Some(key), segmentation, count, sum, dur, history, clock, network, p);
            r.outcome.Dispatched? ==>
              && r.outcome.send.Attempted?
              && r.outcome.send.request.upload.None?
              && r.outcome.send.request.contentType == FORM_CONTENT_TYPE
  {
    var r := RecordOf(setup, superProperties, Some(key), segmentation, count, sum, dur, history, clock, network, p);
    if r.outcome.Dispatched? {
      var first := Step(history, clock.millis);
      var second := Step(first.history, clock.millis);
      var tz := GetTimezoneOffset(clock.zoneOffsetMs);
      var dow := CurrentDayOfWeek(clock.calendarDayOfWeek);
      var data := EventBatch(r.outcome.event, p);
      var requestData := Request(setup.appKey, setup.deviceId, second.ms, clock, data, TYPE_SEND_EVENT, p);
      var url := RequestUrl(setup.serverUrl, requestData);
      RequestAvoidsMark(setup.appKey, setup.deviceId, second.ms, clock, data, TYPE_SEND_EVENT, p);
      assert p.urlParses(url) && p.urlQuery(url) == Some(requestData);
      EventRequestCarriesNoPicturePath(setup.appKey, second.ms, clock.hourOfDay, dow, tz, setup.deviceId, data, url, p);
      SendContract(setup.httpHeaders, url, network, clock.millis, p);
    }
  }

  // ---------------------------------------------------------------------
  // sendUserData

  /** The outcome, the profile and the generator's history after it. */
  datatype UserSent = UserSent(outcome: SendOutcome, profile: UserProfile.Profile, history: seq<int>)

  /** The profile `sendUserData` sends: `setData`, then `setCustomData`
      when custom data is given. */
  function Updated(profile: UserProfile.Profile, data: Option<map<string, string>>,
                   customData: Option<map<string, string>>, p: Services): UserProfile.Profile
  {
    var updated := UserProfile.WithData(profile, data, p);
    if customData.Some? then UserProfile.WithCustomData(updated, customData.value) else updated
  }

  /** `sendUserData(data, customData)`.  The profile is cleared afterwards
      unless an unchecked exception escapes from sending. */
  function UserSendOf(setup: Setup, profile: UserProfile.Profile, data: Option<map<string, string>>,
                      customData: Option<map<string, string>>, history: seq<int>, clock: Clock,
                      network: WireRequest -> NetworkResult, p: Services): UserSent
  {
    var updated := Updated(profile, data, customData, p);
    var fragment := if updated.isSynced then "" else UserProfile.Fragment(updated, p);
    var step := Step(history, clock.millis);
    var url := RequestUrl(setup.serverUrl, Request(setup.appKey, setup.deviceId, step.ms, clock, fragment, TYPE_SEND_USER_DATA, p));
    var outcome := SendOf(setup.httpHeaders, url, network, clock.millis, p);
    UserSent(outcome, if outcome.Crashed? then updated.(isSynced := true) else UserProfile.CLEARED, step.history)
  }

  /** New data always goes out: given a data map, the request carries the
      fragment of the updated profile, and the profile is cleared unless
      sending threw an unchecked exception. */
  lemma UserSendCarriesUpdate(setup: Setup, profile: UserProfile.Profile, data: map<string, string>,
                              customData: Option<map<string, string>>, history: seq<int>, clock: Clock,
                              network: WireRequest -> NetworkResult, p: Services)
    ensures var r := UserSendOf(setup, profile, Some(data), customData, history, clock, network, p);
            var step := Step(history, clock.millis);
            var fragment := UserProfile.Fragment(Updated(profile, Some(data), customData, p), p);
            && r.outcome == SendOf(setup.httpHeaders,
                                   RequestUrl(setup.serverUrl, Request(setup.appKey, setup.deviceId, step.ms, clock, fragment, TYPE_SEND_USER_DATA, p)),
                                   network, clock.millis, p)
            && (!r.outcome.Crashed? ==> r.profile == UserProfile.CLEARED)
            && r.history == step.history
  {
    var updated := Updated(profile, Some(data), customData, p);
    assert !UserProfile.WithData(profile, Some(data), p).isSynced;
    assert !updated.isSynced;
  }

  /** What sending a request whose query names a picture path does: it
      goes out with that file and the multipart content type. */
  lemma SendUploads(httpHeaders: Option<seq<HeaderEntry>>, url: string, path: string,
                    network: WireRequest -> NetworkResult, millis: int, p: Services)
    requires p.urlParses(url) && UserProfile.PicturePathOf(url, p) == Success(path) && path != ""
    ensures var outcome := SendOf(httpHeaders, url, network, millis, p);
            && outcome.Attempted?
            && outcome.request.upload == Some(path)
            && outcome.request.contentType == MULTIPART_CONTENT_TYPE + Boundary(millis)
  {
  }

  /** The updated profile is unsynced, and a picture path it keeps names
      a regular file. */
  lemma UpdatedIsUnsynced(profile: UserProfile.Profile, data: map<string, string>,
                          customData: Option<map<string, string>>, p: Services)
    ensures var updated := Updated(profile, Some(data), customData, p);
            && !updated.isSynced
            && (updated.picturePath.Some? ==> p.isFile(updated.picturePath.value))
  {
    var withData := UserProfile.WithData(profile, Some(data), p);
    assert !withData.isSynced;
    assert withData.picturePath.Some? ==> p.isFile(withData.picturePath.value);
  }

  /** A profile whose picture path survives `setData` has that file
      uploaded with the request, to a server that serves queries, when its
      JSON does not encode to the empty text. */
  lemma UserSendUploadsPicturePath(setup: Setup, profile: UserProfile.Profile, data: map<string, string>,
                                    customData: Option<map<string, string>>, history: seq<int>, clock: Clock,
                                    network: WireRequest -> NetworkResult, p: Services)
    requires p.Valid() && ServesQueries(setup.serverUrl, p)
    requires '&' !in setup.appKey && '&' !in setup.deviceId && '#' !in setup.appKey && '#' !in setup.deviceId
    requires var updated := Updated(profile, Some(data), customData, p);
             updated.picturePath.Some? && p.urlEncode(p.jsonText(UserProfile.ToJson(updated))) != ""
    ensures var r := UserSendOf(setup, profile, Some(data), customData, history, clock, network, p);
            var path := Updated(profile, Some(data), customData, p).picturePath.value;
            && r.outcome.Attempted?
            && r.outcome.request.upload == Some(path)
            && r.outcome.request.contentType == MULTIPART_CONTENT_TYPE + Boundary(clock.millis)
            && p.isFile(path)
            && r.profile == UserProfile.CLEARED
  {
    var updated := Updated(profile, Some(data), customData, p);
    var path := updated.picturePath.value;
    UpdatedIsUnsynced(profile, data, customData, p);
    var details := p.urlEncode(p.jsonText(UserProfile.ToJson(updated)));
    var fragment := UserProfile.Fragment(updated, p);
    assert fragment == UserProfile.DetailsFragment(details, Some(path), p);
    var step := Step(history, clock.millis);
    var tz := GetTimezoneOffset(clock.zoneOffsetMs);
    var dow := CurrentDayOfWeek(clock.calendarDayOfWeek);
    var requestData := Request(setup.appKey, setup.deviceId, step.ms, clock, fragment, TYPE_SEND_USER_DATA, p);
    var url := RequestUrl(setup.serverUrl, requestData);
    UserProfile.FragmentAvoidsMark(details, Some(path), p);
    RequestAvoidsMark(setup.appKey, setup.deviceId, step.ms, clock, fragment, TYPE_SEND_USER_DATA, p);
    assert p.urlParses(url) && p.urlQuery(url) == Some(requestData);
    UserRequestCarriesPicturePath(setup.appKey, step.ms, clock.hourOfDay, dow, tz, setup.deviceId, details, path, url, p);
    SendUploads(setup.httpHeaders, url, path, network, clock.millis, p);
  }

  // ---------------------------------------------------------------------
  // The client object

  class Countly {
    /** `CommonUtil`'s shared generator and `UserData`'s static state. */
    const timeGenerator: TimeUniquesEnsurer
    const userData: UserProfile.UserData

    /** Whether `init` has run. */
    var ready: bool
    /** `Config.SERVER_URL`, `APP_KEY`, `DEVICE_ID` and `CONSUMER_TYPE`. */
    var serverUrl: string
    var appKey: string
    var deviceId: string
    var consumerType: int
    var consumer: HttpConsumer?
    var superProperties: map<string, Json.Value>

    ghost predicate Valid()
      reads this, timeGenerator
    {
      timeGenerator.Valid() && (ready ==> consumer != null)
    }

    /** What the requests are built from. */
    function Configured(): Setup
      reads this
      requires consumer != null
    {
      Setup(serverUrl, appKey, deviceId, consumer.httpHeaders)
    }

    /** The singleton before `init`, with the static state it shares. */
    constructor ()
      ensures Valid() && !ready && superProperties == map[]
      ensures timeGenerator.lastTsMs == [] && userData.State() == UserProfile.CLEARED
    {
      timeGenerator := new TimeUniquesEnsurer();
      userData := new UserProfile.UserData();
      ready := false;
      serverUrl, appKey, deviceId := "", "", "";
      consumerType := 0;
      consumer := null;
      superProperties := map[];
    }

    /** `init(serverURL, appKey, type, httpHeaders)`; `randomId` is the
        64-bit random number the device id is printed from.  Any type but
        the log consumer selects the HTTP consumer. */
    method Init(serverURL: string, appKey: string, consumerType: int, httpHeaders: Option<seq<HeaderEntry>>, randomId: nat)
      requires Valid() && randomId < 0x1_0000_0000_0000_0000
      modifies this
      ensures Valid() && ready
      ensures serverUrl == serverURL && this.appKey == appKey && deviceId == ToHexString(randomId)
      ensures this.consumerType == if consumerType == TYPE_LOG_CONSUMER then TYPE_LOG_CONSUMER else TYPE_HTTP_CONSUMER
      ensures fresh(consumer) && consumer.httpHeaders == httpHeaders && superProperties == map[]
    {
      serverUrl := serverURL;
      this.appKey := appKey;
      if consumerType == TYPE_LOG_CONSUMER {
        this.consumerType := TYPE_LOG_CONSUMER;
      } else {
        this.consumerType := TYPE_HTTP_CONSUMER;
      }
      deviceId := ToHexString(randomId);
      consumer := new HttpConsumer(httpHeaders);
      superProperties := map[];
      ready := true;
    }

    /** `recordEvent(key, segmentation, count, sum, dur)`, with `network`
        standing for the connection. */
    method RecordEvent(key: Option<string>, segmentation: SegmentationMap?, count: int, sum: real, dur: real,
                       clock: Clock, network: WireRequest -> NetworkResult, p: Services) returns (outcome: EventOutcome)
      requires Valid() && ready
      modifies timeGenerator, segmentation
      ensures Valid()
      ensures var r := RecordOf(Configured(), superProperties, key, if segmentation == null then None else Some(old(segmentation.entries)),
                                count, sum, dur, old(timeGenerator.lastTsMs), clock, network, p);
              && outcome == r.outcome
              && timeGenerator.lastTsMs == r.history
              && (segmentation != null ==> Some(segmentation.entries) == r.segmentation)
    {
      if key.None? || |key.value| < 1 {
        return Skipped;
      }
      if segmentation != null {
        segmentation.entries := PutAll(segmentation.entries, superProperties);
      } else if superProperties != map[] {
        return Threw(NullPointer);
      }
      var merged := if segmentation == null then None else Some(segmentation.entries);
      var event := BuildEvent(key.value, merged, count, sum, dur, timeGenerator, clock);
      var requestData := consumer.PrepareRequestData(EventBatch(event, p), TYPE_SEND_EVENT, appKey, deviceId, timeGenerator, clock, p);
      var sent := consumer.SendData(serverUrl + "/i?" + requestData, network, clock.millis, p);
      outcome := Dispatched(event, sent);
    }

    /** `recordEvent(key)`: no segmentation, count 1, sum and duration 0. */
    method RecordKey(key: Option<string>, clock: Clock, network: WireRequest -> NetworkResult, p: Services)
      returns (outcome: EventOutcome)
      requires Valid() && ready
      modifies timeGenerator
      ensures Valid()
      ensures var r := RecordOf(Configured(), superProperties, key, None, 1, 0.0, 0.0, old(timeGenerator.lastTsMs), clock, network, p);
              outcome == r.outcome && timeGenerator.lastTsMs == r.history
    {
      outcome := RecordEvent(key, null, 1, 0.0, 0.0, clock, network, p);
    }

    /** `recordEvent(key, count)`. */
    method RecordCount(key: Option<string>, count: int, clock: Clock, network: WireRequest -> NetworkResult, p: Services)
      returns (outcome: EventOutcome)
      requires Valid() && ready
      modifies timeGenerator
      ensures Valid()
      ensures var r := RecordOf(Configured(), superProperties, key, None, count, 0.0, 0.0, old(timeGenerator.lastTsMs), clock, network, p);
              outcome == r.outcome && timeGenerator.lastTsMs == r.history
    {
      outcome := RecordEvent(key, null, count, 0.0, 0.0, clock, network, p);
    }

    /** `recordEvent(key, count, sum)`. */
    method RecordCountSum(key: Option<string>, count: int, sum: real, clock: Clock, network: WireRequest -> NetworkResult, p: Services)
      returns (outcome: EventOutcome)
      requires Valid() && ready
      modifies timeGenerator
      ensures Valid()
      ensures var r := RecordOf(Configured(), superProperties, key, None, count, sum, 0.0, old(timeGenerator.lastTsMs), clock, network, p);
              outcome == r.outcome && timeGenerator.lastTsMs == r.history
    {
      outcome := RecordEvent(key, null, count, sum, 0.0, clock, network, p);
    }

    /** `recordEvent(key, segmentation, count)`. */
    method RecordSegmented(key: Option<string>, segmentation: SegmentationMap?, count: int,
                           clock: Clock, network: WireRequest -> NetworkResult, p: Services) returns (outcome: EventOutcome)
      requires Valid() && ready
      modifies timeGenerator, segmentation
      ensures Valid()
      ensures var r := RecordOf(Configured(), superProperties, key, if segmentation == null then None else Some(old(segmentation.entries)),
                                count, 0.0, 0.0, old(timeGenerator.lastTsMs), clock, network, p);
              && outcome == r.outcome
              && timeGenerator.lastTsMs == r.history
              && (segmentation != null ==> Some(segmentation.entries) == r.segmentation)
    {
      outcome := RecordEvent(key, segmentation, count, 0.0, 0.0, clock, network, p);
    }

    /** `recordEvent(key, segmentation, count, sum)`. */
    method RecordSegmentedSum(key: Option<string>, segmentation: SegmentationMap?, count: int, sum: real,
                              clock: Clock, network: WireRequest -> NetworkResult, p: Services) returns (outcome: EventOutcome)
      requires Valid() && ready
      modifies timeGenerator, segmentation
      ensures Valid()
      ensures var r := RecordOf(Configured(), superProperties, key, if segmentation == null then None else Some(old(segmentation.entries)),
                                count, sum, 0.0, old(timeGenerator.lastTsMs), clock, network, p);
              && outcome == r.outcome
              && timeGenerator.lastTsMs == r.history
              && (segmentation != null ==> Some(segmentation.entries) == r.segmentation)
    {
      outcome := RecordEvent(key, segmentation, count, sum, 0.0, clock, network, p);
    }

    /** `sendUserData(data, customData)`. */
    method SendUserData(data: Option<map<string, string>>, customData: Option<map<string, string>>,
                        clock: Clock, network: WireRequest -> NetworkResult, p: Services) returns (outcome: SendOutcome)
      requires Valid() && ready
      modifies userData, timeGenerator
      ensures Valid()
      ensures var r := UserSendOf(Configured(), old(userData.State()), data, customData, old(timeGenerator.lastTsMs), clock, network, p);
              outcome == r.outcome && userData.State() == r.profile && timeGenerator.lastTsMs == r.history
    {
      userData.SetData(data, p);
      if customData.Some? {
        userData.SetCustomData(customData.value);
      }
      var fragment := userData.GetDataForRequest(p);
      var requestData := consumer.PrepareRequestData(fragment, TYPE_SEND_USER_DATA, appKey, deviceId, timeGenerator, clock, p);
      outcome := consumer.SendData(serverUrl + "/i?" + requestData, network, clock.millis, p);
      if !outcome.Crashed? {
        userData.Clear();
      }
    }

    /** `sendUserData(data)`: no custom data. */
    method SendUserDataOnly(data: Option<map<string, string>>, clock: Clock, network: WireRequest -> NetworkResult, p: Services)
      returns (outcome: SendOutcome)
      requires Valid() && ready
      modifies userData, timeGenerator
      ensures Valid()
      ensures var r := UserSendOf(Configured(), old(userData.State()), data, None, old(timeGenerator.lastTsMs), clock, network, p);
              outcome == r.outcome && userData.State() == r.profile && timeGenerator.lastTsMs == r.history
    {
      outcome := SendUserData(data, None, clock, network, p);
    }

    /** `registerSuperProperties`: each property is put into the map, over
        an earlier value for the same name; a null map throws. */
    method RegisterSuperProperties(properties: Option<map<string, Json.Value>>) returns (fault: Option<RuntimeFault>)
      requires Valid() && ready
      modifies this
      ensures Valid() && ready
      ensures fault == if properties.None? then Some(NullPointer) else None
      ensures superProperties == if properties.Some? then old(superProperties) + properties.value else old(superProperties)
      ensures serverUrl == old(serverUrl) && appKey == old(appKey) && deviceId == old(deviceId)
      ensures consumerType == old(consumerType) && consumer == old(consumer)
    {
      if properties.None? {
        return Some(NullPointer);
      }
      superProperties := PutAll(superProperties, properties.value);
      fault := None;
    }

    /** `clearSuperProperties`. */
    method ClearSuperProperties()
      requires Valid() && ready
      modifies this
      ensures Valid() && ready
      ensures superProperties == map[]
      ensures serverUrl == old(serverUrl) && appKey == old(appKey) && deviceId == old(deviceId)
      ensures consumerType == old(consumerType) && consumer == old(consumer)
    {
      superProperties := map[];
    }
  }
}
