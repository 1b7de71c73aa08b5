/** A single custom event (`Event`): its fields, the setters, the wire JSON
    object and the equality and hash used for events. */
module Events {
  import opened Wrappers
  import Json
  import opened Platform
  import opened TimeUniques
  import opened CommonUtil

  const SEGMENTATION_KEY: string := "segmentation"
  const KEY_KEY: string := "key"
  const COUNT_KEY: string := "count"
  const SUM_KEY: string := "sum"
  const DUR_KEY: string := "dur"
  const TIMESTAMP_KEY: string := "timestamp"
  const DAY_OF_WEEK: string := "dow"
  const HOUR: string := "hour"

  /** A segmentation map: event attribute names to JSON scalars. */
  type Segmentation = map<string, Json.Value>

  /** The fields of an event at one moment.  `key` and `segmentation` are
      nullable references; `sum` is an int and `dur` a double in Java. */
  datatype EventFields = EventFields(
    key: Option<string>,
    segmentation: Option<Segmentation>,
    count: int,
    sum: int,
    dur: real,
    timestamp: int,
    hour: int,
    dow: int)

  /** The keys `toJSON` always writes (when `key` is not null). */
  const FIXED_KEYS: set<string> := {COUNT_KEY, TIMESTAMP_KEY, HOUR, DAY_OF_WEEK, SEGMENTATION_KEY, SUM_KEY}

  /** `toJSON`.  `JSONObject.put` with a null value removes the key, so a
      null `key` leaves "key" out; `dur` is written only when positive. */
  function ToJson(e: EventFields): (j: Json.Value)
    ensures j.Obj?
    ensures j.fields.Keys == FIXED_KEYS + (if e.key.Some? then {KEY_KEY} else {}) + (if e.dur > 0.0 then {DUR_KEY} else {})
    ensures e.key.Some? ==> j.fields[KEY_KEY] == Json.Str(e.key.value)
    ensures j.fields[COUNT_KEY] == Json.Int(e.count)
    ensures j.fields[TIMESTAMP_KEY] == Json.Int(e.timestamp)
    ensures j.fields[HOUR] == Json.Int(e.hour)
    ensures j.fields[DAY_OF_WEEK] == Json.Int(e.dow)
    ensures j.fields[SUM_KEY] == Json.Int(e.sum)
    ensures e.dur > 0.0 ==> j.fields[DUR_KEY] == Json.Num(e.dur)
    ensures e.segmentation.None? ==> j.fields[SEGMENTATION_KEY] == Json.Obj(map[])
    ensures e.segmentation.Some? ==> j.fields[SEGMENTATION_KEY] == Json.Obj(e.segmentation.value)
  {
    var json := if e.key.Some? then map[KEY_KEY := Json.Str(e.key.value)] else map[];
    var json := json[COUNT_KEY := Json.Int(e.count)];
    var json := json[TIMESTAMP_KEY := Json.Int(e.timestamp)];
    var json := json[HOUR := Json.Int(e.hour)];
    var json := json[DAY_OF_WEEK := Json.Int(e.dow)];
    var jobj: Segmentation := if e.segmentation.Some? then e.segmentation.value else map[];
    var json := json[SEGMENTATION_KEY := Json.Obj(jobj)];
    var json := json[SUM_KEY := Json.Int(e.sum)];
    var json := if e.dur > 0.0 then json[DUR_KEY := Json.Num(e.dur)] else json;
    Json.Obj(json)
  }

  /** Reading an event back from its JSON object.  A missing "dur" reads as
      0 and the segmentation object is always present. */
  function FromJson(j: Json.Value): Option<EventFields>
  {
    if !j.Obj? then None
    else
      var f := j.fields;
      if !(FIXED_KEYS <= f.Keys) then None
      else if !(f[COUNT_KEY].Int? && f[TIMESTAMP_KEY].Int? && f[HOUR].Int? && f[DAY_OF_WEEK].Int?
                && f[SUM_KEY].Int? && f[SEGMENTATION_KEY].Obj?) then None
      else if KEY_KEY in f && !f[KEY_KEY].Str? then None
      else if DUR_KEY in f && !f[DUR_KEY].Num? then None
      else
        Some(EventFields(
          if KEY_KEY in f then Some(f[KEY_KEY].s) else None,
          Some(f[SEGMENTATION_KEY].fields),
          f[COUNT_KEY].i, f[SUM_KEY].i,
          if DUR_KEY in f then f[DUR_KEY].r else 0.0,
          f[TIMESTAMP_KEY].i, f[HOUR].i, f[DAY_OF_WEEK].i))
  }

  /** What the wire keeps of an event: a null segmentation becomes `{}`, a
      duration that is not positive becomes 0. */
  function OnWire(e: EventFields): EventFields
  {
    e.(segmentation := Some(if e.segmentation.Some? then e.segmentation.value else map[]),
       dur := if e.dur > 0.0 then e.dur else 0.0)
  }

  lemma ToJsonRoundTrip(e: EventFields)
    ensures FromJson(ToJson(e)) == Some(OnWire(e))
  {
  }

  /** `equals`, with `o` = None for a null or non-Event argument.  Only key,
      timestamp, hour, day of week and segmentation take part. */
  predicate Equals(e: EventFields, o: Option<EventFields>)
  {
    o.Some? && e.key == o.value.key && e.timestamp == o.value.timestamp && e.hour == o.value.hour
    && e.dow == o.value.dow && e.segmentation == o.value.segmentation
  }

  /** Java's `(int)` cast of a long keeps its low 32 bits. */
  function LowBits32(x: int): bv32
  {
    (x % 0x1_0000_0000) as bv32
  }

  /** `hashCode`, given `String.hashCode` and `Map.hashCode`. */
  function HashCode(e: EventFields, stringHash: string -> bv32, mapHash: Segmentation -> bv32): bv32
  {
    HashOf(e.key, e.segmentation, e.timestamp, stringHash, mapHash)
  }

  /** The three parts `hashCode` combines by exclusive or. */
  function HashOf(key: Option<string>, segmentation: Option<Segmentation>, timestamp: int,
                  stringHash: string -> bv32, mapHash: Segmentation -> bv32): bv32
  {
    (if key.Some? then stringHash(key.value) else 1)
    ^ (if segmentation.Some? then mapHash(segmentation.value) else 1)
    ^ (if timestamp != 0 then LowBits32(timestamp) else 1)
  }

  /** Events differing only in count, sum or duration are equal. */
  lemma EqualsIgnoresCountSumDur(e: EventFields, count: int, sum: int, dur: real)
    ensures Equals(e, Some(e.(count := count, sum := sum, dur := dur)))
  {
  }

  /** `equals` is an equivalence and never holds for null. */
  lemma EqualsIsEquivalence(a: EventFields, b: EventFields, c: EventFields)
    ensures Equals(a, Some(a))
    ensures !Equals(a, None)
    ensures Equals(a, Some(b)) ==> Equals(b, Some(a))
    ensures Equals(a, Some(b)) && Equals(b, Some(c)) ==> Equals(a, Some(c))
  {
  }

  /** Equal events have equal hash codes, whatever the string and map hashes. */
  lemma EqualEventsHashAlike(a: EventFields, b: EventFields, stringHash: string -> bv32, mapHash: Segmentation -> bv32)
    requires Equals(a, Some(b))
    ensures HashCode(a, stringHash, mapHash) == HashCode(b, stringHash, mapHash)
  {
    assert a.key == b.key && a.segmentation == b.segmentation && a.timestamp == b.timestamp;
  }

  class Event {
    var key: Option<string>
    var segmentation: Option<Segmentation>
    var count: int
    var sum: int
    var dur: real
    var timestamp: int
    var hour: int
    var dow: int

    function Fields(): EventFields
      reads this
    {
      EventFields(key, segmentation, count, sum, dur, timestamp, hour, dow)
    }

    /** `new Event(key)`: the time fields come from the shared generator and
        the calendar; the other numbers keep Java's default 0. */
    constructor (key: Option<string>, timeGenerator: TimeUniquesEnsurer, clock: Clock)
      requires timeGenerator.Valid()
      modifies timeGenerator
      ensures timeGenerator.Valid()
      ensures Issued(timestamp, timeGenerator.lastTsMs) == Step(old(timeGenerator.lastTsMs), clock.millis)
      ensures Fields() == EventFields(key, None, 0, 0, 0.0, timestamp, clock.hourOfDay, CurrentDayOfWeek(clock.calendarDayOfWeek))
    {
      var ts := CurrentTimestampMs(timeGenerator, clock.millis);
      this.key := key;
      segmentation := None;
      count, sum, dur := 0, 0, 0.0;
      timestamp := ts;
      hour := clock.hourOfDay;
      dow := CurrentDayOfWeek(clock.calendarDayOfWeek);
    }

    method SetKey(key: Option<string>)
      modifies this
      ensures Fields() == old(Fields()).(key := key)
    {
      this.key := key;
    }

    method SetSegmentation(segmentation: Option<Segmentation>)
      modifies this
      ensures Fields() == old(Fields()).(segmentation := segmentation)
    {
      this.segmentation := segmentation;
    }

    method SetCount(count: int)
      modifies this
      ensures Fields() == old(Fields()).(count := count)
    {
      this.count := count;
    }

    method SetSum(sum: int)
      modifies this
      ensures Fields() == old(Fields()).(sum := sum)
    {
      this.sum := sum;
    }

    method SetDur(dur: real)
      modifies this
      ensures Fields() == old(Fields()).(dur := dur)
    {
      this.dur := dur;
    }

    method SetTimestamp(timestamp: int)
      modifies this
      ensures Fields() == old(Fields()).(timestamp := timestamp)
    {
      this.timestamp := timestamp;
    }

    method SetHour(hour: int)
      modifies this
      ensures Fields() == old(Fields()).(hour := hour)
    {
      this.hour := hour;
    }

    method SetDow(dow: int)
      modifies this
      ensures Fields() == old(Fields()).(dow := dow)
    {
      this.dow := dow;
    }
  }
}
