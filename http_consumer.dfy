/** Request assembly and the two rules of `HttpConsumer.sendData` that do
    not depend on the network: which configured headers are attached and
    which response statuses are failures.  The hex encoding of the SHA-1
    checksum is modelled on an array, as the source fills a `char[]`. */
module HttpConsumer {
  import opened Wrappers
  import opened Platform
  import opened JavaText
  import opened Config
  import opened TimeUniques
  import opened CommonUtil
  import UserProfile

  /** `hexArray`: the upper-case digits the encoder indexes. */
  const HEX_ARRAY: string := "0123456789ABCDEF"
  // ---------------------------------------------------------------------
  // bytesToHex

  /** `v >>> 4` and `v & 0x0F` for a byte value `v`. */
  function High(b: byte): int { b as int / 16 }
  function Low(b: byte): int { b as int % 16 }

  /** The hex text of a byte string: two lower-case digits per byte, high
      nibble first. */
  function HexOf(bytes: seq<byte>): (s: string)
    ensures |s| == 2 * |bytes|
  {
    if |bytes| == 0 then []
    else [HexDigit(High(bytes[0])), HexDigit(Low(bytes[0]))] + HexOf(bytes[1..])
  }

  /** The nibble that character `i` of the hex text stands for. */
  function NibbleAt(bytes: seq<byte>, i: int): int
    requires 0 <= i < 2 * |bytes|
  {
    if i % 2 == 0 then High(bytes[i / 2]) else Low(bytes[i / 2])
  }

  /** Character 2j of the hex text is the high nibble of byte j and
      character 2j+1 its low nibble. */
  lemma {:induction false} HexOfAt(bytes: seq<byte>, i: int)
    requires 0 <= i < 2 * |bytes|
    ensures HexOf(bytes)[i] == HexDigit(NibbleAt(bytes, i))
    decreases i
  {
    var head := [HexDigit(High(bytes[0])), HexDigit(Low(bytes[0]))];
    assert HexOf(bytes) == head + HexOf(bytes[1..]);
    if i < 2 {
      assert HexOf(bytes)[i] == head[i];
    } else {
      assert HexOf(bytes)[i] == HexOf(bytes[1..])[i - 2];
      HexOfAt(bytes[1..], i - 2);
      HalfStep(i);
      assert bytes[1..][(i - 2) / 2] == bytes[i / 2];
    }
  }

  /** Two characters on is one byte on, at the same nibble. */
  lemma HalfStep(i: int)
    requires i >= 2
    ensures (i - 2) / 2 == i / 2 - 1 && (i - 2) % 2 == i % 2
  {
  }

  /** The hex text uses only the digits 0-9 and a-f. */
  lemma HexAlphabet(bytes: seq<byte>)
    ensures forall i :: 0 <= i < |HexOf(bytes)| ==> IsLowerHex(HexOf(bytes)[i])
  {
    forall i | 0 <= i < |HexOf(bytes)|
      ensures IsLowerHex(HexOf(bytes)[i])
    {
      HexOfAt(bytes, i);
    }
  }

  /** Reading hex text back into bytes: `None` on an odd length or a
      character that is not a lower-case hex digit. */
  function UnHex(s: string): Option<seq<byte>>
    decreases |s|
  {
    if |s| == 0 then Some([])
    else if |s| == 1 then None
    else
      var hi, lo, rest := DigitValue(s[0]), DigitValue(s[1]), UnHex(s[2..]);
      if hi.Some? && lo.Some? && rest.Some? && 0 <= hi.value * 16 + lo.value < 256 then
        Some([(hi.value * 16 + lo.value) as byte] + rest.value)
      else None
  }

  /** Hex text read back gives the bytes it was made of. */
  lemma {:induction false} HexRoundTrip(bytes: seq<byte>)
    ensures UnHex(HexOf(bytes)) == Some(bytes)
    decreases |bytes|
  {
    if |bytes| > 0 {
      var b := bytes[0];
      var rest := HexOf(bytes[1..]);
      var s := [HexDigit(High(b)), HexDigit(Low(b))] + rest;
      assert s == HexOf(bytes);
      assert s[0] == HexDigit(High(b)) && s[1] == HexDigit(Low(b)) && s[2..] == rest;
      DigitRoundTrip(High(b));
      DigitRoundTrip(Low(b));
      HexRoundTrip(bytes[1..]);
      assert High(b) * 16 + Low(b) == b as int;
      assert bytes == [b] + bytes[1..];
    }
  }

  /** Different digests give different checksums. */
  lemma HexOfInjective(a: seq<byte>, b: seq<byte>)
    requires HexOf(a) == HexOf(b)
    ensures a == b
  {
    HexRoundTrip(a);
    HexRoundTrip(b);
  }

  /** Lowering an upper-case digit of `hexArray` gives the matching digit. */
  lemma LowerHexArray(n: int)
    requires 0 <= n < 16
    ensures LowerChar(HEX_ARRAY[n]) == HexDigit(n)
  {
  }

  /** `chars` holds the `hexArray` digits of the nibbles of `bytes`, high first. */
  predicate NibbleChars(chars: seq<char>, bytes: seq<byte>)
  {
    |chars| == 2 * |bytes|
    && forall k :: 0 <= k < |bytes| ==> chars[2 * k] == HEX_ARRAY[High(bytes[k])] && chars[2 * k + 1] == HEX_ARRAY[Low(bytes[k])]
  }

  /** Lowering the `hexArray` digits of the nibbles gives the hex text. */
  lemma LoweredNibbles(chars: seq<char>, bytes: seq<byte>)
    requires NibbleChars(chars, bytes)
    ensures ToLowerCase(chars) == HexOf(bytes)
  {
    var s := ToLowerCase(chars);
    var expected := HexOf(bytes);
    forall i | 0 <= i < |s|
      ensures s[i] == expected[i]
    {
      var n := NibbleAt(bytes, i);
      assert chars[i] == HEX_ARRAY[n] by {
        var k := i / 2;
        assert i == 2 * k || i == 2 * k + 1;
      }
      LowerHexArray(n);
      HexOfAt(bytes, i);
    }
  }

  /** `bytesToHex`: each byte's high and low nibble index `hexArray`, and
      the whole text is lowered. */
  method BytesToHex(bytes: array<byte>) returns (s: string)
    ensures s == HexOf(bytes[..])
  {
    var hexChars := new char[bytes.Length * 2];
    for j := 0 to bytes.Length
      invariant forall k :: 0 <= k < j ==>
                  hexChars[2 * k] == HEX_ARRAY[High(bytes[k])] && hexChars[2 * k + 1] == HEX_ARRAY[Low(bytes[k])]
    {
      var v := bytes[j] as int;
      hexChars[j * 2] := HEX_ARRAY[v / 16];
      hexChars[j * 2 + 1] := HEX_ARRAY[v % 16];
    }
    assert NibbleChars(hexChars[..], bytes[..]);
    LoweredNibbles(hexChars[..], bytes[..]);
    s := ToLowerCase(hexChars[..]);
  }

  /** `sha1Hash`: the hex text of the SHA-1 digest of the request text. */
  method Sha1Hash(toHash: string, p: Services) returns (hash: string)
    ensures hash == HexOf(p.sha1(toHash))
  {
    var digest := p.sha1(toHash);
    var bytes := new byte[|digest|](i requires 0 <= i < |digest| => digest[i]);
    assert bytes[..] == digest;
    hash := BytesToHex(bytes);
  }

  // ---------------------------------------------------------------------
  // prepareRequestData

  /** The text of the first statement of `prepareRequestData`: the app
      key, the time fields and the SDK identity. */
  function BaseText(appKey: string, timestamp: int, hour: int, dow: int, tz: int): string
  {
    "app_key=" + appKey + "&timestamp=" + Dec(timestamp) + "&hour=" + Dec(hour)
    + "&dow=" + Dec(dow) + "&tz=" + Dec(tz) + "&sdk_version=" + SDK_VERSION + "&sdk_name=" + SDK_NAME
  }

  /** The request text before the checksum: the time fields, the SDK
      identity, the payload by request type and the device id, joined in
      the order `prepareRequestData` appends them. */
  function RequestPrefix(appKey: string, timestamp: int, hour: int, dow: int, tz: int,
                         deviceId: string, data: string, requestType: int, p: Services): string
  {
    var requestData := BaseText(appKey, timestamp, hour, dow, tz);
    var requestData := if requestType == TYPE_SEND_EVENT then requestData + ("&events=" + p.urlEncode(data)) else requestData;
    var requestData := if requestType == TYPE_SEND_USER_DATA then requestData + data else requestData;
    requestData + ("&device_id=" + deviceId)
  }

  /** The checksum parameter over exactly the text before it. */
  function Signed(prefix: string, p: Services): string
  {
    prefix + "&checksum=" + HexOf(p.sha1(prefix))
  }

  /** The request `prepareRequestData` builds, with the time fields of one
      clock reading and the timestamp the generator issues. */
  function Request(appKey: string, deviceId: string, timestamp: int, clock: Clock,
                   data: string, requestType: int, p: Services): string
  {
    Signed(RequestPrefix(appKey, timestamp, clock.hourOfDay, CurrentDayOfWeek(clock.calendarDayOfWeek),
                         GetTimezoneOffset(clock.zoneOffsetMs), deviceId, data, requestType, p), p)
  }

  /** The checksum is the last 40 characters, after "&checksum=", and is the
      hash of everything before that: cutting it off and hashing again
      reproduces it. */
  lemma ChecksumCoversPrefix(prefix: string, p: Services)
    requires p.Valid()
    ensures var r := Signed(prefix, p);
            && |r| == |prefix| + 50
            && r[..|r| - 50] == prefix
            && r[|r| - 50..|r| - 40] == "&checksum="
            && r[|r| - 40..] == HexOf(p.sha1(r[..|r| - 50]))
            && forall i :: |r| - 40 <= i < |r| ==> IsLowerHex(r[i])
  {
    var h := HexOf(p.sha1(prefix));
    var r := Signed(prefix, p);
    assert |h| == 40;
    assert r == prefix + ("&checksum=" + h);
    assert r[..|r| - 50] == prefix;
    assert r[|r| - 40..] == h;
    HexAlphabet(p.sha1(prefix));
  }

  /** The literal text of `prepareRequestData` holds no fragment mark '#'. */
  lemma TagsAvoidMark()
    ensures '#' !in "app_key=" && '#' !in "&timestamp=" && '#' !in "&hour=" && '#' !in "&dow="
    ensures '#' !in "&tz=" && '#' !in "&sdk_version=" && '#' !in "&sdk_name="
    ensures '#' !in SDK_VERSION && '#' !in SDK_NAME
    ensures '#' !in "&events=" && '#' !in "&device_id=" && '#' !in "&checksum="
  {
  }

  /** The common text holds no '#', given an app key without one. */
  lemma BaseTextAvoidsMark(appKey: string, timestamp: int, hour: int, dow: int, tz: int)
    requires '#' !in appKey
    ensures '#' !in BaseText(appKey, timestamp, hour, dow, tz)
  {
    TagsAvoidMark();
    DecAvoids(timestamp, '#');
    DecAvoids(hour, '#');
    DecAvoids(dow, '#');
    DecAvoids(tz, '#');
  }

  /** A request holds no '#', so a URL reader that ends the query at a
      fragment mark reads all of it: the app key and device id hold none,
      URL encoding escapes it, and a user-data fragment holds none. */
  lemma RequestAvoidsMark(appKey: string, deviceId: string, timestamp: int, clock: Clock,
                          data: string, requestType: int, p: Services)
    requires p.Valid() && '#' !in appKey && '#' !in deviceId
    requires requestType == TYPE_SEND_USER_DATA ==> '#' !in data
    ensures '#' !in Request(appKey, deviceId, timestamp, clock, data, requestType, p)
  {
    var prefix := RequestPrefix(appKey, timestamp, clock.hourOfDay, CurrentDayOfWeek(clock.calendarDayOfWeek),
                                GetTimezoneOffset(clock.zoneOffsetMs), deviceId, data, requestType, p);
    TagsAvoidMark();
    BaseTextAvoidsMark(appKey, timestamp, clock.hourOfDay, CurrentDayOfWeek(clock.calendarDayOfWeek), GetTimezoneOffset(clock.zoneOffsetMs));
    assert '#' !in p.urlEncode(data);
    assert '#' !in prefix;
    HexAlphabet(p.sha1(prefix));
    assert '#' !in HexOf(p.sha1(prefix));
  }

  // ---------------------------------------------------------------------
  // The request as a query

  /** Appending `"&" + name + "="` and a value adds one pair. */
  lemma AddField(pieces: seq<string>, name: string, value: string)
    requires |pieces| > 0
    ensures Join(pieces, '&') + ("&" + name + "=") + value == Join(pieces + [UserProfile.QueryPair(name, value)], '&')
  {
    JoinAppend(pieces, UserProfile.QueryPair(name, value), '&');
    TagThenValue(Join(pieces, '&'), name, value);
  }

  lemma TagThenValue(j: string, name: string, value: string)
    ensures j + ("&" + name + "=") + value == j + ['&'] + UserProfile.QueryPair(name, value)
  {
    var tag := "&" + name + "=";
    assert tag == ['&'] + (name + "=");
    assert tag + value == ['&'] + (name + "=" + value);
  }

  /** The pairs every request starts with. */
  function BaseFields(appKey: string, timestamp: int, hour: int, dow: int, tz: int): seq<string>
  {
    [UserProfile.QueryPair("app_key", appKey), UserProfile.QueryPair("timestamp", Dec(timestamp)),
     UserProfile.QueryPair("hour", Dec(hour)), UserProfile.QueryPair("dow", Dec(dow)),
     UserProfile.QueryPair("tz", Dec(tz)), UserProfile.QueryPair("sdk_version", SDK_VERSION),
     UserProfile.QueryPair("sdk_name", SDK_NAME)]
  }

  /** The time pairs read back, after their '=', as the numbers that were
      written: the issued timestamp, the hour, the day of week and the
      offset. */
  lemma TimeFieldsReadBack(appKey: string, timestamp: int, hour: int, dow: int, tz: int)
    ensures var f := BaseFields(appKey, timestamp, hour, dow, tz);
            && DecValue(f[1][IndexOf(f[1], '=') + 1..]) == timestamp
            && DecValue(f[2][IndexOf(f[2], '=') + 1..]) == hour
            && DecValue(f[3][IndexOf(f[3], '=') + 1..]) == dow
            && DecValue(f[4][IndexOf(f[4], '=') + 1..]) == tz
  {
    TimeNamesArePlain();
    UserProfile.PairSplitsAtName("timestamp", Dec(timestamp));
    UserProfile.PairSplitsAtName("hour", Dec(hour));
    UserProfile.PairSplitsAtName("dow", Dec(dow));
    UserProfile.PairSplitsAtName("tz", Dec(tz));
    DecRoundTrip(timestamp);
    DecRoundTrip(hour);
    DecRoundTrip(dow);
    DecRoundTrip(tz);
  }

  lemma TimeNamesArePlain()
    ensures '=' !in "timestamp" && '=' !in "hour" && '=' !in "dow" && '=' !in "tz"
  {
  }

  /** Each literal `"&name="` of `prepareRequestData` is the tag of its name. */
  lemma LiteralTags()
    ensures "app_key=" == "app_key" + "="
    ensures "&timestamp=" == "&" + "timestamp" + "="
    ensures "&hour=" == "&" + "hour" + "="
    ensures "&dow=" == "&" + "dow" + "="
    ensures "&tz=" == "&" + "tz" + "="
    ensures "&sdk_version=" == "&" + "sdk_version" + "="
    ensures "&sdk_name=" == "&" + "sdk_name" + "="
    ensures "&checksum=" == "&" + "checksum" + "="
  {
  }

  /** The tags `prepareRequestData` writes after the base fields. */
  lemma PayloadTags()
    ensures "&events=" == "&" + "events" + "="
    ensures "&device_id=" == "&" + "device_id" + "="
    ensures "&user_details=" == "&" + "user_details" + "="
  {
  }

  /** The time fields of a request, the first five pairs. */
  lemma TimeFieldsAreJoin(appKey: string, timestamp: int, hour: int, dow: int, tz: int)
    ensures "app_key=" + appKey + "&timestamp=" + Dec(timestamp) + "&hour=" + Dec(hour)
            + "&dow=" + Dec(dow) + "&tz=" + Dec(tz)
            == Join([UserProfile.QueryPair("app_key", appKey), UserProfile.QueryPair("timestamp", Dec(timestamp)),
                     UserProfile.QueryPair("hour", Dec(hour)), UserProfile.QueryPair("dow", Dec(dow)),
                     UserProfile.QueryPair("tz", Dec(tz))], '&')
  {
    LiteralTags();
    var s1 := [UserProfile.QueryPair("app_key", appKey)];
    ConcatAssoc("app_key", "=", appKey);
    AddField(s1, "timestamp", Dec(timestamp));
    var s2 := s1 + [UserProfile.QueryPair("timestamp", Dec(timestamp))];
    AddField(s2, "hour", Dec(hour));
    var s3 := s2 + [UserProfile.QueryPair("hour", Dec(hour))];
    AddField(s3, "dow", Dec(dow));
    var s4 := s3 + [UserProfile.QueryPair("dow", Dec(dow))];
    AddField(s4, "tz", Dec(tz));
    assert s4 + [UserProfile.QueryPair("tz", Dec(tz))]
           == [UserProfile.QueryPair("app_key", appKey), UserProfile.QueryPair("timestamp", Dec(timestamp)),
               UserProfile.QueryPair("hour", Dec(hour)), UserProfile.QueryPair("dow", Dec(dow)),
               UserProfile.QueryPair("tz", Dec(tz))];
  }

  /** The text the first statement of `prepareRequestData` builds joins the
      common pairs. */
  lemma BaseIsJoin(appKey: string, timestamp: int, hour: int, dow: int, tz: int)
    ensures BaseText(appKey, timestamp, hour, dow, tz) == Join(BaseFields(appKey, timestamp, hour, dow, tz), '&')
  {
    LiteralTags();
    var s5 := [UserProfile.QueryPair("app_key", appKey), UserProfile.QueryPair("timestamp", Dec(timestamp)),
               UserProfile.QueryPair("hour", Dec(hour)), UserProfile.QueryPair("dow", Dec(dow)),
               UserProfile.QueryPair("tz", Dec(tz))];
    TimeFieldsAreJoin(appKey, timestamp, hour, dow, tz);
    AddField(s5, "sdk_version", SDK_VERSION);
    var s6 := s5 + [UserProfile.QueryPair("sdk_version", SDK_VERSION)];
    AddField(s6, "sdk_name", SDK_NAME);
    assert s6 + [UserProfile.QueryPair("sdk_name", SDK_NAME)] == BaseFields(appKey, timestamp, hour, dow, tz);
  }

  /** `acc + (tag + value)` with `tag` the literal `"&name="`, as
      `requestData += "&events=" + ...` appends. */
  lemma AppendPair(pieces: seq<string>, tag: string, name: string, value: string)
    requires |pieces| > 0 && tag == "&" + name + "="
    ensures Join(pieces, '&') + (tag + value) == Join(pieces + [UserProfile.QueryPair(name, value)], '&')
  {
    AddField(pieces, name, value);
    ConcatAssoc(Join(pieces, '&'), tag, value);
  }

  predicate SeparatorFree(pairs: seq<string>)
  {
    forall i :: 0 <= i < |pairs| ==> '&' !in pairs[i]
  }

  /** A pair holds the separator only if its name or value does. */
  lemma PairIsSeparatorFree(name: string, value: string)
    requires '&' !in name && '&' !in value
    ensures '&' !in UserProfile.QueryPair(name, value)
  {
  }

  lemma DecIsSeparatorFree(n: int)
    ensures '&' !in Dec(n)
  {
  }

  /** No common pair holds the separator, given an app key without one. */
  lemma BaseIsSeparatorFree(appKey: string, timestamp: int, hour: int, dow: int, tz: int)
    requires '&' !in appKey
    ensures SeparatorFree(BaseFields(appKey, timestamp, hour, dow, tz))
  {
    var base := BaseFields(appKey, timestamp, hour, dow, tz);
    forall i | 0 <= i < |base|
      ensures '&' !in base[i]
    {
      if i == 0 { PairIsSeparatorFree("app_key", appKey); }
      else if i == 1 { DecIsSeparatorFree(timestamp); PairIsSeparatorFree("timestamp", Dec(timestamp)); }
      else if i == 2 { DecIsSeparatorFree(hour); PairIsSeparatorFree("hour", Dec(hour)); }
      else if i == 3 { DecIsSeparatorFree(dow); PairIsSeparatorFree("dow", Dec(dow)); }
      else if i == 4 { DecIsSeparatorFree(tz); PairIsSeparatorFree("tz", Dec(tz)); }
      else if i == 5 { PairIsSeparatorFree("sdk_version", SDK_VERSION); }
      else { PairIsSeparatorFree("sdk_name", SDK_NAME); }
    }
  }

  /** Nor does the checksum pair. */
  lemma ChecksumIsSeparatorFree(digest: seq<byte>)
    ensures '&' !in UserProfile.QueryPair("checksum", HexOf(digest))
  {
    HexAlphabet(digest);
  }

  /** The pairs of an event request: the common ones, the URL-encoded
      events, the device id and the checksum. */
  function EventPairs(appKey: string, timestamp: int, hour: int, dow: int, tz: int,
                      deviceId: string, data: string, p: Services): seq<string>
  {
    BaseFields(appKey, timestamp, hour, dow, tz)
      + [UserProfile.QueryPair("events", p.urlEncode(data)), UserProfile.QueryPair("device_id", deviceId)]
  }

  /** The checksum is one more pair. */
  lemma SignedIsJoin(pairs: seq<string>, p: Services)
    requires |pairs| > 0
    ensures var prefix := Join(pairs, '&');
            Signed(prefix, p) == Join(pairs + [UserProfile.QueryPair("checksum", HexOf(p.sha1(prefix)))], '&')
  {
    var prefix := Join(pairs, '&');
    LiteralTags();
    AddField(pairs, "checksum", HexOf(p.sha1(prefix)));
  }

  /** Two runs of pairs without the separator make one. */
  lemma SeparatorFreeAppend(a: seq<string>, b: seq<string>)
    requires SeparatorFree(a) && SeparatorFree(b)
    ensures SeparatorFree(a + b)
  {
    forall i | 0 <= i < |a + b|
      ensures '&' !in (a + b)[i]
    {
      if i >= |a| {
        assert (a + b)[i] == b[i - |a|];
      }
    }
  }

  /** A signed request whose pairs hold no separator splits back into
      those pairs and the checksum pair. */
  lemma SignedReadsBack(pairs: seq<string>, p: Services)
    requires |pairs| > 0 && SeparatorFree(pairs)
    ensures var prefix := Join(pairs, '&');
            Pieces(Signed(prefix, p), '&') == pairs + [UserProfile.QueryPair("checksum", HexOf(p.sha1(prefix)))]
  {
    var prefix := Join(pairs, '&');
    var checksum := [UserProfile.QueryPair("checksum", HexOf(p.sha1(prefix)))];
    SignedIsJoin(pairs, p);
    ChecksumIsSeparatorFree(p.sha1(prefix));
    SeparatorFreeAppend(pairs, checksum);
    PiecesOfJoin(pairs + checksum, '&');
  }

  /** The text before the checksum of an event request joins its pairs. */
  lemma EventPrefixIsJoin(appKey: string, timestamp: int, hour: int, dow: int, tz: int,
                          deviceId: string, data: string, p: Services)
    ensures RequestPrefix(appKey, timestamp, hour, dow, tz, deviceId, data, TYPE_SEND_EVENT, p)
            == Join(EventPairs(appKey, timestamp, hour, dow, tz, deviceId, data, p), '&')
  {
    var base := BaseFields(appKey, timestamp, hour, dow, tz);
    BaseIsJoin(appKey, timestamp, hour, dow, tz);
    PayloadTags();
    var enc := p.urlEncode(data);
    AppendPair(base, "&events=", "events", enc);
    var withEvents := base + [UserProfile.QueryPair("events", enc)];
    AppendPair(withEvents, "&device_id=", "device_id", deviceId);
    assert withEvents + [UserProfile.QueryPair("device_id", deviceId)] == EventPairs(appKey, timestamp, hour, dow, tz, deviceId, data, p);
  }

  /** No pair of an event request holds the separator. */
  lemma EventPairsAreSeparatorFree(appKey: string, timestamp: int, hour: int, dow: int, tz: int,
                                   deviceId: string, data: string, p: Services)
    requires p.Valid() && '&' !in appKey && '&' !in deviceId
    ensures SeparatorFree(EventPairs(appKey, timestamp, hour, dow, tz, deviceId, data, p))
  {
    var tail := [UserProfile.QueryPair("events", p.urlEncode(data)), UserProfile.QueryPair("device_id", deviceId)];
    BaseIsSeparatorFree(appKey, timestamp, hour, dow, tz);
    PairIsSeparatorFree("events", p.urlEncode(data));
    PairIsSeparatorFree("device_id", deviceId);
    assert SeparatorFree(tail);
    SeparatorFreeAppend(BaseFields(appKey, timestamp, hour, dow, tz), tail);
  }

  /** An event request read back as a query: its pairs, in the order
      `prepareRequestData` appends them, end with the checksum. */
  lemma EventRequestPairs(appKey: string, timestamp: int, hour: int, dow: int, tz: int,
                          deviceId: string, data: string, p: Services)
    requires p.Valid() && '&' !in appKey && '&' !in deviceId
    ensures var prefix := RequestPrefix(appKey, timestamp, hour, dow, tz, deviceId, data, TYPE_SEND_EVENT, p);
            Pieces(Signed(prefix, p), '&')
              == EventPairs(appKey, timestamp, hour, dow, tz, deviceId, data, p) + [UserProfile.QueryPair("checksum", HexOf(p.sha1(prefix)))]
  {
    EventPrefixIsJoin(appKey, timestamp, hour, dow, tz, deviceId, data, p);
    EventPairsAreSeparatorFree(appKey, timestamp, hour, dow, tz, deviceId, data, p);
    SignedReadsBack(EventPairs(appKey, timestamp, hour, dow, tz, deviceId, data, p), p);
  }

  /** The pairs of a user-data request with non-empty encoded profile
      JSON `details`: the common ones, the details, the picture path when
      there is one, and the device id. */
  function UserPairs(appKey: string, timestamp: int, hour: int, dow: int, tz: int,
                     deviceId: string, details: string, picturePath: Option<string>, p: Services): seq<string>
  {
    BaseFields(appKey, timestamp, hour, dow, tz)
      + [UserProfile.QueryPair("user_details", details)]
      + (if picturePath.Some? then [UserProfile.QueryPair(UserProfile.PICTURE_PATH_KEY, p.urlEncode(picturePath.value))] else [])
      + [UserProfile.QueryPair("device_id", deviceId)]
  }

  /** The user-data fragment appends the details pair and, when there is
      one, the picture path pair. */
  lemma DetailsExtendJoin(pieces: seq<string>, details: string, picturePath: Option<string>, p: Services)
    requires |pieces| > 0 && details != ""
    ensures Join(pieces, '&') + UserProfile.DetailsFragment(details, picturePath, p)
            == Join(pieces + [UserProfile.QueryPair("user_details", details)]
                    + (if picturePath.Some? then [UserProfile.QueryPair(UserProfile.PICTURE_PATH_KEY, p.urlEncode(picturePath.value))] else []), '&')
  {
    PayloadTags();
    AppendPair(pieces, "&user_details=", "user_details", details);
    var withDetails := pieces + [UserProfile.QueryPair("user_details", details)];
    if picturePath.Some? {
      PictureExtendJoin(pieces, withDetails, "&user_details=" + details, picturePath.value, p);
    } else {
      assert withDetails + [] == withDetails;
    }
  }

  lemma PictureExtendJoin(pieces: seq<string>, withDetails: seq<string>, tagged: string, path: string, p: Services)
    requires |pieces| > 0 && |withDetails| > 0 && Join(pieces, '&') + tagged == Join(withDetails, '&')
    ensures Join(pieces, '&') + (tagged + UserProfile.PicturePathParam(path, p))
            == Join(withDetails + [UserProfile.QueryPair(UserProfile.PICTURE_PATH_KEY, p.urlEncode(path))], '&')
  {
    ConcatAssoc(Join(pieces, '&'), tagged, UserProfile.PicturePathParam(path, p));
    AppendPair(withDetails, "&" + UserProfile.PICTURE_PATH_KEY + "=", UserProfile.PICTURE_PATH_KEY, p.urlEncode(path));
  }

  /** The text before the checksum of a user-data request joins its pairs. */
  lemma UserPrefixIsJoin(appKey: string, timestamp: int, hour: int, dow: int, tz: int,
                         deviceId: string, details: string, picturePath: Option<string>, p: Services)
    requires details != ""
    ensures RequestPrefix(appKey, timestamp, hour, dow, tz, deviceId, UserProfile.DetailsFragment(details, picturePath, p), TYPE_SEND_USER_DATA, p)
            == Join(UserPairs(appKey, timestamp, hour, dow, tz, deviceId, details, picturePath, p), '&')
  {
    var base := BaseFields(appKey, timestamp, hour, dow, tz);
    BaseIsJoin(appKey, timestamp, hour, dow, tz);
    DetailsExtendJoin(base, details, picturePath, p);
    var beforeDevice := base + [UserProfile.QueryPair("user_details", details)]
      + (if picturePath.Some? then [UserProfile.QueryPair(UserProfile.PICTURE_PATH_KEY, p.urlEncode(picturePath.value))] else []);
    PayloadTags();
    AppendPair(beforeDevice, "&device_id=", "device_id", deviceId);
  }

  /** No pair of a user-data request holds the separator. */
  lemma UserPairsAreSeparatorFree(appKey: string, timestamp: int, hour: int, dow: int, tz: int,
                                  deviceId: string, details: string, picturePath: Option<string>, p: Services)
    requires p.Valid() && '&' !in appKey && '&' !in deviceId && '&' !in details
    ensures SeparatorFree(UserPairs(appKey, timestamp, hour, dow, tz, deviceId, details, picturePath, p))
  {
    var base := BaseFields(appKey, timestamp, hour, dow, tz);
    var detailsPair := [UserProfile.QueryPair("user_details", details)];
    var picture := if picturePath.Some? then [UserProfile.QueryPair(UserProfile.PICTURE_PATH_KEY, p.urlEncode(picturePath.value))] else [];
    var device := [UserProfile.QueryPair("device_id", deviceId)];
    BaseIsSeparatorFree(appKey, timestamp, hour, dow, tz);
    PairIsSeparatorFree("user_details", details);
    assert SeparatorFree(detailsPair);
    SeparatorFreeAppend(base, detailsPair);
    if picturePath.Some? {
      PairIsSeparatorFree(UserProfile.PICTURE_PATH_KEY, p.urlEncode(picturePath.value));
    }
    assert SeparatorFree(picture);
    SeparatorFreeAppend(base + detailsPair, picture);
    PairIsSeparatorFree("device_id", deviceId);
    assert SeparatorFree(device);
    SeparatorFreeAppend(base + detailsPair + picture, device);
  }

  /** A user-data request read back as a query. */
  lemma UserRequestPairs(appKey: string, timestamp: int, hour: int, dow: int, tz: int,
                         deviceId: string, details: string, picturePath: Option<string>, p: Services)
    requires p.Valid() && '&' !in appKey && '&' !in deviceId && '&' !in details
    requires details != ""
    ensures var prefix := RequestPrefix(appKey, timestamp, hour, dow, tz, deviceId, UserProfile.DetailsFragment(details, picturePath, p), TYPE_SEND_USER_DATA, p);
            Pieces(Signed(prefix, p), '&')
              == UserPairs(appKey, timestamp, hour, dow, tz, deviceId, details, picturePath, p) + [UserProfile.QueryPair("checksum", HexOf(p.sha1(prefix)))]
  {
    UserPrefixIsJoin(appKey, timestamp, hour, dow, tz, deviceId, details, picturePath, p);
    UserPairsAreSeparatorFree(appKey, timestamp, hour, dow, tz, deviceId, details, picturePath, p);
    SignedReadsBack(UserPairs(appKey, timestamp, hour, dow, tz, deviceId, details, picturePath, p), p);
  }

  /** The common pairs are pairs the picture-path scan steps over. */
  /** No name `prepareRequestData` writes holds a '=' or is the picture path key. */
  lemma BaseNamesArePlain()
    ensures UserProfile.PlainName("app_key") && UserProfile.PlainName("timestamp")
    ensures UserProfile.PlainName("hour") && UserProfile.PlainName("dow") && UserProfile.PlainName("tz")
    ensures UserProfile.PlainName("sdk_version") && UserProfile.PlainName("sdk_name")
  {
  }

  lemma OtherNamesArePlain()
    ensures UserProfile.PlainName("events") && UserProfile.PlainName("device_id")
    ensures UserProfile.PlainName("user_details") && UserProfile.PlainName("checksum")
  {
  }

  lemma BaseAreOtherPairs(appKey: string, timestamp: int, hour: int, dow: int, tz: int)
    ensures var base := BaseFields(appKey, timestamp, hour, dow, tz);
            forall i :: 0 <= i < |base| ==> UserProfile.OtherPair(base[i])
  {
    BaseNamesArePlain();
    var base := BaseFields(appKey, timestamp, hour, dow, tz);
    forall i | 0 <= i < |base|
      ensures UserProfile.OtherPair(base[i])
    {
      if i == 0 { UserProfile.OtherPairOf("app_key", appKey); }
      else if i == 1 { UserProfile.OtherPairOf("timestamp", Dec(timestamp)); }
      else if i == 2 { UserProfile.OtherPairOf("hour", Dec(hour)); }
      else if i == 3 { UserProfile.OtherPairOf("dow", Dec(dow)); }
      else if i == 4 { UserProfile.OtherPairOf("tz", Dec(tz)); }
      else if i == 5 { UserProfile.OtherPairOf("sdk_version", SDK_VERSION); }
      else { UserProfile.OtherPairOf("sdk_name", SDK_NAME); }
    }
  }

  /** Every pair of an event request is one the scan steps over. */
  lemma EventPairsAreOtherPairs(appKey: string, timestamp: int, hour: int, dow: int, tz: int,
                                deviceId: string, data: string, checksum: string, p: Services)
    ensures var pairs := EventPairs(appKey, timestamp, hour, dow, tz, deviceId, data, p) + [UserProfile.QueryPair("checksum", checksum)];
            forall i :: 0 <= i < |pairs| ==> UserProfile.OtherPair(pairs[i])
  {
    BaseAreOtherPairs(appKey, timestamp, hour, dow, tz);
    OtherNamesArePlain();
    UserProfile.OtherPairOf("events", p.urlEncode(data));
    UserProfile.OtherPairOf("device_id", deviceId);
    UserProfile.OtherPairOf("checksum", checksum);
  }

  /** The pairs of a user-data request before its picture path. */
  function UserPairsBeforePicture(appKey: string, timestamp: int, hour: int, dow: int, tz: int, details: string): seq<string>
  {
    BaseFields(appKey, timestamp, hour, dow, tz) + [UserProfile.QueryPair("user_details", details)]
  }

  lemma UserPairsAroundPicture(appKey: string, timestamp: int, hour: int, dow: int, tz: int,
                               deviceId: string, details: string, path: string, checksum: string, p: Services)
    ensures UserPairs(appKey, timestamp, hour, dow, tz, deviceId, details, Some(path), p) + [UserProfile.QueryPair("checksum", checksum)]
            == UserPairsBeforePicture(appKey, timestamp, hour, dow, tz, details)
               + [UserProfile.QueryPair(UserProfile.PICTURE_PATH_KEY, p.urlEncode(path))]
               + [UserProfile.QueryPair("device_id", deviceId), UserProfile.QueryPair("checksum", checksum)]
  {
  }

  lemma BeforePictureAreOtherPairs(appKey: string, timestamp: int, hour: int, dow: int, tz: int, details: string)
    ensures var others := UserPairsBeforePicture(appKey, timestamp, hour, dow, tz, details);
            forall i :: 0 <= i < |others| ==> UserProfile.OtherPair(others[i])
  {
    BaseAreOtherPairs(appKey, timestamp, hour, dow, tz);
    OtherNamesArePlain();
    UserProfile.OtherPairOf("user_details", details);
  }

  /** The sender finds the picture path of a user-data request in it, and
      so uploads that file. */
  lemma UserRequestCarriesPicturePath(appKey: string, timestamp: int, hour: int, dow: int, tz: int,
                                      deviceId: string, details: string, path: string, url: string, p: Services)
    requires p.Valid() && '&' !in appKey && '&' !in deviceId && '&' !in details && details != ""
    requires p.urlQuery(url) == Some(Signed(RequestPrefix(appKey, timestamp, hour, dow, tz, deviceId,
                                                           UserProfile.DetailsFragment(details, Some(path), p), TYPE_SEND_USER_DATA, p), p))
    ensures UserProfile.PicturePathOf(url, p) == Success(path)
  {
    var query := p.urlQuery(url).value;
    var prefix := RequestPrefix(appKey, timestamp, hour, dow, tz, deviceId, UserProfile.DetailsFragment(details, Some(path), p), TYPE_SEND_USER_DATA, p);
    var checksum := HexOf(p.sha1(prefix));
    UserRequestPairs(appKey, timestamp, hour, dow, tz, deviceId, details, Some(path), p);
    UserPairsAroundPicture(appKey, timestamp, hour, dow, tz, deviceId, details, path, checksum, p);
    BeforePictureAreOtherPairs(appKey, timestamp, hour, dow, tz, details);
    UserProfile.FindsPicturePath(url, query, UserPairsBeforePicture(appKey, timestamp, hour, dow, tz, details), path,
                                 [UserProfile.QueryPair("device_id", deviceId), UserProfile.QueryPair("checksum", checksum)], p);
  }

  /** An event request names no picture path, so nothing is uploaded with
      it, whatever its events hold. */
  lemma EventRequestCarriesNoPicturePath(appKey: string, timestamp: int, hour: int, dow: int, tz: int,
                                         deviceId: string, data: string, url: string, p: Services)
    requires p.Valid() && '&' !in appKey && '&' !in deviceId
    requires p.urlQuery(url) == Some(Signed(RequestPrefix(appKey, timestamp, hour, dow, tz, deviceId, data, TYPE_SEND_EVENT, p), p))
    ensures UserProfile.PicturePathOf(url, p) == Success("")
  {
    var query := p.urlQuery(url).value;
    EventRequestPairs(appKey, timestamp, hour, dow, tz, deviceId, data, p);
    var prefix := RequestPrefix(appKey, timestamp, hour, dow, tz, deviceId, data, TYPE_SEND_EVENT, p);
    var checksum := HexOf(p.sha1(prefix));
    var pairs := EventPairs(appKey, timestamp, hour, dow, tz, deviceId, data, p) + [UserProfile.QueryPair("checksum", checksum)];
    EventPairsAreOtherPairs(appKey, timestamp, hour, dow, tz, deviceId, data, checksum, p);
    UserProfile.FindsNoPicturePath(url, query, pairs, p);
  }

  // ---------------------------------------------------------------------
  // prepareRequestData and the consumer object

  /** `HttpConsumerException`: the message, the URL that was sent, the
      response status and the response body. */
  datatype HttpConsumerException = HttpConsumerException(message: string, sendingData: string,
                                                         httpStatusCode: int, httpContent: string)

  /** The message `String.format` builds for a rejected response. */
  function UnexpectedResponse(code: int, content: string): string
  {
    "Unexpected response " + Dec(code) + " from countly-SDK-Java: " + content
  }

  /** The status check once the body is read: a status outside 200..299
      is an error that carries the status, the body and the request. */
  function ResponseError(code: int, content: string, data: string): (r: Option<HttpConsumerException>)
    ensures r.None? <==> 200 <= code <= 299
    ensures r.Some? ==> r.value.httpStatusCode == code && r.value.httpContent == content && r.value.sendingData == data
  {
    if code < 200 || code >= 300 then Some(HttpConsumerException(UnexpectedResponse(code, content), data, code, content))
    else None
  }

  /** One entry of the configured header map, either part possibly null. */
  datatype HeaderEntry = HeaderEntry(key: Option<string>, value: Option<string>)

  /** A request property: name and value. */
  type Header = (string, string)

  /** The filter of the header loop: key and value present, key not empty. */
  predicate Accepted(e: HeaderEntry)
  {
    e.key.Some? && e.value.Some? && e.key.value != ""
  }

  /** The headers attached for `entries`, in their iteration order. */
  function Attached(entries: seq<HeaderEntry>): (r: seq<Header>)
    ensures |r| <= |entries|
    ensures forall h :: h in r <==> HeaderEntry(Some(h.0), Some(h.1)) in entries && h.0 != ""
  {
    if |entries| == 0 then []
    else
      var last := entries[|entries| - 1];
      Attached(entries[..|entries| - 1]) + (if Accepted(last) then [(last.key.value, last.value.value)] else [])
  }

  /** Filtering keeps the order of the entries: the headers of two runs of
      entries are those of the first followed by those of the second. */
  lemma {:induction false} AttachedAppend(a: seq<HeaderEntry>, b: seq<HeaderEntry>)
    ensures Attached(a + b) == Attached(a) + Attached(b)
    decreases |b|
  {
    if |b| > 0 {
      var init := b[..|b| - 1];
      assert (a + b)[..|a + b| - 1] == a + init;
      AttachedAppend(a, init);
      var last := b[|b| - 1];
      var extra := if Accepted(last) then [(last.key.value, last.value.value)] else [];
      assert Attached(b) == Attached(init) + extra;
      assert Attached(a + b) == Attached(a) + Attached(init) + extra;
    } else {
      assert a + b == a;
    }
  }

  /** The loop over the configured headers. */
  method AddHeaders(entries: seq<HeaderEntry>) returns (added: seq<Header>)
    ensures added == Attached(entries)
  {
    added := [];
    for i := 0 to |entries|
      invariant added == Attached(entries[..i])
    {
      var key, value := entries[i].key, entries[i].value;
      assert entries[..i + 1][..i] == entries[..i];
      if key.Some? && value.Some? && key.value != "" {
        added := added + [(key.value, value.value)];
      }
    }
    assert entries[..|entries|] == entries;
  }

  /** The content type of a plain request and the prefix of the one that
      uploads a file. */
  const FORM_CONTENT_TYPE: string := "application/x-www-form-urlencoded;charset=utf8"
  const MULTIPART_CONTENT_TYPE: string := "multipart/form-data; boundary="

  /** What goes out on the connection: the URL, the content type, the
      configured headers and the file uploaded with it, if any. */
  datatype WireRequest = WireRequest(url: string, contentType: string, headers: seq<Header>, upload: Option<string>)

  /** What the connection yields: an IOException, or a status and body. */
  datatype NetworkResult = IoFailure | Answered(code: int, content: string)

  /** The checked exceptions `sendData` throws. */
  datatype SendError = IoError | Rejected(exception: HttpConsumerException)

  /** The end of one `sendData`: the URL does not parse (a
      MalformedURLException, thrown before any request); an unchecked
      exception from the picture-path scan; or a request that went out,
      with the checked exception it ended in, if any. */
  datatype SendOutcome =
    | NotAUrl
    | Crashed(fault: RuntimeFault)
    | Attempted(request: WireRequest, error: Option<SendError>)

  /** The multipart boundary: `Long.toHexString` of the clock, which
      prints a negative long as its 64-bit two's complement. */
  function Boundary(millis: int): string
  {
    ToHexString(millis % 0x1_0000_0000_0000_0000)
  }

  /** Connecting, reading the body and checking the status.  The JDK's
      `getInputStream` throws an IOException for a status of 400 or more,
      before the status check is reached. */
  function Exchange(request: WireRequest, network: WireRequest -> NetworkResult): SendOutcome
  {
    match network(request)
    case IoFailure => Attempted(request, Some(IoError))
    case Answered(code, content) =>
      if code >= 400 then Attempted(request, Some(IoError))
      else
        var rejected := ResponseError(code, content, request.url);
        Attempted(request, if rejected.Some? then Some(Rejected(rejected.value)) else None)
  }

  /** `sendData`: parse the URL, attach the headers, find the picture path
      in the query, upload that file when there is one, then exchange. */
  function SendOf(httpHeaders: Option<seq<HeaderEntry>>, data: string, network: WireRequest -> NetworkResult,
                  millis: int, p: Services): SendOutcome
  {
    if !p.urlParses(data) then NotAUrl
    else
      var headers := if httpHeaders.Some? then Attached(httpHeaders.value) else [];
      match UserProfile.PicturePathOf(data, p)
      case Failure(fault) => Crashed(fault)
      case Success(path) =>
        if path == "" then Exchange(WireRequest(data, FORM_CONTENT_TYPE, headers, None), network)
        else
          var request := WireRequest(data, MULTIPART_CONTENT_TYPE + Boundary(millis), headers, Some(path));
          if !p.isFile(path) then Attempted(request, Some(IoError)) else Exchange(request, network)
  }

  /** What a send promises: a request goes out exactly when the URL parses
      and its query scans; it carries exactly the accepted headers and
      uploads exactly the picture path named in the query; and it succeeds
      exactly when the file (if any) opens and the server answers with a
      2xx status.  A status of 400 or more ends in an IOException; any
      other status outside 2xx is a rejection carrying that status and
      body. */
  lemma SendContract(httpHeaders: Option<seq<HeaderEntry>>, data: string, network: WireRequest -> NetworkResult,
                     millis: int, p: Services)
    ensures var outcome := SendOf(httpHeaders, data, network, millis, p);
            && (outcome.Attempted? <==> p.urlParses(data) && UserProfile.PicturePathOf(data, p).Success?)
            && (outcome.Crashed? <==> p.urlParses(data) && UserProfile.PicturePathOf(data, p).Failure?)
            && (outcome.Attempted? ==>
                  var path := UserProfile.PicturePathOf(data, p).value;
                  var r := outcome.request;
                  && r.url == data
                  && (forall h :: h in r.headers <==> httpHeaders.Some? && h.0 != "" && HeaderEntry(Some(h.0), Some(h.1)) in httpHeaders.value)
                  && (r.upload.Some? <==> path != "")
                  && (r.upload.Some? ==> r.upload.value == path && r.contentType == MULTIPART_CONTENT_TYPE + Boundary(millis))
                  && (r.upload.None? ==> r.contentType == FORM_CONTENT_TYPE)
                  && (outcome.error.None? <==> (path == "" || p.isFile(path)) && network(r).Answered? && 200 <= network(r).code <= 299)
                  && ((path == "" || p.isFile(path)) && (network(r).IoFailure? || network(r).code >= 400) ==> outcome.error == Some(IoError))
                  && (outcome.error.Some? && outcome.error.value.Rejected? ==>
                        network(r).Answered? && network(r).code < 400
                        && outcome.error.value.exception.httpStatusCode == network(r).code
                        && outcome.error.value.exception.httpContent == network(r).content
                        && outcome.error.value.exception.sendingData == data))
  {
  }

  class HttpConsumer {
    /** The configured header map; null when none was given. */
    const httpHeaders: Option<seq<HeaderEntry>>

    constructor (httpHeaders: Option<seq<HeaderEntry>>)
      ensures this.httpHeaders == httpHeaders
    {
      this.httpHeaders := httpHeaders;
    }

    /** `prepareRequestData`: one timestamp from the shared generator, the
        clock's time fields, the payload for the request type, the device id
        and the checksum over all of it. */
    method PrepareRequestData(data: string, requestType: int, appKey: string, deviceId: string,
                              timeGenerator: TimeUniquesEnsurer, clock: Clock, p: Services) returns (requestData: string)
      requires timeGenerator.Valid()
      modifies timeGenerator
      ensures timeGenerator.Valid()
      ensures var step := Step(old(timeGenerator.lastTsMs), clock.millis);
              && timeGenerator.lastTsMs == step.history
              && requestData == Request(appKey, deviceId, step.ms, clock, data, requestType, p)
    {
      var timestamp := CurrentTimestampMs(timeGenerator, clock.millis);
      var prefix := "app_key=" + appKey + "&timestamp=" + Dec(timestamp) + "&hour=" + Dec(clock.hourOfDay)
                    + "&dow=" + Dec(CurrentDayOfWeek(clock.calendarDayOfWeek))
                    + "&tz=" + Dec(GetTimezoneOffset(clock.zoneOffsetMs))
                    + "&sdk_version=" + SDK_VERSION + "&sdk_name=" + SDK_NAME;
      if requestType == TYPE_SEND_EVENT {
        prefix := prefix + ("&events=" + p.urlEncode(data));
      }
      if requestType == TYPE_SEND_USER_DATA {
        prefix := prefix + data;
      }
      prefix := prefix + ("&device_id=" + deviceId);
      var hash := Sha1Hash(prefix, p);
      requestData := prefix + "&checksum=" + hash;
    }

    /** `sendData` on the URL `data`, with `network` standing for the
        connection and `millis` for the clock the boundary is made from. */
    method SendData(data: string, network: WireRequest -> NetworkResult, millis: int, p: Services)
      returns (outcome: SendOutcome)
      ensures outcome == SendOf(httpHeaders, data, network, millis, p)
    {
      if !p.urlParses(data) {
        return NotAUrl;
      }
      var headers: seq<Header> := [];
      if httpHeaders.Some? {
        headers := AddHeaders(httpHeaders.value);
      }
      var picturePath := UserProfile.GetPicturePathFromQuery(data, p);
      if picturePath.Failure? {
        return Crashed(picturePath.error);
      }
      var request := WireRequest(data, FORM_CONTENT_TYPE, headers, None);
      if picturePath.value != "" {
        request := request.(contentType := MULTIPART_CONTENT_TYPE + Boundary(millis), upload := Some(picturePath.value));
        if !p.isFile(picturePath.value) {
          return Attempted(request, Some(IoError));
        }
      }
      var answer := network(request);
      if answer.IoFailure? || answer.code >= 400 {
        return Attempted(request, Some(IoError));
      }
      if answer.code < 200 || answer.code >= 300 {
        var e := HttpConsumerException(UnexpectedResponse(answer.code, answer.content), data, answer.code, answer.content);
        outcome := Attempted(request, Some(Rejected(e)));
      } else {
        outcome := Attempted(request, None);
      }
    }
  }
}
