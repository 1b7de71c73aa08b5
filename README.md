# countly-sdk-java, modelled in Dafny

The Countly Java SDK sends two kinds of request to a Countly server. One
kind carries custom events. The other carries the user profile. Every
request is a URL query. It holds the app key, a unique millisecond
timestamp, the hour, the day of week, the time-zone offset, the SDK
identity, the payload, the device id and a SHA-1 checksum over everything
before it. This project models the core of the SDK:

- `TimeUniques`: the generator of unique timestamps (`TimeUniquesEnsurer`).
  It keeps its history of the last ten values as a class field.
- `CommonUtil`: the time fields of a request.
- `Events`: the `Event` class and its setters. Also the event's JSON
  object, its `equals` and its `hashCode`.
- `UserProfile`: the static profile of `UserData`, made into a class.
  Also `setData`, `setCustomData`, `setCustomProperty`, `clear`, the JSON
  object, the `&user_details=` fragment, and the scan of a request's query
  for the local picture path.
- `HttpConsumer`: how a request is assembled and signed (`prepareRequestData`).
  Also the hex encoding of the digest (`bytesToHex`, on an array), and
  `sendData`: the header filter, the picture-path upload and the status check.
- `Client`: the `Countly` object. It covers `init`, every `recordEvent`
  overload, both `sendUserData` overloads, `registerSuperProperties` and
  `clearSuperProperties`.

Supporting modules:

- `Wrappers`: `Option` models a nullable reference. `Result` models a
  value or an exception.
- `Json`: JSON values.
- `Config`: the SDK constants.
- `JavaText`: the few `String` operations the code relies on.
- `Platform`: the platform.

Platform services are parameters. These are URL encoding and decoding,
SHA-1, `File.isFile`, `Integer.parseInt`, JSON text, URL parsing and
`URL.getQuery`. `Services.Valid` states the four facts the proofs use:

- a digest has 20 bytes;
- decoding undoes encoding;
- encoding never yields '&' or '#';
- the empty path is not a file.

A reading of the clock and the calendar is a `Clock` value. The network
connection is a function from the outgoing request to a result.

The end-to-end lemmas of `Client` assume that the server URL "serves
queries": with "/i?" and a request text without '#' appended, it parses and
its query is that text. `JavaQuery` reads a query as `java.net.URL` does,
stopping at the fragment mark '#'. `JavaQueryServesQueries` shows that
every server URL without '?' or '#' serves queries when `getQuery` reads
queries that way. `RequestAvoidsMark` shows that a request holds no '#'
when the app key and device id hold none; `DeviceIdIsPlain` shows the
device id `init` draws holds none.

Each class method is specified against a pure function of the old state.
Examples are `Step`, `WithData`, `RecordOf`, `UserSendOf` and `SendOf`.
Lemmas about those functions state what the SDK promises:

- timestamps are never repeated;
- the checksum covers exactly the text before it;
- a signed request splits back into its pairs;
- the picture path of a user-data request is found again by the sender
  and uploaded;
- an event request never uploads anything;
- super properties override the caller's segmentation;
- a status of 400 or more ends in an IOException, as the JDK connection
  throws it from `getInputStream`; any other status outside 200..299 is an
  error carrying its status and body.

In some places the SDK's written description and its code differ. The
model follows the code:

- `recordEvent` casts the sum to `int` before it is stored
  (`Countly.java:112`). An event's JSON therefore carries 9 for a sum of
  9.99, not 9.99.
- `Event.toJSON` puts a null key, and `JSONObject.put` with a null value
  removes the entry. So "key" is absent for an event whose key is null.
  Such an event cannot come from `recordEvent`, which skips a null or
  empty key.
- `sendData` switches to a multipart upload for any non-empty picture path
  in the query. A path that is not a readable file then ends in an
  IOException; the code does not fall back to a plain request.
- `recordEvent` and `sendUserData` catch `HttpConsumerException` and
  IOException and only print them; the Java caller sees no outcome. The
  model still returns the outcome, so that the proofs can state what
  happened. An unchecked exception (a null segmentation with super
  properties, a malformed picture-path pair) escapes to the caller. In
  `sendUserData` it also skips the final `clear`.

## Model

| member | source | states |
|---|---|---|
| `TimeUniques.Min` | sdk/src/main/java/com/iboxchain/TimeUniquesEnsurer.java:23 | `Collections.min` returns an element of the list that is no larger than any other |
| `TimeUniques.Probe` | sdk/src/main/java/com/iboxchain/TimeUniquesEnsurer.java:31-33 | probing returns a value at or after the reading that is not in the history, and every value in between is in the history |
| `TimeUniques.Evict` | sdk/src/main/java/com/iboxchain/TimeUniquesEnsurer.java:34-36 | dropping the oldest entries while the list is full leaves a suffix of fewer than 10 values; exactly 9 when it was full, and the list unchanged otherwise |
| `TimeUniques.Step` | sdk/src/main/java/com/iboxchain/TimeUniquesEnsurer.java:18-39 | one call issues a value not in the history, and the new history (at most 10 values) ends with it. When the clock went back (more than 2 values, reading below their minimum), it issues the reading and the history restarts as [reading]. Otherwise it issues the first free value at or after the reading, and the history is the old one with the oldest dropped when full |
| `TimeUniques.NoResetWithShortHistory` | sdk/src/main/java/com/iboxchain/TimeUniquesEnsurer.java:22 | with 2 remembered values or fewer there is no reset, even for a reading below them all: the value is found by probing and is at least the reading |
| `TimeUniques.StepKeepsDistinct` | sdk/src/main/java/com/iboxchain/TimeUniquesEnsurer.java:18-39 | a history without repetitions stays without repetitions after a call |
| `TimeUniques.ConsecutiveCallsDiffer` | sdk/src/main/java/com/iboxchain/TimeUniquesEnsurer.java:18-39 | two calls in a row never issue the same value, whatever the readings; after a reset the second value is smaller |
| `TimeUniques.Run` | sdk/src/main/java/com/iboxchain/TimeUniquesEnsurer.java:18-39 | successive calls issue one value per clock reading |
| `TimeUniques.StepHistoryIsSuffix` | sdk/src/main/java/com/iboxchain/TimeUniquesEnsurer.java:25-37 | the new history is a suffix of the old history followed by the issued value |
| `TimeUniques.HistoryIsRecentOutput` | sdk/src/main/java/com/iboxchain/TimeUniquesEnsurer.java:11-39 | after any sequence of calls the history is made of the most recently issued values in issue order and has no repetitions |
| `TimeUniques.ProbeIsFirstFree` | sdk/src/main/java/com/iboxchain/TimeUniquesEnsurer.java:31-33 | the value the probing loop stops at is the first free value at or after the reading |
| `TimeUniques.TimeUniquesEnsurer.constructor` | sdk/src/main/java/com/iboxchain/TimeUniquesEnsurer.java:11 | the history starts empty |
| `TimeUniques.TimeUniquesEnsurer.UniqueTimestamp` | sdk/src/main/java/com/iboxchain/TimeUniquesEnsurer.java:18-39 | the issued value and the new history are exactly those of `Step`; the history stays at most 10 values without repetitions |
| `CommonUtil.JavaDiv` | sdk/src/main/java/com/iboxchain/utils/CommonUtil.java:19 | Java's int `/` truncates toward zero: the quotient brackets the dividend from below for a non-negative one and from above for a negative one |
| `CommonUtil.GetTimezoneOffset` | sdk/src/main/java/com/iboxchain/utils/CommonUtil.java:18-20 | the offset in whole minutes is truncated toward zero, has the sign of the millisecond offset, and is exact for a whole number of minutes |
| `CommonUtil.CurrentTimestampMs` | sdk/src/main/java/com/iboxchain/utils/CommonUtil.java:22-24 | one call on the shared generator: its value and new history are those of `Step` |
| `CommonUtil.CurrentDayOfWeek` | sdk/src/main/java/com/iboxchain/utils/CommonUtil.java:30-47 | the day lies in 0..6; Sunday..Saturday map to 0..6; any other calendar value gives 0 |
| `Events.ToJson` | sdk/src/main/java/com/iboxchain/Event.java:129-159 | the object holds exactly count, timestamp, hour, dow, segmentation and sum, plus "key" when the key is not null and "dur" when the duration is positive. Each holds its field; a null segmentation is written as `{}` |
| `Events.ToJsonRoundTrip` | sdk/src/main/java/com/iboxchain/Event.java:129-159 | reading the JSON back gives the event, except that a null segmentation comes back as `{}` and a non-positive duration as 0 |
| `Events.EqualsIsEquivalence` | sdk/src/main/java/com/iboxchain/Event.java:162-174 | `equals` is reflexive, symmetric and transitive, and false for null |
| `Events.EqualsIgnoresCountSumDur` | sdk/src/main/java/com/iboxchain/Event.java:169-173 | events differing only in count, sum or duration are equal |
| `Events.EqualEventsHashAlike` | sdk/src/main/java/com/iboxchain/Event.java:176-181 | equal events have equal hash codes, for any string and map hash |
| `Events.Event.constructor` | sdk/src/main/java/com/iboxchain/Event.java:117-122 | the new event holds the key, a fresh timestamp from the generator, the clock's hour and day of week, no segmentation, and 0 for the other numbers |
| `Events.Event.SetKey` | sdk/src/main/java/com/iboxchain/Event.java:57-59 | only the key changes |
| `Events.Event.SetSegmentation` | sdk/src/main/java/com/iboxchain/Event.java:65-67 | only the segmentation changes |
| `Events.Event.SetCount` | sdk/src/main/java/com/iboxchain/Event.java:73-75 | only the count changes |
| `Events.Event.SetSum` | sdk/src/main/java/com/iboxchain/Event.java:81-83 | only the sum changes |
| `Events.Event.SetDur` | sdk/src/main/java/com/iboxchain/Event.java:89-91 | only the duration changes |
| `Events.Event.SetTimestamp` | sdk/src/main/java/com/iboxchain/Event.java:97-99 | only the timestamp changes |
| `Events.Event.SetHour` | sdk/src/main/java/com/iboxchain/Event.java:105-107 | only the hour changes |
| `Events.Event.SetDow` | sdk/src/main/java/com/iboxchain/Event.java:113-115 | only the day of week changes |
| `UserProfile.WithData` | sdk/src/main/java/com/iboxchain/UserData.java:117-155 | a null map changes nothing. Otherwise each field whose key the map holds takes the map's value and every other field is kept. `byear` is the parsed year, or 0 when it does not parse. The picture path is kept only while it names a regular file, a check that also applies to the old path. The profile becomes unsynced and the custom maps are untouched |
| `UserProfile.KeepIfFile` | sdk/src/main/java/com/iboxchain/UserData.java:135-140 | a path is kept exactly when it names a regular file; an absent path stays absent |
| `UserProfile.TakeYear` | sdk/src/main/java/com/iboxchain/UserData.java:147-153 | `byear` is parsed from the map, 0 on a NumberFormatException, and kept when the map has no such key |
| `UserProfile.SetDataFields` | sdk/src/main/java/com/iboxchain/UserData.java:121-154 | taking the fields one statement at a time gives the profile `WithData` describes |
| `UserProfile.WithCustomData` | sdk/src/main/java/com/iboxchain/UserData.java:162-167 | the custom map (a null one read as empty) gains every entry of the data, which overrides the old values; the other entries are kept; the profile becomes unsynced and nothing else changes |
| `UserProfile.WithCustomProperty` | sdk/src/main/java/com/iboxchain/UserData.java:175-180 | the custom map gains the one entry, over an old value; the other entries are kept; the profile becomes unsynced and nothing else changes |
| `UserProfile.ToJson` | sdk/src/main/java/com/iboxchain/UserData.java:212-274 | the object has only the profile keys; a key is present exactly when its field has a value; "custom" is always present |
| `UserProfile.ToJsonFields` | sdk/src/main/java/com/iboxchain/UserData.java:216-255 | a set string field is written, as JSON null when empty; a null one is left out. `byear` is left out when 0, written when positive, and JSON null when negative |
| `UserProfile.ToJsonCustom` | sdk/src/main/java/com/iboxchain/UserData.java:257-268 | "custom" holds every custom entry as a string, with the `customMods` entries written over them |
| `UserProfile.ClearedToJson` | sdk/src/main/java/com/iboxchain/UserData.java:212-274 | a cleared profile serialises to `{"custom":{}}` |
| `UserProfile.ToJsonIgnoresSync` | sdk/src/main/java/com/iboxchain/UserData.java:283-284 | setting `isSynced` before `toJSON` does not change the JSON |
| `UserProfile.PairSplitsAtName` | sdk/src/main/java/com/iboxchain/UserData.java:193-196 | in `name=value` with no '=' in the name, the first '=' ends the name and the value follows it |
| `UserProfile.OtherPairOf` | sdk/src/main/java/com/iboxchain/UserData.java:193-194 | a pair with another name is stepped over by the scan |
| `UserProfile.ScanSkips` | sdk/src/main/java/com/iboxchain/UserData.java:192-202 | the scan passes leading pairs that have a '=' and another name |
| `UserProfile.ScanFinds` | sdk/src/main/java/com/iboxchain/UserData.java:194-200 | a "picturePath" pair holding an encoded path makes the scan stop and decode that path |
| `UserProfile.PicturePathIsScan` | sdk/src/main/java/com/iboxchain/UserData.java:188-192 | when the query mentions "picturePath" and `split` keeps all its pieces, the result is the scan of those pieces |
| `UserProfile.MentionsPicturePath` | sdk/src/main/java/com/iboxchain/UserData.java:191 | a query with a "picturePath" pair contains "picturePath" |
| `UserProfile.ScanFindsAfter` | sdk/src/main/java/com/iboxchain/UserData.java:192-202 | the scan passes the pairs with other names and decodes the picture path's value |
| `UserProfile.FindsPicturePath` | sdk/src/main/java/com/iboxchain/UserData.java:187-205 | a query whose pairs name the encoded picture path after pairs with other names yields that path |
| `UserProfile.FindsNoPicturePath` | sdk/src/main/java/com/iboxchain/UserData.java:187-205 | a query none of whose pairs is named "picturePath" yields "" |
| `UserProfile.GetPicturePathFromQuery` | sdk/src/main/java/com/iboxchain/UserData.java:187-205 | the loop returns what `PicturePathOf` defines. A URL without a query fails with a NullPointerException. A query not mentioning "picturePath" gives "". A pair before the match with no '=' fails with a StringIndexOutOfBoundsException. A malformed escape fails with an IllegalArgumentException |
| `UserProfile.UserData.constructor` | sdk/src/main/java/com/iboxchain/UserData.java:28-40 | the static state starts cleared: all fields null, `byear` 0, synced |
| `UserProfile.UserData.Clear` | sdk/src/main/java/com/iboxchain/UserData.java:101-114 | every field is null again, `byear` is 0 and the profile is synced |
| `UserProfile.UserData.SetData` | sdk/src/main/java/com/iboxchain/UserData.java:117-155 | the new state is `WithData` of the old one |
| `UserProfile.UserData.TakeNames` | sdk/src/main/java/com/iboxchain/UserData.java:121-128 | name, username, email and organization are taken from the map when present; nothing else changes |
| `UserProfile.UserData.TakePicture` | sdk/src/main/java/com/iboxchain/UserData.java:129-146 | phone, picture path (kept only if it is a regular file), picture and gender are taken from the map when present; nothing else changes |
| `UserProfile.UserData.SetCustomData` | sdk/src/main/java/com/iboxchain/UserData.java:162-167 | the new state is `WithCustomData` of the old one |
| `UserProfile.UserData.SetCustomProperty` | sdk/src/main/java/com/iboxchain/UserData.java:175-180 | the new state is `WithCustomProperty` of the old one |
| `UserProfile.FragmentAvoidsMark` | sdk/src/main/java/com/iboxchain/UserData.java:281-307 | encoded details give a user-data fragment without '#', in each of its forms |
| `UserProfile.UserData.GetDataForRequest` | sdk/src/main/java/com/iboxchain/UserData.java:281-307 | a synced profile gives "". An unsynced one gives `&user_details=` with the encoded JSON, then `&picturePath=` with the encoded path when there is one. It gives the bare `&user_details&picturePath=...` form when the encoding is empty. Either way the profile is synced afterwards and nothing else changes |
| `HttpConsumer.HexOf` | sdk/src/main/java/com/iboxchain/consumer/HttpConsumer.java:200-208 | the hex text is two characters per byte |
| `HttpConsumer.HexOfAt` | sdk/src/main/java/com/iboxchain/consumer/HttpConsumer.java:203-205 | character 2j is the digit of byte j's high nibble, and character 2j+1 that of its low nibble |
| `HttpConsumer.HexAlphabet` | sdk/src/main/java/com/iboxchain/consumer/HttpConsumer.java:207 | the hex text uses only 0-9 and a-f |
| `HttpConsumer.HexRoundTrip` | sdk/src/main/java/com/iboxchain/consumer/HttpConsumer.java:200-208 | reading the hex text back gives the bytes |
| `HttpConsumer.HexOfInjective` | sdk/src/main/java/com/iboxchain/consumer/HttpConsumer.java:182-195 | different digests give different checksums |
| `HttpConsumer.LowerHexArray` | sdk/src/main/java/com/iboxchain/consumer/HttpConsumer.java:24 | lowering the upper-case digit `hexArray[n]` gives the lower-case digit of n |
| `HttpConsumer.LoweredNibbles` | sdk/src/main/java/com/iboxchain/consumer/HttpConsumer.java:201-207 | lowering a buffer of `hexArray` digits, high nibble first for each byte, gives the hex text |
| `HttpConsumer.BytesToHex` | sdk/src/main/java/com/iboxchain/consumer/HttpConsumer.java:200-208 | the loop over the byte array and the final `toLowerCase` return the hex text of the bytes |
| `HttpConsumer.Sha1Hash` | sdk/src/main/java/com/iboxchain/consumer/HttpConsumer.java:182-195 | the checksum is the hex text of the SHA-1 digest of the request text |
| `HttpConsumer.ChecksumCoversPrefix` | sdk/src/main/java/com/iboxchain/consumer/HttpConsumer.java:173 | the signed request is the prefix, then "&checksum=", then 40 lower-case hex digits; hashing what precedes "&checksum=" reproduces them |
| `HttpConsumer.TimeFieldsReadBack` | sdk/src/main/java/com/iboxchain/consumer/HttpConsumer.java:157-161 | after its '=', each time pair reads back as the number written: the issued timestamp, the hour, the day of week and the offset |
| `HttpConsumer.BaseTextAvoidsMark` | sdk/src/main/java/com/iboxchain/consumer/HttpConsumer.java:157-163 | with an app key without '#', the common text holds no '#' |
| `HttpConsumer.RequestAvoidsMark` | sdk/src/main/java/com/iboxchain/consumer/HttpConsumer.java:156-174 | with an app key and device id without '#', and for user data a fragment without one, the signed request holds no '#', the fragment mark where `URL.getQuery` stops |
| `HttpConsumer.TimeFieldsAreJoin` | sdk/src/main/java/com/iboxchain/consumer/HttpConsumer.java:157-161 | the app key and the four time fields are five `name=value` pairs joined by '&' |
| `HttpConsumer.BaseIsJoin` | sdk/src/main/java/com/iboxchain/consumer/HttpConsumer.java:157-163 | the first statement of `prepareRequestData` builds the seven common pairs joined by '&' |
| `HttpConsumer.BaseIsSeparatorFree` | sdk/src/main/java/com/iboxchain/consumer/HttpConsumer.java:157-163 | given an app key without '&', no common pair contains '&' |
| `HttpConsumer.ChecksumIsSeparatorFree` | sdk/src/main/java/com/iboxchain/consumer/HttpConsumer.java:173 | the checksum pair contains no '&' |
| `HttpConsumer.SignedIsJoin` | sdk/src/main/java/com/iboxchain/consumer/HttpConsumer.java:173 | the checksum is one more pair after the pairs it covers |
| `HttpConsumer.SignedReadsBack` | sdk/src/main/java/com/iboxchain/consumer/HttpConsumer.java:173 | a signed request whose pairs contain no '&' splits back into those pairs and the checksum pair |
| `HttpConsumer.EventPrefixIsJoin` | sdk/src/main/java/com/iboxchain/consumer/HttpConsumer.java:156-172 | an event request before its checksum is the common pairs, then `events=` with the encoded batch, then `device_id=`, all joined by '&' |
| `HttpConsumer.EventPairsAreSeparatorFree` | sdk/src/main/java/com/iboxchain/consumer/HttpConsumer.java:156-172 | no pair of an event request contains '&' |
| `HttpConsumer.EventRequestPairs` | sdk/src/main/java/com/iboxchain/consumer/HttpConsumer.java:156-174 | an event request splits on '&' into exactly its pairs, in the order they were appended, then the checksum |
| `HttpConsumer.UserPrefixIsJoin` | sdk/src/main/java/com/iboxchain/consumer/HttpConsumer.java:156-172 | a user-data request before its checksum is the common pairs, then `user_details=`, then `picturePath=` when there is a path, then `device_id=`, all joined by '&' |
| `HttpConsumer.UserPairsAreSeparatorFree` | sdk/src/main/java/com/iboxchain/consumer/HttpConsumer.java:156-172 | no pair of a user-data request contains '&' |
| `HttpConsumer.UserRequestPairs` | sdk/src/main/java/com/iboxchain/consumer/HttpConsumer.java:156-174 | a user-data request splits on '&' into exactly its pairs, then the checksum |
| `HttpConsumer.UserRequestCarriesPicturePath` | sdk/src/main/java/com/iboxchain/consumer/HttpConsumer.java:83 | the sender's scan of a user-data request finds the picture path that `getDataForRequest` put into it |
| `HttpConsumer.EventRequestCarriesNoPicturePath` | sdk/src/main/java/com/iboxchain/consumer/HttpConsumer.java:83-84 | the scan of an event request finds no picture path, whatever the events hold |
| `HttpConsumer.ResponseError` | sdk/src/main/java/com/iboxchain/consumer/HttpConsumer.java:130-134 | no error exactly when the status is in 200..299; otherwise the exception carries the status, the body and the URL sent |
| `HttpConsumer.Attached` | sdk/src/main/java/com/iboxchain/consumer/HttpConsumer.java:73-81 | a header is attached exactly when its entry has a non-null, non-empty key and a non-null value; there are no more headers than entries |
| `HttpConsumer.AttachedAppend` | sdk/src/main/java/com/iboxchain/consumer/HttpConsumer.java:74-80 | filtering keeps the order of the entries |
| `HttpConsumer.AddHeaders` | sdk/src/main/java/com/iboxchain/consumer/HttpConsumer.java:73-81 | the loop attaches exactly the headers of `Attached`, in order |
| `HttpConsumer.SendContract` | sdk/src/main/java/com/iboxchain/consumer/HttpConsumer.java:64-145 | a request goes out exactly when the URL parses and the scan returns, and the scan's exception escapes exactly when it throws. The request carries exactly the accepted headers. It uploads a file exactly when the query names a picture path, and then has the multipart content type; otherwise it has the form content type. It succeeds exactly when the file opens and the answer is 2xx. A status of 400 or more ends in an IOException; a rejection has a status below 400 and carries that status and body |
| `HttpConsumer.HttpConsumer.constructor` | sdk/src/main/java/com/iboxchain/consumer/HttpConsumer.java:55-57 | the consumer keeps the header map |
| `HttpConsumer.HttpConsumer.PrepareRequestData` | sdk/src/main/java/com/iboxchain/consumer/HttpConsumer.java:156-174 | it takes one timestamp from the generator and returns the signed request with the clock's fields, the payload for the request type and the device id |
| `HttpConsumer.HttpConsumer.SendData` | sdk/src/main/java/com/iboxchain/consumer/HttpConsumer.java:64-145 | the outcome is the one `SendOf` defines, whose properties `SendContract` states |
| `JavaText.Digits` | sdk/src/main/java/com/iboxchain/consumer/HttpConsumer.java:158-161 | a number prints as a non-empty string of decimal digits |
| `JavaText.DigitsRoundTrip` | sdk/src/main/java/com/iboxchain/consumer/HttpConsumer.java:158-161 | those digits read back as the number |
| `JavaText.Dec` | sdk/src/main/java/com/iboxchain/consumer/HttpConsumer.java:158-161 | an int or long prints as digits, with a leading '-' exactly when it is negative |
| `JavaText.DecRoundTrip` | sdk/src/main/java/com/iboxchain/consumer/HttpConsumer.java:158-161 | the decimal text, sign included, reads back as the number |
| `JavaText.DecInjective` | sdk/src/main/java/com/iboxchain/consumer/HttpConsumer.java:158-161 | two numbers print alike exactly when they are equal |
| `JavaText.DecAvoids` | sdk/src/main/java/com/iboxchain/consumer/HttpConsumer.java:158-161 | decimal text holds no character other than digits and '-' |
| `JavaText.IndexOf` | sdk/src/main/java/com/iboxchain/UserData.java:193 | `indexOf` is -1 exactly when the character is absent; otherwise it is the first position holding it |
| `JavaText.IndexOfFirst` | sdk/src/main/java/com/iboxchain/UserData.java:193 | a position holding the character with none before it is `indexOf`'s answer |
| `JavaText.ContainsInSuffix` | sdk/src/main/java/com/iboxchain/UserData.java:191 | an occurrence in a suffix is an occurrence |
| `JavaText.FirstPieceInText` | sdk/src/main/java/com/iboxchain/UserData.java:191 | text that begins the first piece is contained in the whole string |
| `JavaText.ContainsPiece` | sdk/src/main/java/com/iboxchain/UserData.java:191 | text that begins any piece between separators is contained in the whole string |
| `JavaText.LowerChar` | sdk/src/main/java/com/iboxchain/consumer/HttpConsumer.java:207 | lowering changes exactly the upper-case ASCII letters, to the matching lower-case letter |
| `JavaText.ToLowerCase` | sdk/src/main/java/com/iboxchain/consumer/HttpConsumer.java:207 | `toLowerCase` lowers each character and keeps the length |
| `JavaText.HexDigit` | sdk/src/main/java/com/iboxchain/consumer/HttpConsumer.java:204-207 | a nibble's digit is a lower-case hex digit |
| `JavaText.DigitRoundTrip` | sdk/src/main/java/com/iboxchain/consumer/HttpConsumer.java:204-207 | reading a nibble's digit back gives the nibble |
| `JavaText.ToHexString` | sdk/src/main/java/com/iboxchain/Countly.java:58 | `toString(16)` gives non-empty lower-case hex text with no leading zero except for 0 itself |
| `JavaText.ToHexStringRoundTrip` | sdk/src/main/java/com/iboxchain/Countly.java:58 | that text spells the number back |
| `JavaText.Pieces` | sdk/src/main/java/com/iboxchain/UserData.java:189 | the pieces between separators are at least one, and none contains the separator |
| `JavaText.JoinAppend` | sdk/src/main/java/com/iboxchain/UserData.java:189 | joining one more piece appends the separator and the piece |
| `JavaText.JoinPieces` | sdk/src/main/java/com/iboxchain/UserData.java:189 | joining the pieces with the separator gives the string back |
| `JavaText.PiecesOfJoin` | sdk/src/main/java/com/iboxchain/UserData.java:189 | splitting a join of pieces without the separator gives those pieces back |
| `JavaText.PiecesAfterSeparator` | sdk/src/main/java/com/iboxchain/UserData.java:189 | a head without the separator is split off as the first piece |
| `JavaText.DropTrailingEmpty` | sdk/src/main/java/com/iboxchain/UserData.java:189 | `split` drops exactly the trailing empty pieces: the result is a prefix that ends in a non-empty piece, or is empty |
| `JavaText.SplitKeepsPieces` | sdk/src/main/java/com/iboxchain/UserData.java:189 | with a separator present and a non-empty last piece, `split` keeps every piece |
| `Client.IntOfDouble` | sdk/src/main/java/com/iboxchain/Countly.java:112 | the `(int)` cast of the sum truncates toward zero and saturates at the ends of the int range |
| `Client.PutAll` | sdk/src/main/java/com/iboxchain/Countly.java:105-107 | the `put` loop leaves the target with every entry of the source over its own |
| `Client.SegmentationMap.constructor` | sdk/src/main/java/com/iboxchain/Countly.java:94 | the caller's map holds the given entries |
| `Client.BuildEvent` | sdk/src/main/java/com/iboxchain/Countly.java:109-113 | `new Event` and the four setters give the event with a fresh timestamp, the clock's fields, the segmentation, the count, the cast sum and the duration |
| `Client.NullSegmentationFailsOnlyWithSuperProperties` | sdk/src/main/java/com/iboxchain/Countly.java:96-107 | for a non-empty key, a NullPointerException happens exactly when the segmentation is null and there are super properties; it happens before any timestamp is taken |
| `Client.SuperPropertiesReachEvent` | sdk/src/main/java/com/iboxchain/Countly.java:105-110 | the sent segmentation has every super property over the caller's value, keeps the caller's other entries, and is also left in the caller's map |
| `Client.RecordIssuesDistinctTimestamps` | sdk/src/main/java/com/iboxchain/Countly.java:109-118 | the event's timestamp is new to the generator, and the request's timestamp differs from it |
| `Client.RecordedEventReadsBack` | sdk/src/main/java/com/iboxchain/Countly.java:109-117 | the event sent reads back from its JSON with the caller's key, count, duration and the cast sum |
| `Client.JavaQueryOfRequestUrl` | sdk/src/main/java/com/iboxchain/UserData.java:188 | read as `java.net.URL` reads queries, the query of `serverUrl + "/i?" + q` is `q`, for a server URL without '?' or '#' and a `q` without '#' |
| `Client.JavaQueryServesQueries` | sdk/src/main/java/com/iboxchain/Countly.java:118 | such a server URL serves queries on a platform that reads them that way and accepts the URLs |
| `Client.DeviceIdIsPlain` | sdk/src/main/java/com/iboxchain/Countly.java:58 | the hex device id holds neither '&' nor '#' |
| `Client.EventSendNeverUploads` | sdk/src/main/java/com/iboxchain/Countly.java:118-119 | an event request to a server that serves queries without '#' goes out with the form content type and no upload, given an app key and device id without '&' or '#' |
| `Client.UserSendCarriesUpdate` | sdk/src/main/java/com/iboxchain/Countly.java:175-188 | given a data map, the request carries the fragment of the updated profile, and the profile is cleared unless an unchecked exception escaped |
| `Client.SendUploads` | sdk/src/main/java/com/iboxchain/consumer/HttpConsumer.java:83-95 | a request whose query names a picture path goes out with that file and the multipart content type |
| `Client.UpdatedIsUnsynced` | sdk/src/main/java/com/iboxchain/Countly.java:175-178 | after `setData` (and `setCustomData`) the profile is unsynced, and a picture path it keeps names a regular file |
| `Client.UserSendUploadsPicturePath` | sdk/src/main/java/com/iboxchain/Countly.java:175-188 | a picture path that survives `setData` is uploaded with the request, with the multipart content type, and the profile is cleared afterwards, given a server that serves queries without '#' and an app key and device id without '&' or '#' |
| `Client.Countly.constructor` | sdk/src/main/java/com/iboxchain/Countly.java:29-31 | the singleton starts not initialised, with no super properties, an empty generator history and a cleared profile |
| `Client.Countly.Init` | sdk/src/main/java/com/iboxchain/Countly.java:47-62 | the server URL and app key are stored. The consumer type is the log consumer only when asked for, and the HTTP consumer otherwise. The device id is the hex text of the 64-bit random number. A new consumer keeps the headers, and the super properties are empty |
| `Client.Countly.RecordEvent` | sdk/src/main/java/com/iboxchain/Countly.java:94-127 | the outcome, the generator's history and the caller's map are exactly those `RecordOf` defines. A null or empty key is skipped. A null segmentation with super properties throws. Otherwise the event is built and sent, and a send error is caught |
| `Client.Countly.RecordKey` | sdk/src/main/java/com/iboxchain/Countly.java:65-67 | `recordEvent(key)` is `recordEvent` with no segmentation, count 1, sum 0 and duration 0 |
| `Client.Countly.RecordCount` | sdk/src/main/java/com/iboxchain/Countly.java:69-71 | `recordEvent(key, count)` is `recordEvent` with no segmentation, sum 0 and duration 0 |
| `Client.Countly.RecordCountSum` | sdk/src/main/java/com/iboxchain/Countly.java:73-75 | `recordEvent(key, count, sum)` is `recordEvent` with no segmentation and duration 0 |
| `Client.Countly.RecordSegmented` | sdk/src/main/java/com/iboxchain/Countly.java:77-79 | `recordEvent(key, segmentation, count)` is `recordEvent` with sum 0 and duration 0 |
| `Client.Countly.RecordSegmentedSum` | sdk/src/main/java/com/iboxchain/Countly.java:81-83 | `recordEvent(key, segmentation, count, sum)` is `recordEvent` with duration 0 |
| `Client.Countly.SendUserData` | sdk/src/main/java/com/iboxchain/Countly.java:171-190 | the outcome, the profile and the generator's history are exactly those `UserSendOf` defines: `setData`, `setCustomData` when given, one signed request with the fragment, and `clear` unless an unchecked exception escaped |
| `Client.Countly.SendUserDataOnly` | sdk/src/main/java/com/iboxchain/Countly.java:130-132 | `sendUserData(data)` is `sendUserData(data, null)` |
| `Client.Countly.RegisterSuperProperties` | sdk/src/main/java/com/iboxchain/Countly.java:197-204 | each property is put over an earlier value for the same name; a null map throws a NullPointerException and changes nothing; the configuration is untouched |
| `Client.Countly.ClearSuperProperties` | sdk/src/main/java/com/iboxchain/Countly.java:209-211 | the super properties are empty and the configuration is untouched |

## Left out

- Network I/O. The connection is a function parameter. The multipart body
  (boundary lines, file bytes, `guessContentTypeFromName`) and the timeouts
  and request method are not modelled.
- The two IOExceptions `getInputStream` throws for a status of 400 or
  more (FileNotFoundException for 404 and 410, a plain IOException
  otherwise) are one `IoError`.
- `File.isFile` alone decides whether a picture path opens. A regular file
  that cannot be read also ends in a FileNotFoundException at
  `HttpConsumer.java:104`; the model does not tell such a file apart.
- `SendOf` returns `Attempted` with an `IoError` when the file does not
  open. By then the connection is open and the first multipart lines are
  written, but the request body is never completed or sent; the model
  does not follow what reaches the server in that case.
- A header named `Content-Type` in the configured map is attached after the
  content type. Its interplay with `setRequestProperty` is not modelled.
- SHA-1, URL encoding and decoding, URL parsing, `File.isFile`,
  `Integer.parseInt` and the text of `JSONObject`/`JSONArray` are platform
  services. They are taken as parameters, with the four facts of
  `Services.Valid`.
- `sha1Hash` catches every Throwable and then returns null. A missing SHA-1
  algorithm is not modelled.
- The key order of JSON objects and the iteration order of `HashMap` and
  `ConcurrentHashMap` are left out. Objects are maps. The header map is a
  sequence in an arbitrary iteration order.
- Maps given to the SDK hold no null values.
- Floating point: the sum and duration are reals. NaN and infinities are
  left out, including the JSONException that `put` throws for them, and
  the cast of NaN to 0.
- Concurrency (`synchronized`, `ConcurrentHashMap`), logging,
  `printStackTrace`, `setLoggingEnabled`, `sharedInstance` and the log
  consumer are not modelled.
- One `Clock` value stands for all readings of the clock and calendar in one
  operation. The Java code reads `currentTimeMillis`, the hour, the day and
  the zone offset separately, and they can differ across a tick.
- `init` draws the device id from a SecureRandom. The model takes the
  64-bit random number as a parameter.
- The `Config` statics became fields of the client object.
- `init(serverURL, appKey, type)` is `Countly.Init` with no headers
  (`None`).
- Calling `recordEvent`, `sendUserData` or `registerSuperProperties` before
  `init` dereferences null in the Java code. The model instead requires
  `init` first.
- `Client.UserSendUploadsPicturePath`: requires that the profile's JSON does
  not URL-encode to the empty text. The encoding of a JSON object is never
  empty, but that is a property of the encoder the model does not assume.
- `HttpConsumer.UserRequestCarriesPicturePath`: states only the
  `&user_details=<details>` form the SDK produces for non-empty details; the
  bare `&user_details&` form is modelled in `getDataForRequest` but not
  followed into the sender.
