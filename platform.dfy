/** What the SDK takes from the Java platform and its libraries.  None of
    these is reproduced: each is a parameter of the operations that use it,
    and `Services.Valid` records the few facts the model relies on. */
module Platform {
  import opened Wrappers
  import Json

  /** A byte as `b & 0xFF` reads it: Java's signed byte taken as 0..255. */
  newtype byte = x: int | 0 <= x < 256

  /** One reading of the platform clock and calendar: `System.currentTimeMillis`,
      `Calendar.HOUR_OF_DAY`, `Calendar.DAY_OF_WEEK` (1 = SUNDAY .. 7 =
      SATURDAY) and the default time zone's offset in milliseconds. */
  datatype Clock = Clock(millis: int, hourOfDay: int, calendarDayOfWeek: int, zoneOffsetMs: int)

  /** The unchecked Java exceptions the model follows: none of them is
      caught by the SDK. */
  datatype RuntimeFault = NullPointer | StringIndexOutOfBounds | IllegalArgument

  /** Library calls used as black boxes.
      - `urlEncode`/`urlDecode`: `URLEncoder.encode`/`URLDecoder.decode` with
        UTF-8; decoding a malformed escape throws, which is `None`.
      - `sha1`: the SHA-1 digest of the UTF-8 bytes of a string.
      - `isFile`: `new File(path).isFile()`.
      - `parseInt`: `Integer.parseInt`; `None` is a NumberFormatException.
      - `jsonText`: `JSONObject.toString`/`JSONArray.toString`.
      - `urlParses`: `new URL(s)` succeeds (no MalformedURLException).
      - `urlQuery`: `new URL(s).getQuery()`; `None` is a URL without a query. */
  datatype Services = Services(
    urlEncode: string -> string,
    urlDecode: string -> Option<string>,
    sha1: string -> seq<byte>,
    isFile: string -> bool,
    parseInt: string -> Option<int>,
    jsonText: Json.Value -> string,
    urlParses: string -> bool,
    urlQuery: string -> Option<string>)
  {
    /** A SHA-1 digest has 20 bytes; URL decoding undoes URL encoding; URL
        encoding escapes the pair separator '&' and the fragment mark '#';
        and the empty path names no file. */
    ghost predicate Valid() {
      && (forall s :: |sha1(s)| == 20)
      && (forall s :: urlDecode(urlEncode(s)) == Some(s))
      && (forall s :: '&' !in urlEncode(s) && '#' !in urlEncode(s))
      && !isFile("")
    }
  }
}
