/** The user profile (`UserData`): nullable profile fields, a custom
    property map and the `isSynced` flag, the JSON object sent to the server,
    the `&user_details=` request fragment and the scan of a request's query
    for the local picture path. */
module UserProfile {
  import opened Wrappers
  import Json
  import opened Platform
  import opened JavaText

  const NAME_KEY: string := "name"
  const USERNAME_KEY: string := "username"
  const EMAIL_KEY: string := "email"
  const ORG_KEY: string := "organization"
  const PHONE_KEY: string := "phone"
  const PICTURE_KEY: string := "picture"
  const PICTURE_PATH_KEY: string := "picturePath"
  const GENDER_KEY: string := "gender"
  const BYEAR_KEY: string := "byear"
  const CUSTOM_KEY: string := "custom"

  /** The profile's fields at one moment (`custom` and `customMods` are
      nullable maps). */
  datatype Profile = Profile(
    name: Option<string>,
    username: Option<string>,
    email: Option<string>,
    org: Option<string>,
    phone: Option<string>,
    picture: Option<string>,
    picturePath: Option<string>,
    gender: Option<string>,
    custom: Option<map<string, string>>,
    customMods: Option<map<string, Json.Value>>,
    byear: int,
    isSynced: bool)

  /** The state after `clear`, which is also the initial state. */
  const CLEARED: Profile := Profile(None, None, None, None, None, None, None, None, None, None, 0, true)

  /** A field `setData` takes from the map when its key is present. */
  function Overwrite(data: map<string, string>, key: string, current: Option<string>): Option<string>
  {
    if key in data then Some(data[key]) else current
  }

  /** `Integer.parseInt`, with 0 for a value that does not parse. */
  function ParseYear(text: string, p: Services): int
  {
    match p.parseInt(text)
    case Some(n) => n
    case None => 0
  }

  /** `setData`. */
  function WithData(s: Profile, data: Option<map<string, string>>, p: Services): (r: Profile)
    ensures data.None? ==> r == s
    ensures data.Some? ==>
              && !r.isSynced
              && r.custom == s.custom && r.customMods == s.customMods
              && (NAME_KEY in data.value ==> r.name == Some(data.value[NAME_KEY]))
              && (NAME_KEY !in data.value ==> r.name == s.name)
              && (USERNAME_KEY in data.value ==> r.username == Some(data.value[USERNAME_KEY]))
              && (USERNAME_KEY !in data.value ==> r.username == s.username)
              && (EMAIL_KEY in data.value ==> r.email == Some(data.value[EMAIL_KEY]))
              && (EMAIL_KEY !in data.value ==> r.email == s.email)
              && (ORG_KEY in data.value ==> r.org == Some(data.value[ORG_KEY]))
              && (ORG_KEY !in data.value ==> r.org == s.org)
              && (PHONE_KEY in data.value ==> r.phone == Some(data.value[PHONE_KEY]))
              && (PHONE_KEY !in data.value ==> r.phone == s.phone)
              && (PICTURE_KEY in data.value ==> r.picture == Some(data.value[PICTURE_KEY]))
              && (PICTURE_KEY !in data.value ==> r.picture == s.picture)
              && (GENDER_KEY in data.value ==> r.gender == Some(data.value[GENDER_KEY]))
              && (GENDER_KEY !in data.value ==> r.gender == s.gender)
              && (BYEAR_KEY in data.value ==> r.byear == ParseYear(data.value[BYEAR_KEY], p))
              && (BYEAR_KEY !in data.value ==> r.byear == s.byear)
    // the picture path is kept only while it names a regular file, and this
    // is checked again even when the map does not mention it
    ensures data.Some? ==>
              && (r.picturePath.Some? ==> p.isFile(r.picturePath.value))
              && (PICTURE_PATH_KEY in data.value ==>
                    r.picturePath == (if p.isFile(data.value[PICTURE_PATH_KEY]) then Some(data.value[PICTURE_PATH_KEY]) else None))
              && (PICTURE_PATH_KEY !in data.value ==>
                    r.picturePath == (if s.picturePath.Some? && p.isFile(s.picturePath.value) then s.picturePath else None))
  {
    if data.None? then s
    else
      var d := data.value;
      var path := Overwrite(d, PICTURE_PATH_KEY, s.picturePath);
      s.(name := Overwrite(d, NAME_KEY, s.name),
         username := Overwrite(d, USERNAME_KEY, s.username),
         email := Overwrite(d, EMAIL_KEY, s.email),
         org := Overwrite(d, ORG_KEY, s.org),
         phone := Overwrite(d, PHONE_KEY, s.phone),
         picturePath := if path.Some? && !p.isFile(path.value) then None else path,
         picture := Overwrite(d, PICTURE_KEY, s.picture),
         gender := Overwrite(d, GENDER_KEY, s.gender),
         byear := if BYEAR_KEY in d then ParseYear(d[BYEAR_KEY], p) else s.byear,
         isSynced := false)
  }

  /** A picture path survives only while it names a regular file: what
      is kept is a file, and a file is kept. */
  method KeepIfFile(path: Option<string>, p: Services) returns (r: Option<string>)
    ensures r.Some? ==> r == path && p.isFile(r.value)
    ensures path.Some? && p.isFile(path.value) ==> r == path
    ensures path.None? ==> r.None?
  {
    r := path;
    if r.Some? {
      if !p.isFile(r.value) {
        r := None;
      }
    }
  }

  /** `byear` from the map, 0 when its text does not parse. */
  method TakeYear(data: map<string, string>, current: int, p: Services) returns (r: int)
    ensures BYEAR_KEY !in data ==> r == current
    ensures BYEAR_KEY in data && p.parseInt(data[BYEAR_KEY]).Some? ==> r == p.parseInt(data[BYEAR_KEY]).value
    ensures BYEAR_KEY in data && p.parseInt(data[BYEAR_KEY]).None? ==> r == 0
  {
    r := current;
    if BYEAR_KEY in data {
      var parsed := p.parseInt(data[BYEAR_KEY]);
      if parsed.Some? {
        r := parsed.value;
      } else {
        // a NumberFormatException gives 0
        r := 0;
      }
    }
  }

  /** A profile that took, field by field, what `setData` takes from `d`
      is the profile `WithData` describes. */
  lemma SetDataFields(s: Profile, d: map<string, string>, p: Services, r: Profile)
    requires r.name == Overwrite(d, NAME_KEY, s.name)
    requires r.username == Overwrite(d, USERNAME_KEY, s.username)
    requires r.email == Overwrite(d, EMAIL_KEY, s.email)
    requires r.org == Overwrite(d, ORG_KEY, s.org)
    requires r.phone == Overwrite(d, PHONE_KEY, s.phone)
    requires r.picture == Overwrite(d, PICTURE_KEY, s.picture)
    requires r.gender == Overwrite(d, GENDER_KEY, s.gender)
    requires var path := Overwrite(d, PICTURE_PATH_KEY, s.picturePath);
             r.picturePath == if path.Some? && !p.isFile(path.value) then None else path
    requires r.byear == if BYEAR_KEY in d then ParseYear(d[BYEAR_KEY], p) else s.byear
    requires r.custom == s.custom && r.customMods == s.customMods && !r.isSynced
    ensures r == WithData(s, Some(d), p)
  {
  }

  /** The custom map, an absent one read as empty. */
  function CustomOrEmpty(s: Profile): map<string, string>
  {
    if s.custom.Some? then s.custom.value else map[]
  }

  /** `setCustomData`: the entries of `data` are put into `custom`. */
  function WithCustomData(s: Profile, data: map<string, string>): (r: Profile)
    ensures r.custom.Some? && r.custom.value.Keys == CustomOrEmpty(s).Keys + data.Keys
    ensures forall k :: k in data ==> r.custom.value[k] == data[k]
    ensures forall k :: k in CustomOrEmpty(s) && k !in data ==> r.custom.value[k] == CustomOrEmpty(s)[k]
    ensures r == s.(custom := r.custom, isSynced := false)
  {
    s.(custom := Some(CustomOrEmpty(s) + data), isSynced := false)
  }

  /** `setCustomProperty`: one entry put into `custom`. */
  function WithCustomProperty(s: Profile, key: string, value: string): (r: Profile)
    ensures r.custom.Some? && r.custom.value.Keys == CustomOrEmpty(s).Keys + {key}
    ensures r.custom.value[key] == value
    ensures forall k :: k in CustomOrEmpty(s) && k != key ==> r.custom.value[k] == CustomOrEmpty(s)[k]
    ensures r == s.(custom := r.custom, isSynced := false)
  {
    s.(custom := Some(CustomOrEmpty(s)[key := value]), isSynced := false)
  }

  /** How `toJSON` writes a string field: a null field is left out, an
      empty one is JSON null, any other is the string. */
  ghost predicate WritesField(fields: map<string, Json.Value>, key: string, f: Option<string>)
  {
    && (key in fields <==> f.Some?)
    && (f.Some? ==> fields[key] == if f.value == "" then Json.Null else Json.Str(f.value))
  }

  /** A string field as `toJSON` writes it, `None` when it is left out. */
  function StringField(f: Option<string>): Option<Json.Value>
  {
    if f.None? then None else if f.value == "" then Some(Json.Null) else Some(Json.Str(f.value))
  }

  /** The "custom" object: the custom entries as strings, then the
      `customMods` entries on top. */
  function CustomObject(s: Profile): map<string, Json.Value>
  {
    var mods := if s.customMods.Some? then s.customMods.value else map[];
    (map k | k in CustomOrEmpty(s) :: Json.Str(CustomOrEmpty(s)[k])) + mods
  }

  const PROFILE_KEYS: set<string> := {NAME_KEY, USERNAME_KEY, EMAIL_KEY, ORG_KEY, PHONE_KEY, PICTURE_KEY, GENDER_KEY, BYEAR_KEY, CUSTOM_KEY}

  /** `toJSON`: one entry per profile key that has a value. */
  function ToJson(s: Profile): (j: Json.Value)
    ensures j.Obj? && j.fields.Keys <= PROFILE_KEYS
    ensures forall k :: k in j.fields <==> k in PROFILE_KEYS && Entry(s, k).Some?
    ensures CUSTOM_KEY in j.fields && j.fields[CUSTOM_KEY] == Json.Obj(CustomObject(s))
  {
    Json.Obj(map k | k in PROFILE_KEYS && Entry(s, k).Some? :: Entry(s, k).value)
  }

  /** `toJSON` writes the string fields that are set, `null` for an empty
      one, and the birth year unless it is 0 (`null` when negative). */
  lemma ToJsonFields(s: Profile)
    ensures var j := ToJson(s);
            && WritesField(j.fields, NAME_KEY, s.name)
            && WritesField(j.fields, USERNAME_KEY, s.username)
            && WritesField(j.fields, EMAIL_KEY, s.email)
            && WritesField(j.fields, ORG_KEY, s.org)
            && WritesField(j.fields, PHONE_KEY, s.phone)
            && WritesField(j.fields, PICTURE_KEY, s.picture)
            && WritesField(j.fields, GENDER_KEY, s.gender)
            && (BYEAR_KEY in j.fields <==> s.byear != 0)
            && (s.byear > 0 ==> j.fields[BYEAR_KEY] == Json.Int(s.byear))
            && (s.byear < 0 ==> j.fields[BYEAR_KEY] == Json.Null)
  {
    var j := ToJson(s);
    assert forall k :: k in j.fields ==> j.fields[k] == Entry(s, k).value;
  }

  /** The "custom" object of `toJSON`: every custom entry as a string,
      overridden by the `customMods` entries. */
  lemma ToJsonCustom(s: Profile)
    ensures var c := ToJson(s).fields[CUSTOM_KEY].fields;
            && (forall k :: k in c <==> k in CustomOrEmpty(s) || (s.customMods.Some? && k in s.customMods.value))
            && (forall k :: s.customMods.Some? && k in s.customMods.value ==> c[k] == s.customMods.value[k])
            && (forall k :: k in CustomOrEmpty(s) && !(s.customMods.Some? && k in s.customMods.value) ==>
                  c[k] == Json.Str(CustomOrEmpty(s)[k]))
  {
    assert ToJson(s).fields[CUSTOM_KEY].fields == CustomObject(s);
  }

  /** The value `toJSON` puts under `key`, `None` when it puts nothing. */
  function Entry(s: Profile, key: string): Option<Json.Value>
  {
    if key == NAME_KEY then StringField(s.name)
    else if key == USERNAME_KEY then StringField(s.username)
    else if key == EMAIL_KEY then StringField(s.email)
    else if key == ORG_KEY then StringField(s.org)
    else if key == PHONE_KEY then StringField(s.phone)
    else if key == PICTURE_KEY then StringField(s.picture)
    else if key == GENDER_KEY then StringField(s.gender)
    else if key == BYEAR_KEY then (if s.byear == 0 then None else if s.byear > 0 then Some(Json.Int(s.byear)) else Some(Json.Null))
    else if key == CUSTOM_KEY then Some(Json.Obj(CustomObject(s)))
    else None
  }

  /** A cleared profile serialises to `{"custom":{}}`. */
  lemma ClearedToJson()
    ensures ToJson(CLEARED) == Json.Obj(map[CUSTOM_KEY := Json.Obj(map[])])
  {
    assert CustomObject(CLEARED) == map[];
  }

  /** `toJSON` does not look at `isSynced`. */
  lemma ToJsonIgnoresSync(s: Profile, synced: bool)
    ensures ToJson(s.(isSynced := synced)) == ToJson(s)
  {
    var t := s.(isSynced := synced);
    assert CustomObject(t) == CustomObject(s);
    assert forall k :: Entry(t, k) == Entry(s, k);
  }

  /** `"&picturePath=" + encode(path)`. */
  function PicturePathParam(path: string, p: Services): string
  {
    "&" + PICTURE_PATH_KEY + "=" + p.urlEncode(path)
  }

  /** The fragment for URL-encoded profile JSON `details`: the details
      under "user_details", then the picture path when there is one.  Empty
      details leave only the picture path, after a bare "&user_details". */
  function DetailsFragment(details: string, picturePath: Option<string>, p: Services): string
  {
    if details != "" then
      var tagged := "&user_details=" + details;
      if picturePath.Some? then tagged + PicturePathParam(picturePath.value, p) else tagged
    else if picturePath.Some? then "&user_details&" + PICTURE_PATH_KEY + "=" + p.urlEncode(picturePath.value)
    else ""
  }

  /** The literal text of the fragment holds no fragment mark '#'. */
  lemma FragmentTagsAvoidMark()
    ensures '#' !in "&user_details=" && '#' !in "&user_details&" && '#' !in "&" + PICTURE_PATH_KEY + "="
  {
  }

  /** Nor does the fragment, since URL encoding escapes '#'. */
  lemma FragmentAvoidsMark(details: string, picturePath: Option<string>, p: Services)
    requires p.Valid() && '#' !in details
    ensures '#' !in DetailsFragment(details, picturePath, p)
  {
    FragmentTagsAvoidMark();
    if picturePath.Some? {
      var enc := p.urlEncode(picturePath.value);
      assert '#' !in enc;
      assert "&user_details&" + PICTURE_PATH_KEY + "=" + enc == "&user_details&" + (PICTURE_PATH_KEY + "=") + enc;
      assert "&" + PICTURE_PATH_KEY + "=" + enc == ("&" + PICTURE_PATH_KEY + "=") + enc;
    }
  }

  /** What `getDataForRequest` returns for an unsynced profile. */
  function Fragment(s: Profile, p: Services): string
  {
    DetailsFragment(p.urlEncode(p.jsonText(ToJson(s))), s.picturePath, p)
  }

  /** The scan of `getPicturePathFromQuery` over the `&`-separated pairs:
      the decoded value of the first pair whose name is "picturePath", ""
      when there is none.  A pair before it without '=' makes
      `substring(0, -1)` throw, and a malformed escape makes the decoder
      throw. */
  function ScanPairs(pairs: seq<string>, p: Services): Result<string, RuntimeFault>
  {
    if |pairs| == 0 then Success("")
    else
      var idx := IndexOf(pairs[0], '=');
      if idx < 0 then Failure(StringIndexOutOfBounds)
      else if pairs[0][..idx] == PICTURE_PATH_KEY then
        match p.urlDecode(pairs[0][idx + 1..])
        case Some(v) => Success(v)
        case None => Failure(IllegalArgument)
      else ScanPairs(pairs[1..], p)
  }

  /** A query pair `name=value`. */
  function QueryPair(name: string, value: string): string
  {
    name + "=" + value
  }

  /** A pair the scan steps over: it has a '=' and another name. */
  predicate OtherPair(pair: string)
  {
    var idx := IndexOf(pair, '=');
    idx >= 0 && pair[..idx] != PICTURE_PATH_KEY
  }

  /** The name of a pair ends at its first '='. */
  lemma PairSplitsAtName(name: string, value: string)
    requires '=' !in name
    ensures var pair := QueryPair(name, value);
            IndexOf(pair, '=') == |name| && pair[..|name|] == name && pair[|name| + 1..] == value
  {
    var pair := QueryPair(name, value);
    assert pair[|name|] == '=';
    assert pair[..|name|] == name;
    assert pair[|name| + 1..] == value;
  }

  /** A name without '=' other than the picture path key. */
  predicate PlainName(name: string)
  {
    '=' !in name && name != PICTURE_PATH_KEY
  }

  lemma OtherPairOf(name: string, value: string)
    requires PlainName(name)
    ensures OtherPair(QueryPair(name, value))
  {
    PairSplitsAtName(name, value);
  }

  /** The scan steps over leading pairs with other names. */
  lemma {:induction false} ScanSkips(others: seq<string>, rest: seq<string>, p: Services)
    requires forall i :: 0 <= i < |others| ==> OtherPair(others[i])
    ensures ScanPairs(others + rest, p) == ScanPairs(rest, p)
    decreases |others|
  {
    if |others| > 0 {
      var pairs := others + rest;
      assert pairs[0] == others[0] && OtherPair(pairs[0]);
      assert pairs[1..] == others[1..] + rest;
      assert ScanPairs(pairs, p) == ScanPairs(pairs[1..], p);
      ScanSkips(others[1..], rest, p);
    } else {
      assert others + rest == rest;
    }
  }

  /** The scan stops at the first "picturePath" pair and decodes its value. */
  lemma ScanFinds(pairs: seq<string>, path: string, p: Services)
    requires p.Valid()
    requires |pairs| > 0 && pairs[0] == QueryPair(PICTURE_PATH_KEY, p.urlEncode(path))
    ensures ScanPairs(pairs, p) == Success(path)
  {
    PairSplitsAtName(PICTURE_PATH_KEY, p.urlEncode(path));
  }

  /** `getPicturePathFromQuery` on a request URL: a URL without a query makes
      `query.split` throw; a query that does not mention "picturePath" at
      all gives "" without scanning. */
  function PicturePathOf(url: string, p: Services): Result<string, RuntimeFault>
  {
    match p.urlQuery(url)
    case None => Failure(NullPointer)
    case Some(q) => if Contains(q, PICTURE_PATH_KEY) then ScanPairs(Split(q, '&'), p) else Success("")
  }

  /** Once the query mentions "picturePath" and splits into its pieces,
      the result is the scan of those pieces. */
  lemma PicturePathIsScan(url: string, query: string, p: Services)
    requires p.urlQuery(url) == Some(query) && Contains(query, PICTURE_PATH_KEY)
    requires var pairs := Pieces(query, '&'); |pairs| > 1 && pairs[|pairs| - 1] != ""
    ensures PicturePathOf(url, p) == ScanPairs(Pieces(query, '&'), p)
  {
    SplitKeepsPieces(query, '&');
  }

  /** A query with a "picturePath" pair mentions "picturePath". */
  lemma MentionsPicturePath(query: string, others: seq<string>, value: string, tail: seq<string>)
    requires Pieces(query, '&') == others + [QueryPair(PICTURE_PATH_KEY, value)] + tail
    ensures Contains(query, PICTURE_PATH_KEY)
  {
    var picture := QueryPair(PICTURE_PATH_KEY, value);
    assert Pieces(query, '&')[|others|] == picture;
    assert picture[..|PICTURE_PATH_KEY|] == PICTURE_PATH_KEY;
    ContainsPiece(query, '&', |others|, PICTURE_PATH_KEY);
  }

  /** The scan passes the pairs with other names and decodes the picture
      path's value. */
  lemma ScanFindsAfter(others: seq<string>, path: string, tail: seq<string>, p: Services)
    requires p.Valid()
    requires forall i :: 0 <= i < |others| ==> OtherPair(others[i])
    ensures ScanPairs(others + [QueryPair(PICTURE_PATH_KEY, p.urlEncode(path))] + tail, p) == Success(path)
  {
    var picture := QueryPair(PICTURE_PATH_KEY, p.urlEncode(path));
    assert others + [picture] + tail == others + ([picture] + tail);
    ScanSkips(others, [picture] + tail, p);
    ScanFinds([picture] + tail, path, p);
  }

  /** A query whose pairs name the picture path after pairs with other
      names yields that path. */
  lemma FindsPicturePath(url: string, query: string, others: seq<string>, path: string, tail: seq<string>, p: Services)
    requires p.Valid() && p.urlQuery(url) == Some(query)
    requires Pieces(query, '&') == others + [QueryPair(PICTURE_PATH_KEY, p.urlEncode(path))] + tail
    requires |tail| > 0 && tail[|tail| - 1] != ""
    requires forall i :: 0 <= i < |others| ==> OtherPair(others[i])
    ensures PicturePathOf(url, p) == Success(path)
  {
    var pairs := Pieces(query, '&');
    assert pairs[|pairs| - 1] == tail[|tail| - 1];
    MentionsPicturePath(query, others, p.urlEncode(path), tail);
    PicturePathIsScan(url, query, p);
    ScanFindsAfter(others, path, tail, p);
  }

  /** A query none of whose pairs is named "picturePath" yields "". */
  lemma FindsNoPicturePath(url: string, query: string, pairs: seq<string>, p: Services)
    requires p.urlQuery(url) == Some(query) && Pieces(query, '&') == pairs
    requires |pairs| > 1 && pairs[|pairs| - 1] != ""
    requires forall i :: 0 <= i < |pairs| ==> OtherPair(pairs[i])
    ensures PicturePathOf(url, p) == Success("")
  {
    SplitKeepsPieces(query, '&');
    assert pairs + [] == pairs;
    ScanSkips(pairs, [], p);
  }

  method GetPicturePathFromQuery(url: string, p: Services) returns (ret: Result<string, RuntimeFault>)
    ensures ret == PicturePathOf(url, p)
  {
    var query := p.urlQuery(url);
    if query.None? {
      return Failure(NullPointer);
    }
    var pairs := Split(query.value, '&');
    ret := Success("");
    if Contains(query.value, PICTURE_PATH_KEY) {
      var i := 0;
      while i < |pairs|
        invariant 0 <= i <= |pairs|
        invariant ScanPairs(pairs[i..], p) == ScanPairs(pairs, p)
        invariant ret == Success("")
      {
        var pair := pairs[i];
        var idx := IndexOf(pair, '=');
        if idx < 0 {
          return Failure(StringIndexOutOfBounds);
        }
        if pair[..idx] == PICTURE_PATH_KEY {
          var decoded := p.urlDecode(pair[idx + 1..]);
          if decoded.None? {
            return Failure(IllegalArgument);
          }
          ret := Success(decoded.value);
          break;
        }
        assert pairs[i..][1..] == pairs[i + 1..];
        i := i + 1;
      }
    }
  }

  class UserData {
    var name: Option<string>
    var username: Option<string>
    var email: Option<string>
    var org: Option<string>
    var phone: Option<string>
    var picture: Option<string>
    var picturePath: Option<string>
    var gender: Option<string>
    var custom: Option<map<string, string>>
    var customMods: Option<map<string, Json.Value>>
    var byear: int
    var isSynced: bool

    function State(): Profile
      reads this
    {
      Profile(name, username, email, org, phone, picture, picturePath, gender, custom, customMods, byear, isSynced)
    }

    /** The static initialisers: every field null, `byear` 0, synced. */
    constructor ()
      ensures State() == CLEARED
    {
      name, username, email, org, phone, picture, picturePath, gender := None, None, None, None, None, None, None, None;
      custom, customMods := None, None;
      byear := 0;
      isSynced := true;
    }

    method Clear()
      modifies this
      ensures State() == CLEARED
    {
      name := None;
      username := None;
      email := None;
      org := None;
      phone := None;
      picture := None;
      picturePath := None;
      gender := None;
      custom := None;
      customMods := None;
      byear := 0;
      isSynced := true;
    }

    method SetData(data: Option<map<string, string>>, p: Services)
      modifies this
      ensures State() == WithData(old(State()), data, p)
    {
      if data.None? {
        return;
      }
      var d := data.value;
      ghost var s0 := State();
      TakeNames(d);
      TakePicture(d, p);
      byear := TakeYear(d, byear, p);
      isSynced := false;
      SetDataFields(s0, d, p, State());
    }

    /** The first four fields of `setData`. */
    method TakeNames(d: map<string, string>)
      modifies this
      ensures State() == old(State()).(name := Overwrite(d, NAME_KEY, old(name)),
                                         username := Overwrite(d, USERNAME_KEY, old(username)),
                                         email := Overwrite(d, EMAIL_KEY, old(email)),
                                         org := Overwrite(d, ORG_KEY, old(org)))
    {
      name := Overwrite(d, NAME_KEY, name);
      username := Overwrite(d, USERNAME_KEY, username);
      email := Overwrite(d, EMAIL_KEY, email);
      org := Overwrite(d, ORG_KEY, org);
    }

    /** The next four fields of `setData`, with the regular-file check on
        the picture path. */
    method TakePicture(d: map<string, string>, p: Services)
      modifies this
      ensures var path := Overwrite(d, PICTURE_PATH_KEY, old(picturePath));
              State() == old(State()).(phone := Overwrite(d, PHONE_KEY, old(phone)),
                                       picturePath := if path.Some? && !p.isFile(path.value) then None else path,
                                       picture := Overwrite(d, PICTURE_KEY, old(picture)),
                                       gender := Overwrite(d, GENDER_KEY, old(gender)))
    {
      phone := Overwrite(d, PHONE_KEY, phone);
      picturePath := Overwrite(d, PICTURE_PATH_KEY, picturePath);
      picturePath := KeepIfFile(picturePath, p);
      picture := Overwrite(d, PICTURE_KEY, picture);
      gender := Overwrite(d, GENDER_KEY, gender);
    }

    method SetCustomData(data: map<string, string>)
      modifies this
      ensures State() == WithCustomData(old(State()), data)
    {
      if custom.None? {
        custom := Some(map[]);
      }
      custom := Some(custom.value + data);
      isSynced := false;
    }

    method SetCustomProperty(key: string, value: string)
      modifies this
      ensures State() == WithCustomProperty(old(State()), key, value)
    {
      if custom.None? {
        custom := Some(map[]);
      }
      custom := Some(custom.value[key := value]);
      isSynced := false;
    }

    /** `getDataForRequest`: the fragment once per change, then "". */
    method GetDataForRequest(p: Services) returns (result: string)
      modifies this
      ensures State() == old(State()).(isSynced := true)
      ensures result == if old(isSynced) then "" else Fragment(old(State()), p)
    {
      if !isSynced {
        isSynced := true;
        var json := ToJson(State());
        ToJsonIgnoresSync(old(State()), true);
        result := p.jsonText(json);
        result := p.urlEncode(result);
        if result != "" {
          result := "&user_details=" + result;
          if picturePath.Some? {
            result := result + ("&" + PICTURE_PATH_KEY + "=" + p.urlEncode(picturePath.value));
          }
        } else {
          result := "";
          if picturePath.Some? {
            var param := "&user_details&" + PICTURE_PATH_KEY + "=" + p.urlEncode(picturePath.value);
            assert result + param == param;
            result := result + param;
          }
        }
        return;
      }
      result := "";
    }
  }
}
