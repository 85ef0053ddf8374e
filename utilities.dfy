/**
 * Venue identifier resolution and record translation: the parser that takes
 * a venue id out of `foursquare://venues/<id>`, the first-match scan over a
 * payload's seeAlso values, and the translator that writes an external venue
 * record into a storage payload.
 */
module Utilities {
  import opened Wrappers
  import opened Storage

  /** The `location` object of a venue record; coordinates are kept as text. */
  datatype Location = Location(lat: Option<string>, lng: Option<string>, address: Option<string>)

  /** A venue record of the external service: `id`, `name` and an optional `location`. */
  datatype Venue = Venue(id: string, name: string, location: Option<Location>)

  /** The components of a URL as Python 2's `urlparse` splits them. */
  datatype Url = Url(scheme: string, netloc: string, path: string, query: string, fragment: string)

  predicate IsSchemeChar(c: char)
  {
    'a' <= c <= 'z' || 'A' <= c <= 'Z' || '0' <= c <= '9' || c == '+' || c == '-' || c == '.'
  }

  predicate IsDigit(c: char)
  {
    '0' <= c <= '9'
  }

  predicate IsNetlocDelim(c: char)
  {
    c == '/' || c == '?' || c == '#'
  }

  /** No character that ends a netloc, a path or a query occurs in `s`. */
  predicate NoDelims(s: string)
  {
    forall i :: 0 <= i < |s| ==> !IsNetlocDelim(s[i])
  }

  function LowerChar(c: char): char
  {
    if 'A' <= c <= 'Z' then (c as int + 32) as char else c
  }

  /** ASCII lower-casing, as `str.lower()` does for the scheme. */
  function Lower(s: string): (r: string)
    ensures |r| == |s|
    ensures forall i :: 0 <= i < |r| ==> !('A' <= r[i] <= 'Z')
    ensures forall i :: 0 <= i < |s| && !('A' <= s[i] <= 'Z') ==> r[i] == s[i]
    ensures forall i :: 0 <= i < |s| && 'A' <= s[i] <= 'Z' ==> 'a' <= r[i] <= 'z' && r[i] as int - s[i] as int == 32
  {
    seq(|s|, i requires 0 <= i < |s| => LowerChar(s[i]))
  }

  /** Lower-casing twice is lower-casing once. */
  lemma LowerIdempotent(s: string)
    ensures Lower(Lower(s)) == Lower(s)
  {
  }

  /** `s.find(c)`, with |s| standing for "not found". */
  function Find(s: string, c: char): (k: nat)
    ensures k <= |s|
    ensures forall j :: 0 <= j < k ==> s[j] != c
    ensures k < |s| ==> s[k] == c
  {
    if s == [] then 0 else if s[0] == c then 0 else 1 + Find(s[1..], c)
  }

  /** The index of the first '/', '?' or '#' in `s`, or |s|. */
  function NetlocEnd(s: string): (k: nat)
    ensures k <= |s|
    ensures forall j :: 0 <= j < k ==> !IsNetlocDelim(s[j])
    ensures k < |s| ==> IsNetlocDelim(s[k])
  {
    if s == [] then 0 else if IsNetlocDelim(s[0]) then 0 else 1 + NetlocEnd(s[1..])
  }

  /** Every character of `s` may appear in a scheme. */
  predicate SchemeWord(s: string)
  {
    forall j :: 0 <= j < |s| ==> IsSchemeChar(s[j])
  }

  /** `s` is a non-empty run of digits, that is, a port number. */
  predicate PortNumber(s: string)
  {
    |s| > 0 && forall j :: 0 <= j < |s| ==> IsDigit(s[j])
  }

  /**
   * The scheme and the rest of the URL: the text before the first ':' is the
   * scheme (lower-cased) when it is non-empty, made of scheme characters, and
   * what follows is not a port number.
   */
  function SplitScheme(url: string): (r: (string, string))
    ensures r.0 == "" ==> r.1 == url
    ensures r.0 != "" ==> |r.0| < |url| && url == url[..|r.0|] + ":" + r.1
    ensures r.0 != "" ==> |r.0| < |url| && SchemeWord(url[..|r.0|]) && ':' !in url[..|r.0|] && Lower(url[..|r.0|]) == r.0
    ensures r.0 != "" ==> !PortNumber(r.1)
  {
    var i := Find(url, ':');
    if 0 < i < |url| && SchemeWord(url[..i]) && !PortNumber(url[i + 1..])
    then (Lower(url[..i]), url[i + 1..])
    else ("", url)
  }

  /** After a leading "//", the netloc runs up to the first '/', '?' or '#'. */
  function SplitNetloc(rest: string): (r: (string, string))
    ensures NoDelims(r.0)
    ensures |rest| >= 2 && rest[..2] == "//" ==> rest == "//" + r.0 + r.1 && (r.1 == "" || IsNetlocDelim(r.1[0]))
    ensures !(|rest| >= 2 && rest[..2] == "//") ==> r == ("", rest)
  {
    if |rest| >= 2 && rest[0] == '/' && rest[1] == '/' then
      var d := 2 + NetlocEnd(rest[2..]);
      (rest[2..d], rest[d..])
    else ("", rest)
  }

  /** `s.split(c, 1)` when `c` occurs, else `s` and the empty string. */
  function SplitAt(s: string, c: char): (r: (string, string))
    ensures c !in r.0
    ensures c in s ==> s == r.0 + [c] + r.1
    ensures c !in s ==> r == (s, "")
  {
    var k := Find(s, c);
    if k < |s| then (s[..k], s[k + 1..]) else (s, "")
  }

  /** `urlparse.urlparse(url)` for the components this code reads. */
  function UrlParse(url: string): (r: Result<Url, Exception>)
    ensures r.Err? <==> ('[' in SplitNetloc(SplitScheme(url).1).0) != (']' in SplitNetloc(SplitScheme(url).1).0)
    ensures r.Err? ==> r.error == ValueError("Invalid IPv6 URL")
    ensures r.Ok? ==> NoDelims(r.value.netloc) && '#' !in r.value.path && '?' !in r.value.path && '#' !in r.value.query
  {
    var (scheme, rest) := SplitScheme(url);
    var (netloc, rest2) := SplitNetloc(rest);
    if ('[' in netloc) != (']' in netloc) then Err(ValueError("Invalid IPv6 URL"))
    else
      var (beforeFragment, fragment) := SplitAt(rest2, '#');
      var (path, query) := SplitAt(beforeFragment, '?');
      Ok(Url(scheme, netloc, path, query, fragment))
  }

  /** True when the parsed URL names the venue scheme and host. */
  predicate IsVenueUrl(u: Url)
  {
    u.scheme == "foursquare" && u.netloc == "venues"
  }

  /**
   * `get_foursquare_venue_from_url`: the first path segment of a
   * `foursquare://venues/...` URL, None for any other URL, and the
   * IndexError of `path.split('/')[1]` when the path holds no '/'.
   */
  function GetFoursquareVenueFromUrl(url: string): (r: Result<Option<string>, Exception>)
    ensures UrlParse(url).Err? ==> r == Err(ValueError("Invalid IPv6 URL"))
    ensures r.Err? <==> UrlParse(url).Err? || (IsVenueUrl(UrlParse(url).value) && '/' !in UrlParse(url).value.path)
    ensures UrlParse(url).Ok? && !IsVenueUrl(UrlParse(url).value) ==> r == Ok(None)
    ensures r.Ok? && r.value.Some? ==> '/' !in r.value.value
  {
    match UrlParse(url)
    case Err(e) => Err(e)
    case Ok(u) => VenueOfUrl(u)
  }

  /** The venue named by an already parsed URL. */
  function VenueOfUrl(u: Url): (r: Result<Option<string>, Exception>)
    ensures !IsVenueUrl(u) ==> r == Ok(None)
    ensures r.Err? <==> IsVenueUrl(u) && '/' !in u.path
    ensures r.Err? ==> r.error == IndexError
    ensures r.Ok? && r.value.Some? ==> IsVenueUrl(u) && '/' !in r.value.value
  {
    if IsVenueUrl(u) then
      var k := Find(u.path, '/');
      if k == |u.path| then Err(IndexError)
      else
        var rest := u.path[k + 1..];
        Ok(Some(rest[..Find(rest, '/')]))
    else Ok(None)
  }

  /** Python truthiness of a parsed venue: None and '' are false. */
  predicate Truthy(v: Option<string>)
  {
    v.Some? && v.value != ""
  }

  /**
   * The seeAlso loop over already parsed values: stop at the first truthy
   * venue or the first exception; when no venue is truthy the last value
   * parsed is the result.
   */
  function ScanParsed(parsed: seq<Result<Option<string>, Exception>>): (r: Result<Option<string>, Exception>)
    ensures r.Ok? && Truthy(r.value) ==> r in parsed
    ensures r.Err? ==> r in parsed
  {
    if parsed == [] then Ok(None)
    else match parsed[0]
      case Err(e) => Err(e)
      case Ok(v) => if Truthy(v) || |parsed| == 1 then Ok(v) else ScanParsed(parsed[1..])
  }

  /** Every value parsed by `parse`, in order. */
  function ParseAll(parse: string -> Result<Option<string>, Exception>, values: seq<string>): seq<Result<Option<string>, Exception>>
  {
    seq(|values|, i requires 0 <= i < |values| => parse(values[i]))
  }

  /** The first-match scan over seeAlso values shared by the resolver and the lookup. */
  function ScanSeeAlso(values: seq<string>): (r: Result<Option<string>, Exception>)
    ensures r.Ok? && Truthy(r.value) ==>
      exists j :: 0 <= j < |values| && GetFoursquareVenueFromUrl(values[j]) == r
    ensures values == [] ==> r == Ok(None)
  {
    var parsed := ParseAll(GetFoursquareVenueFromUrl, values);
    var r := ScanParsed(parsed);
    assert r.Ok? && Truthy(r.value) ==> exists j :: 0 <= j < |values| && GetFoursquareVenueFromUrl(values[j]) == r by {
      if r.Ok? && Truthy(r.value) {
        var j :| 0 <= j < |parsed| && parsed[j] == r;
      }
    }
    r
  }

  /** `get_foursquare_venue`: only a SpatialThing payload is scanned. */
  function GetFoursquareVenue(p: Record): (r: Result<Option<string>, Exception>)
    ensures SpatialThing !in p.types ==> r == Ok(None)
    ensures r.Ok? && Truthy(r.value) ==>
      SpatialThing in p.types && exists v :: v in Values(p, SeeAlso) && GetFoursquareVenueFromUrl(v) == r
  {
    if SpatialThing in p.types then ScanSeeAlso(Values(p, SeeAlso)) else Ok(None)
  }

  /** The canonical reference URI of a venue id. */
  function VenueUri(id: string): string
  {
    "foursquare://venues/" + id
  }

  /**
   * The payload after `foursquare_to_storage`: type SpatialThing, seeAlso and
   * name are added; lat and long only when the location has both.  When the
   * record has no location the first three additions have happened before
   * the KeyError.
   */
  function Translated(v: Venue, p: Record): (r: Record)
    ensures r.about == p.about && r.flags == p.flags
    ensures r.types == p.types + [SpatialThing]
    ensures Values(r, SeeAlso) == Values(p, SeeAlso) + [VenueUri(v.id)]
    ensures Values(r, SchemaName) == Values(p, SchemaName) + [v.name]
    ensures Values(r, Lat) == Values(p, Lat) + (if HasCoordinates(v) then [v.location.value.lat.value] else [])
    ensures Values(r, Long) == Values(p, Long) + (if HasCoordinates(v) then [v.location.value.lng.value] else [])
  {
    DistinctKeys();
    var named := WithProperty(WithProperty(WithType(p, SpatialThing), SeeAlso, VenueUri(v.id)), SchemaName, v.name);
    if HasCoordinates(v) then
      WithProperty(WithProperty(named, Lat, v.location.value.lat.value), Long, v.location.value.lng.value)
    else named
  }

  /** Translation touches no property other than seeAlso, name, lat and long. */
  lemma TranslatedKeepsOtherProperties(v: Venue, p: Record, k: string)
    requires k != SeeAlso && k != SchemaName && k != Lat && k != Long
    ensures Values(Translated(v, p), k) == Values(p, k)
  {
    var named := WithProperty(WithProperty(WithType(p, SpatialThing), SeeAlso, VenueUri(v.id)), SchemaName, v.name);
    assert Values(named, k) == Values(p, k);
  }

  /** The record's location has both `lat` and `lng`. */
  predicate HasCoordinates(v: Venue)
  {
    v.location.Some? && v.location.value.lat.Some? && v.location.value.lng.Some?
  }

  /**
   * `foursquare_to_storage`: writes the venue into `storage` in place and
   * returns the same object, or raises KeyError('location').
   */
  method FoursquareToStorage(venue: Venue, storage: StoragePayload) returns (r: Result<StoragePayload, Exception>)
    modifies storage
    ensures storage.Snapshot() == Translated(venue, old(storage.Snapshot()))
    ensures r == if venue.location.Some? then Ok(storage) else Err(KeyError("location"))
  {
    storage.AddType(SpatialThing);
    storage.AddProperty(SeeAlso, VenueUri(venue.id));
    storage.AddProperty(SchemaName, venue.name);
    if venue.location.None? {
      return Err(KeyError("location"));
    }
    var location := venue.location.value;
    if location.lat.Some? && location.lng.Some? {
      storage.AddProperty(Lat, location.lat.value);
      storage.AddProperty(Long, location.lng.value);
    }
    assert HasCoordinates(venue) == (location.lat.Some? && location.lng.Some?);
    r := Ok(storage);
  }

  /** The seeAlso loop written as the source writes it, with an early break. */
  method FirstVenue(values: seq<string>) returns (venue: Result<Option<string>, Exception>)
    ensures venue == ScanSeeAlso(values)
  {
    venue := Ok(None);
    var i := 0;
    while i < |values|
      invariant 0 <= i <= |values|
      invariant ScanSeeAlso(values) == if i == |values| then venue else ScanParsed(ParseAll(GetFoursquareVenueFromUrl, values)[i..])
    {
      ghost var all := ParseAll(GetFoursquareVenueFromUrl, values);
      assert all[i..][1..] == all[i + 1..];
      assert all[i..][0] == GetFoursquareVenueFromUrl(values[i]);
      var parsed := GetFoursquareVenueFromUrl(values[i]);
      if parsed.Err? {
        return parsed;
      }
      venue := parsed;
      if Truthy(venue.value) {
        break;
      }
      i := i + 1;
    }
  }

  // ---------------------------------------------------------------------
  // Properties of resolution and translation

  lemma {:induction false} FindAppend(a: string, b: string, c: char)
    requires c !in a
    ensures Find(a + b, c) == |a| + Find(b, c)
  {
    if a == [] {
      assert a + b == b;
    } else {
      assert (a + b)[0] == a[0];
      assert (a + b)[1..] == a[1..] + b;
      FindAppend(a[1..], b, c);
    }
  }

  lemma {:induction false} NetlocEndAppend(a: string, b: string)
    requires NoDelims(a)
    ensures NetlocEnd(a + b) == |a| + NetlocEnd(b)
  {
    if a == [] {
      assert a + b == b;
    } else {
      assert (a + b)[0] == a[0];
      assert (a + b)[1..] == a[1..] + b;
      NetlocEndAppend(a[1..], b);
    }
  }

  /** A scheme word followed by ':' and a rest that is not a port number. */
  lemma SchemeSplit(w: string, rest: string)
    requires w != "" && ':' !in w && SchemeWord(w)
    requires !PortNumber(rest)
    ensures SplitScheme(w + ":" + rest) == (Lower(w), rest)
  {
    var url := w + ":" + rest;
    assert url == w + (":" + rest);
    FindAppend(w, ":" + rest, ':');
    assert url[..|w|] == w;
    assert url[|w| + 1..] == rest;
  }

  /** "//" followed by a host free of delimiters and a tail that starts with one. */
  lemma NetlocSplit(host: string, tail: string)
    requires NoDelims(host)
    requires tail == "" || IsNetlocDelim(tail[0])
    ensures SplitNetloc("//" + host + tail) == (host, tail)
  {
    var rest := "//" + host + tail;
    assert rest[2..] == host + tail;
    NetlocEndAppend(host, tail);
    assert NetlocEnd(tail) == 0;
    assert rest[2..2 + |host|] == host;
    assert rest[2 + |host|..] == tail;
  }

  lemma SplitAtAbsent(s: string, c: char)
    requires c !in s
    ensures SplitAt(s, c) == (s, "")
  {
  }

  lemma VenueWords()
    ensures SchemeWord("foursquare") && ':' !in "foursquare" && Lower("foursquare") == "foursquare"
    ensures NoDelims("venues") && '[' !in "venues" && ']' !in "venues"
  {
  }

  /** A reference URI splits into scheme `foursquare`, host `venues` and path `/<id>`. */
  lemma VenueUriParse(id: string)
    requires NoDelims(id)
    ensures UrlParse(VenueUri(id)) == Ok(Url("foursquare", "venues", "/" + id, "", ""))
  {
    var tail := "/" + id;
    var rest := "//" + "venues" + tail;
    VenueWords();
    assert VenueUri(id) == "foursquare" + ":" + rest;
    assert rest[0] == '/';
    SchemeSplit("foursquare", rest);
    NetlocSplit("venues", tail);
    assert '#' !in tail && '?' !in tail by {
      forall i | 0 <= i < |tail| ensures tail[i] != '#' && tail[i] != '?' {
        if i > 0 { assert tail[i] == id[i - 1]; }
      }
    }
    SplitAtAbsent(tail, '#');
    SplitAtAbsent(tail, '?');
  }

  /**
   * Round trip: the reference URI built for an id without '/', '?' or '#'
   * resolves back to that id (including the empty id, which callers treat
   * as no venue).
   */
  lemma VenueUriRoundTrip(id: string)
    requires NoDelims(id)
    ensures GetFoursquareVenueFromUrl(VenueUri(id)) == Ok(Some(id))
  {
    VenueUriParse(id);
    assert '/' !in id by {
      forall i | 0 <= i < |id| ensures id[i] != '/' { assert !IsNetlocDelim(id[i]); }
    }
    VenueOfSegmentPath(id);
  }

  /**
   * For the venue scheme and host, the venue is the text between the first
   * and the second '/' of the path (or the end of the path).
   */
  lemma VenueIsFirstSegment(u: Url, before: string, id: string, after: string)
    requires IsVenueUrl(u) && u.path == before + "/" + id + after
    requires '/' !in before && '/' !in id
    requires after == "" || after[0] == '/'
    ensures VenueOfUrl(u) == Ok(Some(id))
  {
    SecondSegment(u.path, before, id, after);
  }

  lemma SecondSegment(path: string, before: string, id: string, after: string)
    requires path == before + "/" + id + after
    requires '/' !in before && '/' !in id
    requires after == "" || after[0] == '/'
    ensures Find(path, '/') == |before| < |path|
    ensures var rest := path[|before| + 1..]; rest[..Find(rest, '/')] == id
  {
    var tail := "/" + id + after;
    assert path == before + tail;
    FindAppend(before, tail, '/');
    var rest := path[|before| + 1..];
    assert rest == id + after;
    FindAppend(id, after, '/');
    assert rest[..|id|] == id;
  }

  /**
   * A URL that parses but does not name the venue scheme and host yields no
   * venue; a venue is only ever taken from a `foursquare://venues` URL.
   */
  lemma OtherUrlsNameNoVenue(url: string)
    ensures UrlParse(url).Ok? && !IsVenueUrl(UrlParse(url).value) ==> GetFoursquareVenueFromUrl(url) == Ok(None)
    ensures GetFoursquareVenueFromUrl(url).Ok? && GetFoursquareVenueFromUrl(url).value.Some? ==>
      UrlParse(url).Ok? && IsVenueUrl(UrlParse(url).value)
  {
  }

  lemma VenueOfSegmentPath(id: string)
    requires '/' !in id
    ensures VenueOfUrl(Url("foursquare", "venues", "/" + id, "", "")) == Ok(Some(id))
  {
    var tail := "/" + id;
    assert Find(tail, '/') == 0;
    assert tail[1..] == id;
    assert Find(id, '/') == |id|;
    assert id[..|id|] == id;
  }

  lemma VenuesPrefix(tail: string)
    ensures "foursquare://venues" + tail == "foursquare" + ":" + ("//" + "venues" + tail)
  {
    assert "foursquare://venues" == "foursquare" + ":" + "//" + "venues";
  }

  /**
   * `foursquare://venues` followed by nothing, a query or a fragment has an
   * empty path, so `split('/')[1]` is out of range.
   */
  lemma EmptyPathIsIndexError(tail: string)
    requires tail == "" || tail[0] == '?' || tail[0] == '#'
    ensures GetFoursquareVenueFromUrl("foursquare://venues" + tail) == Err(IndexError)
  {
    var rest := "//" + "venues" + tail;
    VenueWords();
    VenuesPrefix(tail);
    assert rest[0] == '/';
    SchemeSplit("foursquare", rest);
    NetlocSplit("venues", tail);
    var (beforeFragment, _) := SplitAt(tail, '#');
    assert beforeFragment == "" || beforeFragment[0] == '?';
    assert SplitAt(beforeFragment, '?').0 == "";
  }

  lemma {:induction false} ScanParsedFirstWins(parsed: seq<Result<Option<string>, Exception>>, k: nat)
    requires k < |parsed|
    requires forall j :: 0 <= j < k ==> parsed[j].Ok? && !Truthy(parsed[j].value)
    requires parsed[k].Ok? && Truthy(parsed[k].value)
    ensures ScanParsed(parsed) == parsed[k]
  {
    if k > 0 {
      assert parsed[0].Ok?;
      assert parsed[1..][k - 1] == parsed[k];
      ScanParsedFirstWins(parsed[1..], k - 1);
    }
  }

  /**
   * The first value that raises stops the scan when every value before it
   * parsed to something not truthy: its exception is the result.
   */
  lemma {:induction false} ScanParsedFirstErrorWins(parsed: seq<Result<Option<string>, Exception>>, k: nat)
    requires k < |parsed|
    requires forall j :: 0 <= j < k ==> parsed[j].Ok? && !Truthy(parsed[j].value)
    requires parsed[k].Err?
    ensures ScanParsed(parsed) == parsed[k]
  {
    if k > 0 {
      assert parsed[0].Ok?;
      assert parsed[1..][k - 1] == parsed[k];
      ScanParsedFirstErrorWins(parsed[1..], k - 1);
    }
  }

  /**
   * A malformed `foursquare://venues` reference stored before a valid one
   * makes the scan raise IndexError, so the valid reference is never reached.
   */
  lemma MalformedReferenceHidesLater(id: string)
    requires NoDelims(id)
    ensures ScanSeeAlso(["foursquare://venues", VenueUri(id)]) == Err(IndexError)
  {
    EmptyPathIsIndexError("");
    assert "foursquare://venues" + "" == "foursquare://venues";
    var values := ["foursquare://venues", VenueUri(id)];
    ScanParsedFirstErrorWins(ParseAll(GetFoursquareVenueFromUrl, values), 0);
  }

  /**
   * Among seeAlso values in stored order, the first that yields a truthy
   * venue is the result, provided every value before it parsed without
   * raising.
   */
  lemma ScanFirstVenueWins(values: seq<string>, k: nat)
    requires k < |values|
    requires forall j :: 0 <= j < k ==>
      GetFoursquareVenueFromUrl(values[j]).Ok? && !Truthy(GetFoursquareVenueFromUrl(values[j]).value)
    requires GetFoursquareVenueFromUrl(values[k]).Ok? && Truthy(GetFoursquareVenueFromUrl(values[k]).value)
    ensures ScanSeeAlso(values) == GetFoursquareVenueFromUrl(values[k])
  {
    ScanParsedFirstWins(ParseAll(GetFoursquareVenueFromUrl, values), k);
  }

  lemma {:induction false} ScanParsedIgnoresLater(parsed: seq<Result<Option<string>, Exception>>, later: seq<Result<Option<string>, Exception>>)
    requires ScanParsed(parsed).Ok? && Truthy(ScanParsed(parsed).value)
    ensures ScanParsed(parsed + later) == ScanParsed(parsed)
  {
    assert (parsed + later)[0] == parsed[0];
    if parsed[0].Ok? && !Truthy(parsed[0].value) {
      assert (parsed + later)[1..] == parsed[1..] + later;
      ScanParsedIgnoresLater(parsed[1..], later);
    }
  }

  /** Once a truthy venue has been found, later seeAlso values are ignored. */
  lemma ScanIgnoresLater(values: seq<string>, later: seq<string>)
    requires ScanSeeAlso(values).Ok? && Truthy(ScanSeeAlso(values).value)
    ensures ScanSeeAlso(values + later) == ScanSeeAlso(values)
  {
    ParseAllAppend(GetFoursquareVenueFromUrl, values, later);
    ScanParsedIgnoresLater(ParseAll(GetFoursquareVenueFromUrl, values), ParseAll(GetFoursquareVenueFromUrl, later));
  }

  lemma ParseAllAppend(parse: string -> Result<Option<string>, Exception>, a: seq<string>, b: seq<string>)
    ensures ParseAll(parse, a + b) == ParseAll(parse, a) + ParseAll(parse, b)
  {
    var l, r := ParseAll(parse, a + b), ParseAll(parse, a) + ParseAll(parse, b);
    forall i | 0 <= i < |l| ensures l[i] == r[i] {
      if i < |a| { assert (a + b)[i] == a[i]; } else { assert (a + b)[i] == b[i - |a|]; }
    }
  }

  /**
   * Round trip through a payload: translating a venue whose id is non-empty
   * and free of '/', '?' and '#' into a payload whose earlier seeAlso values
   * name no venue makes `get_foursquare_venue` return that id.
   */
  lemma TranslateThenResolve(v: Venue, p: Record)
    requires v.id != "" && NoDelims(v.id)
    requires forall s :: s in Values(p, SeeAlso) ==>
      GetFoursquareVenueFromUrl(s).Ok? && !Truthy(GetFoursquareVenueFromUrl(s).value)
    ensures GetFoursquareVenue(Translated(v, p)) == Ok(Some(v.id))
  {
    VenueUriRoundTrip(v.id);
    ScanAfterUnnamed(Values(p, SeeAlso), VenueUri(v.id));
  }

  /** A venue reference appended after values that name no venue is the one found. */
  lemma ScanAfterUnnamed(prefix: seq<string>, url: string)
    requires forall s :: s in prefix ==>
      GetFoursquareVenueFromUrl(s).Ok? && !Truthy(GetFoursquareVenueFromUrl(s).value)
    requires GetFoursquareVenueFromUrl(url).Ok? && Truthy(GetFoursquareVenueFromUrl(url).value)
    ensures ScanSeeAlso(prefix + [url]) == GetFoursquareVenueFromUrl(url)
  {
    var values := prefix + [url];
    forall j | 0 <= j < |prefix|
      ensures GetFoursquareVenueFromUrl(values[j]).Ok? && !Truthy(GetFoursquareVenueFromUrl(values[j]).value)
    {
      assert values[j] == prefix[j] && prefix[j] in prefix;
    }
    assert values[|prefix|] == url;
    ScanFirstVenueWins(values, |prefix|);
  }

  /**
   * The repository's utilities test, for every id of its shape: a
   * SpatialThing payload holding one venue reference resolves to the last
   * segment of that reference.
   */
  lemma UtilitiesTestCase(id: string)
    requires id != "" && NoDelims(id)
    ensures GetFoursquareVenue(WithProperty(WithType(EmptyRecord, SpatialThing), SeeAlso, VenueUri(id))) == Ok(Some(id))
  {
    VenueUriRoundTrip(id);
    var p := WithProperty(WithType(EmptyRecord, SpatialThing), SeeAlso, VenueUri(id));
    assert Values(p, SeeAlso) == [VenueUri(id)];
    ScanFirstVenueWins([VenueUri(id)], 0);
  }
}
