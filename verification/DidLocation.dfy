/**
 * From the public base URL of the agent to its DID and back.
 *
 * Models `derivePublicDidLocation` and `getDidWebHttpsBaseUrl` of
 * packages/agent-sdk/src/utils/typeMetadata.ts with `getLegacyDidWeb` of
 * packages/agent-sdk/src/did/legacyDidWeb.ts, for URLs whose parts the URL parser has already separated.
 * The mapping is the one of the section "Read (Resolve)" of the did:web method specification and of the
 * section "The DID to HTTPS Transformation" of did:webvh v1.0. `decodeURIComponent` is modelled for
 * escapes below %80; another escape is `None`, like a malformed one. `parseDid` is modelled by the grammar
 * of a method-specific id, section 3.1 of Decentralized Identifiers (DIDs) v1.0; what it throws is `None`.
 */
module DidLocation {
  import opened Options

  /** The parts of an https URL: the host, the port if it is not the default one, the non-empty path segments. */
  datatype Url = Url(host: string, port: Option<string>, segments: seq<string>)

  // ---------------------------------------------------------------- from URL to DID

  function Join(parts: seq<string>, separator: char): string {
    if parts == [] then ""
    else if |parts| == 1 then parts[0]
    else parts[0] + [separator] + Join(parts[1..], separator)
  }

  function Domain(u: Url): string {
    if u.port.Some? then u.host + "%3A" + u.port.value else u.host
  }

  /** `location`: the method-specific id of the did:web. */
  function Location(u: Url): string {
    Join([Domain(u)] + u.segments, ':')
  }

  /** `normalizedBaseUrl`: the origin and the path segments. */
  function BaseUrl(u: Url): string {
    var authority := if u.port.Some? then u.host + ":" + u.port.value else u.host;
    "https://" + authority + (if u.segments == [] then "" else "/" + Join(u.segments, '/'))
  }

  function DidWeb(u: Url): string {
    "did:web:" + Location(u)
  }

  function DidWebVh(scid: string, u: Url): string {
    "did:webvh:" + scid + ":" + Location(u)
  }

  // ---------------------------------------------------------------- from DID to URL

  /** The parts between colons. */
  function Split(s: string): (parts: seq<string>)
    ensures parts != []
  {
    if s == "" then [""]
    else
      var rest := Split(s[1..]);
      if s[0] == ':' then [""] + rest else [[s[0]] + rest[0]] + rest[1..]
  }

  function HexValue(c: char): Option<nat> {
    if '0' <= c <= '9' then Some(c as nat - '0' as nat)
    else if 'a' <= c <= 'f' then Some(c as nat - 'a' as nat + 10)
    else if 'A' <= c <= 'F' then Some(c as nat - 'A' as nat + 10)
    else None
  }

  /** The character of an escape at the beginning of `s`. */
  function EscapeAt(s: string): Option<char> {
    if |s| < 3 || HexValue(s[1]).None? || HexValue(s[2]).None? then None
    else
      var n := HexValue(s[1]).value * 16 + HexValue(s[2]).value;
      if n < 128 then Some(n as char) else None
  }

  function Cons(c: char, rest: Option<string>): Option<string> {
    if rest.Some? then Some([c] + rest.value) else None
  }

  /** `decodeURIComponent`. */
  function Decode(s: string): Option<string> {
    if s == "" then Some("")
    else if s[0] != '%' then Cons(s[0], Decode(s[1..]))
    else if EscapeAt(s).None? then None
    else Cons(EscapeAt(s).value, Decode(s[3..]))
  }

  /** The decoded parts with slashes in between. */
  function DecodePath(parts: seq<string>): Option<string>
    requires parts != []
  {
    var first := Decode(parts[0]);
    if |parts| == 1 then first
    else
      var rest := DecodePath(parts[1..]);
      if first.Some? && rest.Some? then Some(first.value + "/" + rest.value) else None
  }

  predicate StartsWith(s: string, prefix: string) {
    |prefix| <= |s| && s[..|prefix|] == prefix
  }

  predicate IsPlainChar(c: char) {
    'a' <= c <= 'z' || 'A' <= c <= 'Z' || '0' <= c <= '9' || c == '.' || c == '-' || c == '_'
  }

  /** Id characters, escapes and colons. */
  predicate IdChars(s: string) {
    if s == "" then true
    else if s[0] == '%' then |s| >= 3 && HexValue(s[1]).Some? && HexValue(s[2]).Some? && IdChars(s[3..])
    else (s[0] == ':' || IsPlainChar(s[0])) && IdChars(s[1..])
  }

  /** A method-specific id that `parseDid` accepts: its last part is not empty. */
  predicate ValidId(s: string) {
    s != "" && s[|s| - 1] != ':' && IdChars(s)
  }

  /** What follows the first colon. */
  function AfterColon(s: string): Option<string> {
    if s == "" then None else if s[0] == ':' then Some(s[1..]) else AfterColon(s[1..])
  }

  /** `getLegacyDidWeb`: the did:web id of a did:web or of a did:webvh without its SCID. */
  function LegacyDidWebId(did: string): Option<string> {
    if StartsWith(did, "did:web:") && ValidId(did[8..]) then Some(did[8..])
    else if StartsWith(did, "did:webvh:") && ValidId(did[10..]) then AfterColon(did[10..])
    else None
  }

  /** `getDidWebHttpsBaseUrl`. */
  function HttpsBaseUrl(did: string): Option<string> {
    var id := LegacyDidWebId(did);
    if id.None? || !ValidId(id.value) then None
    else
      var path := DecodePath(Split(id.value));
      if path.None? then None else Some("https://" + path.value)
  }

  // ---------------------------------------------------------------- the mapping, character by character

  /** Colons become slashes and escapes are decoded, in one pass. */
  function Translate(s: string): Option<string> {
    if s == "" then Some("")
    else if s[0] == ':' then Cons('/', Translate(s[1..]))
    else if s[0] != '%' then Cons(s[0], Translate(s[1..]))
    else if EscapeAt(s).None? then None
    else Cons(EscapeAt(s).value, Translate(s[3..]))
  }

  lemma SplitStep(s: string)
    requires s != "" && s[0] != ':'
    ensures Split(s)[0] == [s[0]] + Split(s[1..])[0] && Split(s)[1..] == Split(s[1..])[1..]
  {
  }

  /** The first part ends where the first colon is. */
  lemma {:induction false} FirstPart(s: string)
    ensures var p := Split(s)[0]; p <= s && ':' !in p && (|p| < |s| ==> s[|p|] == ':')
  {
    if s != "" && s[0] != ':' {
      SplitStep(s);
      FirstPart(s[1..]);
      assert s == [s[0]] + s[1..];
    }
  }

  lemma EscapeInFirstPart(s: string)
    requires s != "" && s[0] == '%'
    ensures EscapeAt(Split(s)[0]) == EscapeAt(s)
  {
    FirstPart(s);
    var p := Split(s)[0];
    assert forall k :: 0 <= k < |p| ==> p[k] == s[k];
  }

  /** An escape lies within one part. */
  lemma SplitEscape(s: string)
    requires |s| >= 1 && s[0] == '%' && EscapeAt(s).Some?
    ensures |Split(s)[0]| >= 3 && Split(s)[0][3..] == Split(s[3..])[0] && Split(s)[1..] == Split(s[3..])[1..]
  {
    SplitStep(s);
    SplitStep(s[1..]);
    assert s[1..][1..] == s[2..];
    SplitStep(s[2..]);
    assert s[2..][1..] == s[3..];
    assert Split(s)[0] == [s[0], s[1], s[2]] + Split(s[3..])[0];
  }

  /** A character in front of the first part is a character in front of the path. */
  lemma PathCons(parts: seq<string>, tail: seq<string>, c: char)
    requires parts != [] && tail != [] && parts[1..] == tail[1..]
    requires Decode(parts[0]) == Cons(c, Decode(tail[0]))
    ensures DecodePath(parts) == Cons(c, DecodePath(tail))
  {
    if |parts| > 1 && Decode(tail[0]).Some? && DecodePath(tail[1..]).Some? {
      var x, y := Decode(tail[0]).value, DecodePath(tail[1..]).value;
      assert ([c] + x) + "/" + y == [c] + (x + "/" + y);
    }
  }

  lemma {:induction false} PathIsTranslation(s: string)
    ensures DecodePath(Split(s)) == Translate(s)
    decreases |s|
  {
    if s == "" {
    } else if s[0] == ':' {
      PathIsTranslation(s[1..]);
      assert Split(s)[1..] == Split(s[1..]);
      if Translate(s[1..]).Some? {
        assert "" + "/" + Translate(s[1..]).value == ['/'] + Translate(s[1..]).value;
      }
    } else if s[0] != '%' {
      PathIsTranslation(s[1..]);
      SplitStep(s);
      assert Split(s)[0][1..] == Split(s[1..])[0];
      PathCons(Split(s), Split(s[1..]), s[0]);
    } else {
      SplitStep(s);
      EscapeInFirstPart(s);
      if EscapeAt(s).Some? {
        SplitEscape(s);
        PathIsTranslation(s[3..]);
        PathCons(Split(s), Split(s[3..]), EscapeAt(s).value);
      }
    }
  }

  function Count(s: string, c: char): nat {
    if s == "" then 0 else (if s[0] == c then 1 else 0) + Count(s[1..], c)
  }

  lemma {:induction false} CountAppend(s: string, t: string, c: char)
    ensures Count(s + t, c) == Count(s, c) + Count(t, c)
    decreases |s|
  {
    if s == "" {
      assert s + t == t;
    } else {
      assert (s + t)[1..] == s[1..] + t;
      CountAppend(s[1..], t, c);
    }
  }

  lemma {:induction false} CountZero(s: string, c: char)
    ensures Count(s, c) == 0 <==> c !in s
  {
    if s != "" {
      CountZero(s[1..], c);
      assert s == [s[0]] + s[1..];
    }
  }

  /** Every escape makes the text two characters shorter. */
  lemma {:induction false} TranslateShortens(s: string)
    requires Translate(s).Some?
    ensures |Translate(s).value| == |s| - 2 * Count(s, '%')
    decreases |s|
  {
    if s == "" {
    } else if s[0] != '%' {
      TranslateShortens(s[1..]);
    } else {
      TranslateShortens(s[3..]);
      assert s[1..] == [s[1], s[2]] + s[3..];
      CountAppend([s[1], s[2]], s[3..], '%');
      assert Count([s[1], s[2]], '%') == 0 by {
        CountZero([s[1], s[2]], '%');
      }
    }
  }

  /** Colons become slashes. */
  function Slashed(s: string): string {
    seq(|s|, k requires 0 <= k < |s| => if s[k] == ':' then '/' else s[k])
  }

  lemma {:induction false} TranslatePlain(s: string, t: string)
    requires '%' !in s
    ensures Translate(s + t).Some? <==> Translate(t).Some?
    ensures Translate(t).Some? ==> Translate(s + t).value == Slashed(s) + Translate(t).value
    decreases |s|
  {
    if s == "" {
      assert s + t == t;
    } else {
      assert (s + t)[1..] == s[1..] + t;
      assert s == [s[0]] + s[1..];
      TranslatePlain(s[1..], t);
      assert Slashed(s) == [if s[0] == ':' then '/' else s[0]] + Slashed(s[1..]);
    }
  }

  // ---------------------------------------------------------------- the round trip

  /** Every segment behind a separator. */
  function Tail(segments: seq<string>, separator: char): string {
    if segments == [] then "" else [separator] + segments[0] + Tail(segments[1..], separator)
  }

  lemma {:induction false} JoinIsTail(first: string, segments: seq<string>, separator: char)
    ensures Join([first] + segments, separator) == first + Tail(segments, separator)
    decreases |segments|
  {
    if segments == [] {
    } else {
      assert ([first] + segments)[1..] == [segments[0]] + segments[1..];
      JoinIsTail(segments[0], segments[1..], separator);
    }
  }

  function Authority(u: Url): string {
    if u.port.Some? then u.host + ":" + u.port.value else u.host
  }

  lemma BaseIsTail(u: Url)
    ensures BaseUrl(u) == "https://" + (Authority(u) + Tail(u.segments, '/'))
  {
    if u.segments != [] {
      assert u.segments == [u.segments[0]] + u.segments[1..];
      JoinIsTail(u.segments[0], u.segments[1..], '/');
    }
  }

  /** No part of the path contains the character. */
  predicate Free(segments: seq<string>, c: char) {
    forall k :: 0 <= k < |segments| ==> c !in segments[k]
  }

  lemma {:induction false} TailIsFree(segments: seq<string>)
    ensures '%' !in Tail(segments, ':') <==> Free(segments, '%')
    ensures |Tail(segments, ':')| == |Tail(segments, '/')|
  {
    if segments != [] {
      TailIsFree(segments[1..]);
    }
  }

  lemma SlashedAppend(s: string, t: string)
    ensures Slashed(s + t) == Slashed(s) + Slashed(t)
  {
  }

  lemma SlashedSame(s: string)
    ensures Slashed(s) == s <==> ':' !in s
  {
    if ':' in s {
      var k :| 0 <= k < |s| && s[k] == ':';
      assert Slashed(s)[k] == '/';
    }
  }

  lemma SameHalves(a: string, b: string, c: string, d: string)
    requires |a| == |c| && a + b == c + d
    ensures a == c && b == d
  {
    assert a == (a + b)[..|a|] && c == (c + d)[..|c|];
    assert b == (a + b)[|a|..] && d == (c + d)[|c|..];
  }

  /** The path of the DID becomes the path of the URL exactly when no segment contains a colon. */
  lemma {:induction false} SlashedTail(segments: seq<string>)
    ensures Slashed(Tail(segments, ':')) == Tail(segments, '/') <==> Free(segments, ':')
  {
    if segments != [] {
      var rest := segments[1..];
      SlashedTail(rest);
      TailIsFree(rest);
      SlashedSame(segments[0]);
      SlashedAppend([':'] + segments[0], Tail(rest, ':'));
      SlashedAppend([':'], segments[0]);
      assert Slashed([':']) == ['/'];
      if Slashed(Tail(segments, ':')) == Tail(segments, '/') {
        SameHalves(['/'] + Slashed(segments[0]), Slashed(Tail(rest, ':')), ['/'] + segments[0], Tail(rest, '/'));
        SameHalves(['/'], Slashed(segments[0]), ['/'], segments[0]);
      }
    }
  }

  lemma TranslateAll(s: string)
    requires '%' !in s
    ensures Translate(s) == Some(Slashed(s))
  {
    TranslatePlain(s, "");
    assert s + "" == s && Slashed(s) + "" == Slashed(s);
  }

  predicate IsPlain(s: string) {
    forall k :: 0 <= k < |s| ==> IsPlainChar(s[k])
  }

  /** What the URL parser gives: a host, a port in decimal digits, and no empty segment. */
  predicate ValidUrl(u: Url) {
    && u.host != ""
    && (u.port.Some? ==> u.port.value != "" && forall k :: 0 <= k < |u.port.value| ==> '0' <= u.port.value[k] <= '9')
    && (forall k :: 0 <= k < |u.segments| ==> u.segments[k] != "")
  }

  /** Host and path segments consist of letters, digits, dots, hyphens and underscores. */
  predicate PlainUrl(u: Url) {
    IsPlain(u.host) && forall k :: 0 <= k < |u.segments| ==> IsPlain(u.segments[k])
  }

  lemma LocationParts(u: Url)
    ensures Location(u) == Domain(u) + Tail(u.segments, ':')
    ensures u.port.Some? ==> Location(u) == u.host + ("%3A" + (u.port.value + Tail(u.segments, ':')))
  {
    JoinIsTail(Domain(u), u.segments, ':');
  }

  /** What the location translates to when only the port is escaped. */
  lemma TranslateLocation(u: Url)
    requires ValidUrl(u) && '%' !in u.host && Free(u.segments, '%')
    ensures Translate(Location(u)) ==
            Some(if u.port.Some? then Slashed(u.host) + (":" + (u.port.value + Slashed(Tail(u.segments, ':'))))
                 else Slashed(u.host) + Slashed(Tail(u.segments, ':')))
  {
    var tail := Tail(u.segments, ':');
    LocationParts(u);
    TailIsFree(u.segments);
    TranslateAll(tail);
    if u.port.Some? {
      TranslatePlain(u.port.value, tail);
      SlashedSame(u.port.value);
      var rest := u.port.value + tail;
      assert ("%3A" + rest)[3..] == rest;
      assert EscapeAt("%3A" + rest) == Some(':');
      TranslatePlain(u.host, "%3A" + rest);
    } else {
      TranslatePlain(u.host, tail);
    }
  }

  /** An escape outside the port makes the result too short. */
  lemma EscapesShorten(u: Url)
    requires ValidUrl(u) && Translate(Location(u)) == Some(Authority(u) + Tail(u.segments, '/'))
    ensures '%' !in u.host && Free(u.segments, '%')
  {
    var tail := Tail(u.segments, ':');
    LocationParts(u);
    TailIsFree(u.segments);
    TranslateShortens(Location(u));
    CountAppend(Domain(u), tail, '%');
    if u.port.Some? {
      CountAppend(u.host + "%3A", u.port.value, '%');
      CountAppend(u.host, "%3A", '%');
      CountZero(u.port.value, '%');
      CountZero("3A", '%');
      assert "%3A"[1..] == "3A";
      assert Domain(u) == (u.host + "%3A") + u.port.value;
    }
    CountZero(u.host, '%');
    CountZero(tail, '%');
  }

  lemma BodyIff(u: Url)
    requires '%' !in u.host && Free(u.segments, '%')
    ensures var translated := if u.port.Some? then Slashed(u.host) + (":" + (u.port.value + Slashed(Tail(u.segments, ':'))))
                              else Slashed(u.host) + Slashed(Tail(u.segments, ':'));
            translated == Authority(u) + Tail(u.segments, '/') <==> ':' !in u.host && Free(u.segments, ':')
  {
    var slashed, path := Slashed(Tail(u.segments, ':')), Tail(u.segments, '/');
    SlashedTail(u.segments);
    SlashedSame(u.host);
    if u.port.Some? {
      var port := u.port.value;
      assert Authority(u) + path == u.host + (":" + (port + path));
      if Slashed(u.host) + (":" + (port + slashed)) == u.host + (":" + (port + path)) {
        SameHalves(Slashed(u.host), ":" + (port + slashed), u.host, ":" + (port + path));
        SameHalves(":" + port, slashed, ":" + port, path) by {
          assert (":" + port) + slashed == ":" + (port + slashed) && (":" + port) + path == ":" + (port + path);
        }
      }
    } else if Slashed(u.host) + slashed == u.host + path {
      SameHalves(Slashed(u.host), slashed, u.host, path);
    }
  }

  lemma {:induction false} IdCharsAppend(s: string, t: string)
    requires '%' !in s
    ensures IdChars(s + t) <==> (forall k :: 0 <= k < |s| ==> s[k] == ':' || IsPlainChar(s[k])) && IdChars(t)
    decreases |s|
  {
    if s == "" {
      assert s + t == t;
    } else {
      assert (s + t)[1..] == s[1..] + t && s == [s[0]] + s[1..];
      IdCharsAppend(s[1..], t);
    }
  }

  lemma IdCharsOfPlain(s: string)
    requires '%' !in s && ':' !in s
    ensures IsPlain(s) <==> forall k :: 0 <= k < |s| ==> s[k] == ':' || IsPlainChar(s[k])
  {
  }

  lemma {:induction false} IdCharsOfTail(segments: seq<string>)
    requires Free(segments, '%') && Free(segments, ':')
    ensures IdChars(Tail(segments, ':')) <==> forall k :: 0 <= k < |segments| ==> IsPlain(segments[k])
  {
    if segments != [] {
      IdCharsOfTail(segments[1..]);
      IdCharsOfPlain(segments[0]);
      IdCharsAppend(segments[0], Tail(segments[1..], ':'));
      var tail := segments[0] + Tail(segments[1..], ':');
      assert Tail(segments, ':') == [':'] + tail && ([':'] + tail)[1..] == tail;
      assert segments == [segments[0]] + segments[1..];
    }
  }

  lemma {:induction false} TailEnds(segments: seq<string>)
    requires segments != [] && Free(segments, ':') && forall k :: 0 <= k < |segments| ==> segments[k] != ""
    ensures var t := Tail(segments, ':'); t != "" && t[|t| - 1] != ':'
  {
    if |segments| > 1 {
      TailEnds(segments[1..]);
    } else {
      assert Tail(segments[1..], ':') == "";
    }
  }

  /** Without colons and percent signs in the parts, the location is an id exactly when they are plain. */
  lemma LocationIsIdIff(u: Url)
    requires ValidUrl(u) && '%' !in u.host && ':' !in u.host && Free(u.segments, '%') && Free(u.segments, ':')
    ensures ValidId(Location(u)) <==> PlainUrl(u)
  {
    var tail := Tail(u.segments, ':');
    LocationParts(u);
    IdCharsOfTail(u.segments);
    IdCharsOfPlain(u.host);
    if u.segments != [] {
      TailEnds(u.segments);
    }
    if u.port.Some? {
      var rest := u.port.value + tail;
      IdCharsAppend(u.port.value, tail);
      assert ("%3A" + rest)[3..] == rest;
      IdCharsAppend(u.host, "%3A" + rest);
    } else {
      IdCharsAppend(u.host, tail);
    }
  }

  lemma PlainIsFree(u: Url)
    requires PlainUrl(u)
    ensures '%' !in u.host && ':' !in u.host && Free(u.segments, '%') && Free(u.segments, ':')
  {
  }

  /** The mapping alone gives back the base URL exactly without colons and percent signs in the parts. */
  lemma MappingIff(u: Url)
    requires ValidUrl(u)
    ensures DecodePath(Split(Location(u))) == Some(Authority(u) + Tail(u.segments, '/')) <==>
            '%' !in u.host && ':' !in u.host && Free(u.segments, '%') && Free(u.segments, ':')
  {
    PathIsTranslation(Location(u));
    if Translate(Location(u)) == Some(Authority(u) + Tail(u.segments, '/')) {
      EscapesShorten(u);
    }
    if '%' !in u.host && Free(u.segments, '%') {
      TranslateLocation(u);
      BodyIff(u);
    }
  }

  /**
   * Main result. The DID gives back the base URL exactly when host and path segments consist of letters,
   * digits, dots, hyphens and underscores. Another character is decoded, taken for a separator, or
   * refused.
   */
  lemma RoundTripIff(u: Url)
    requires ValidUrl(u)
    ensures HttpsBaseUrl(DidWeb(u)) == Some(BaseUrl(u)) <==> PlainUrl(u)
  {
    var body := Authority(u) + Tail(u.segments, '/');
    assert DidWeb(u)[..8] == "did:web:" && DidWeb(u)[8..] == Location(u);
    assert DidWeb(u)[7] == ':';
    BaseIsTail(u);
    MappingIff(u);
    if HttpsBaseUrl(DidWeb(u)) == Some(BaseUrl(u)) {
      SameHalves("https://", DecodePath(Split(Location(u))).value, "https://", body);
      LocationIsIdIff(u);
    }
    if PlainUrl(u) {
      PlainIsFree(u);
      LocationIsIdIff(u);
    }
  }

  lemma {:induction false} AfterFirstColon(scid: string, rest: string)
    requires ':' !in scid
    ensures AfterColon(scid + ":" + rest) == Some(rest)
    decreases |scid|
  {
    var s := scid + ":" + rest;
    if scid == "" {
      assert s[1..] == rest;
    } else {
      assert s[1..] == scid[1..] + ":" + rest;
      assert s[0] == scid[0] && scid[0] in scid;
      AfterFirstColon(scid[1..], rest);
    }
  }

  /** The did:webvh of the same location maps to the same URL, whatever its SCID. */
  lemma ScidDoesNotMatter(scid: string, u: Url)
    requires IsPlain(scid)
    ensures HttpsBaseUrl(DidWebVh(scid, u)) == HttpsBaseUrl(DidWeb(u))
  {
    var did, id := DidWebVh(scid, u), scid + ":" + Location(u);
    assert did[..10] == "did:webvh:" && did[10..] == id;
    assert did[7] == 'v' && !StartsWith(did, "did:web:") by {
      assert "did:web:"[7] == ':';
    }
    assert DidWeb(u)[..8] == "did:web:" && DidWeb(u)[8..] == Location(u) && DidWeb(u)[7] == ':';
    AfterFirstColon(scid, Location(u));
    IdCharsAppend(scid + ":", Location(u));
    assert Location(u) == "" ==> id[|id| - 1] == ':';
    assert Location(u) != "" ==> id[|id| - 1] == Location(u)[|Location(u)| - 1];
  }
}
