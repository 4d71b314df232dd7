/**
 * The accessibility cookie: the settings are stored as one `name=value`
 * pair of the cookie string (section 4.2.1 of RFC 6265), with the value the
 * URI-encoded JSON of the settings. Encoding, decoding and JSON parsing are
 * browser services and come in as functions that answer `None` where the
 * browser would throw.
 */
module CookieUtils {
  import opened Options
  import opened Text
  import opened Seqs

  datatype FontSize = Normal | Large | XLarge

  datatype AccessibilitySettings = AccessibilitySettings(fontSize: FontSize, highContrast: bool)

  const CookieName: string := "accessibility"

  /** One year in seconds. */
  const MaxAge: nat := 60 * 60 * 24 * 365

  /** What an entry of the accessibility cookie starts with once trimmed. */
  const Prefix: string := CookieName + "="

  function FontSizeName(f: FontSize): string {
    match f
    case Normal => "normal"
    case Large => "large"
    case XLarge => "xlarge"
  }

  /** `JSON.stringify(settings)`: the two keys in declaration order. */
  function Json(settings: AccessibilitySettings): string {
    "{\"fontSize\":\"" + FontSizeName(settings.fontSize) + "\",\"highContrast\":"
    + (if settings.highContrast then "true" else "false") + "}"
  }

  /** The attributes after the pair: every path, a year, same-site only. */
  const SetAttributes: string := "; Path=/; Max-Age=" + NatToString(MaxAge) + "; SameSite=Strict"

  /** The attributes of clearing: the cookie expires at once. */
  const ClearAttributes: string := "; Path=/; Max-Age=0; SameSite=Strict"

  /** The text `setAccessibilityCookie` assigns: `None` when encoding throws
      (the error is logged and nothing is written). */
  function SetCookieString(settings: AccessibilitySettings, encode: string -> Option<string>): (r: Option<string>)
    ensures r.None? <==> encode(Json(settings)).None?
    ensures r.Some? ==> StartsWith(r.value, Prefix) && EndsWith(r.value, SetAttributes)
  {
    match encode(Json(settings))
    case None => None
    case Some(encoded) =>
      PieceBounds(Prefix, encoded, SetAttributes);
      Some(Prefix + encoded + SetAttributes)
  }

  /** Three pieces put together start with the first and end with the last. */
  lemma PieceBounds(a: string, b: string, c: string)
    ensures StartsWith(a + b + c, a) && EndsWith(a + b + c, c)
  {
  }

  /** The text `clearAccessibilityCookie` assigns: the cookie's name with an
      empty value, followed by the attributes that expire it. */
  function ClearCookieString(): (r: string)
    ensures StartsWith(r, Prefix) && EndsWith(r, ClearAttributes)
    ensures |r| == |Prefix| + |ClearAttributes|
  {
    PieceBounds(Prefix, "", ClearAttributes);
    assert Prefix + "" + ClearAttributes == Prefix + ClearAttributes;
    Prefix + ClearAttributes
  }

  /** The facts about the cookie's name the lookup relies on. */
  lemma PrefixFacts()
    ensures Prefix == CookieName + ['='] && |Prefix| == 14
    ensures '=' !in CookieName && ';' !in Prefix
    ensures !IsSpace(Prefix[0]) && !IsSpace(Prefix[|Prefix| - 1])
  {
  }

  /** Both attribute lists start a new `;`-separated part. */
  lemma AttributesStartWithSemicolon()
    ensures SetAttributes == [';'] + SetAttributes[1..]
    ensures ClearAttributes == [';'] + ClearAttributes[1..]
  {
  }

  /** The Max-Age written by `setAccessibilityCookie` spells 60 * 60 * 24 * 365
      = 31536000 seconds in decimal. */
  lemma MaxAgeIsOneYear()
    ensures DigitsValue(NatToString(MaxAge)) == 31536000
  {
    NatToStringRoundTrip(MaxAge);
  }

  /** A pair without `;` followed by attributes is the first `;`-separated
      part of the whole. */
  lemma PairBeforeAttributes(pair: string, attributes: string)
    requires ';' !in pair && |attributes| > 0 && attributes[0] == ';'
    ensures Split(pair + attributes, ';')[0] == pair
    ensures BeforeFirst(pair + attributes, ';') == pair
  {
    assert pair + attributes == pair + [';'] + attributes[1..];
    SplitAtFirst(pair, ';', attributes[1..]);
    BeforeFirstIsFirstPiece(pair + attributes, ';');
  }

  /** The name and the empty value of the accessibility pair. */
  lemma EmptyPairSplit()
    ensures Split(Prefix, '=') == [CookieName, ""]
  {
    PrefixFacts();
    assert Prefix == CookieName + ['='] + "";
    SplitAtFirst(CookieName, '=', "");
  }

  /** Clearing stores the accessibility name with an empty value. */
  lemma ClearStoresEmptyValue()
    ensures Split(ClearCookieString(), ';')[0] == Prefix
    ensures Split(Split(ClearCookieString(), ';')[0], '=') == [CookieName, ""]
  {
    PrefixFacts();
    AttributesStartWithSemicolon();
    PairBeforeAttributes(Prefix, ClearAttributes);
    EmptyPairSplit();
  }

  /** The lookup's test on one entry of `document.cookie.split(";")`. */
  predicate IsAccessibilityEntry(entry: string) {
    StartsWith(Trim(entry), Prefix)
  }

  /** A matched entry holds an `=`, so its split has a second piece. */
  lemma EntryHasValue(entry: string)
    requires IsAccessibilityEntry(entry)
    ensures '=' in entry && |Split(entry, '=')| >= 2
  {
    PrefixFacts();
    var i, j := TrimIsSlice(entry);
    assert Trim(entry)[13] == '=';
    assert entry[i + 13] == '=';
    var _, _ := SecondPiece(entry, '=');
  }

  /** `entry.split("=")[1]`; a matched entry always has a second piece. */
  function RawValue(entry: string): (v: string)
    requires IsAccessibilityEntry(entry)
    ensures '=' !in v
  {
    EntryHasValue(entry);
    SplitJoin(entry, '=');
    Split(entry, '=')[1]
  }

  /** `getAccessibilityCookie`: the first entry that is the accessibility
      cookie, its value decoded and parsed; no such entry, or a decode or parse
      failure, gives `None`. */
  function GetAccessibilityCookie(
    cookie: string,
    decode: string -> Option<string>,
    parse: string -> Option<AccessibilitySettings>): (r: Option<AccessibilitySettings>)
    ensures r.Some? ==> exists entry :: entry in Split(cookie, ';') && IsAccessibilityEntry(entry)
  {
    match Find(Split(cookie, ';'), IsAccessibilityEntry)
    case None => None
    case Some(entry) =>
      match decode(RawValue(entry))
      case None => None
      case Some(text) => parse(text)
  }

  /** Without an accessibility entry the lookup gives `None`, whatever the
      other cookies hold. */
  lemma NoEntryNoSettings(cookie: string, decode: string -> Option<string>, parse: string -> Option<AccessibilitySettings>)
    requires forall entry :: entry in Split(cookie, ';') ==> !IsAccessibilityEntry(entry)
    ensures GetAccessibilityCookie(cookie, decode, parse) == None
  {
  }

  /** A matched entry is named exactly `accessibility` once trimmed: a cookie
      called `accessibilityX` is never taken for it. */
  lemma MatchedNameIsExact(entry: string)
    requires IsAccessibilityEntry(entry)
    ensures Split(Trim(entry), '=')[0] == CookieName
  {
    PrefixFacts();
    var t := Trim(entry);
    assert t == CookieName + ['='] + t[|Prefix|..];
    SplitAtFirst(CookieName, '=', t[|Prefix|..]);
  }

  /** The value read is the text between the first and the second `=` of the
      entry: the entry is a name without `=`, an `=`, the value, then nothing
      or another `=`. */
  lemma ValueBetweenFirstTwoEquals(entry: string) returns (name: string, rest: string)
    requires IsAccessibilityEntry(entry)
    ensures entry == name + "=" + RawValue(entry) + rest
    ensures '=' !in name && (rest == "" || rest[0] == '=')
  {
    EntryHasValue(entry);
    name, rest := SecondPiece(entry, '=');
  }

  /** An entry made of spaces and the pair splits at the `=` of the name. */
  lemma PairAfterSpaces(lead: string, v: string)
    ensures lead + Prefix + v == (lead + CookieName) + ['='] + v
  {
    PrefixFacts();
  }

  /** Among cookies without `;`, behind entries that are not the
      accessibility cookie, a pair `accessibility=v` (after any spaces) is the
      one read: the lookup decodes and parses exactly `v`. */
  lemma LookupReadsFirstPair(
    decode: string -> Option<string>,
    parse: string -> Option<AccessibilitySettings>,
    before: seq<string>, lead: string, v: string, after: seq<string>)
    requires ';' !in v && '=' !in v
    requires forall i :: 0 <= i < |lead| ==> IsSpace(lead[i])
    requires forall e :: e in before ==> ';' !in e && !IsAccessibilityEntry(e)
    requires forall e :: e in after ==> ';' !in e
    ensures GetAccessibilityCookie(Join(before + [lead + Prefix + v] + after, ';'), decode, parse) ==
              (if decode(v).Some? then parse(decode(v).value) else None)
  {
    PrefixFacts();
    var entry := lead + Prefix + v;
    var pieces := before + [entry] + after;
    forall k | 0 <= k < |pieces| ensures ';' !in pieces[k] {
      if k < |before| {
        assert pieces[k] in before;
      } else if k > |before| {
        assert pieces[k] in after;
      }
    }
    JoinSplit(pieces, ';');
    TrimKeepsPrefix(lead, Prefix, v);
    FindAfterMisses(before, entry, after, IsAccessibilityEntry);
    PairAfterSpaces(lead, v);
    SplitAtFirst(lead + CookieName, '=', v);
    SplitNoSeparator(v, '=');
    assert RawValue(entry) == v;
  }

  /** Reading back what was set: with the written pair among other cookies
      (none of them the accessibility cookie, each without `;`), the lookup
      finds the written settings, provided the encoder escapes `;` and `=` and
      decoding and parsing undo encoding and serialising. */
  lemma ReadBackAfterSet(
    settings: AccessibilitySettings,
    encode: string -> Option<string>,
    decode: string -> Option<string>,
    parse: string -> Option<AccessibilitySettings>,
    before: seq<string>, lead: string, after: seq<string>)
    requires encode(Json(settings)).Some?
    requires ';' !in encode(Json(settings)).value && '=' !in encode(Json(settings)).value
    requires decode(encode(Json(settings)).value) == Some(Json(settings))
    requires parse(Json(settings)) == Some(settings)
    requires forall i :: 0 <= i < |lead| ==> IsSpace(lead[i])
    requires forall e :: e in before ==> ';' !in e && !IsAccessibilityEntry(e)
    requires forall e :: e in after ==> ';' !in e
    ensures SetCookieString(settings, encode).Some?
    ensures var pair := BeforeFirst(SetCookieString(settings, encode).value, ';');
            GetAccessibilityCookie(Join(before + [lead + pair] + after, ';'), decode, parse) == Some(settings)
  {
    PrefixFacts();
    var v := encode(Json(settings)).value;
    AttributesStartWithSemicolon();
    assert ';' !in Prefix + v;
    PairBeforeAttributes(Prefix + v, SetAttributes);
    LookupReadsFirstPair(decode, parse, before, lead, v, after);
    assert lead + (Prefix + v) == lead + Prefix + v;
  }
}
