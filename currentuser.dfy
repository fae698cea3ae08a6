/**
 * `useCurrentUser`: the signed-in user is read from the JWT stored under
 * `token`.  `parseJwt` takes the payload segment of the compact serialisation
 * (section 7.1 of RFC 7515), translates the base64url alphabet to the base64
 * one (sections 4 and 5 of RFC 4648, padding not restored), decodes it with
 * `atob`, percent-encodes every character of the binary string (section 2.1
 * of RFC 3986), decodes that with `decodeURIComponent` and parses the text as
 * JSON; any failure yields `null`.
 *
 * `atob`, `decodeURIComponent` and `JSON.parse` are parameters: each either
 * returns a value or throws (`None`).
 */
module CurrentUser {
  import opened Wrappers
  import opened JsText
  import opened Json
  import opened Browser
  import opened Auth

  // ---------------------------------------------------------------- alphabet

  /** `.replace(/-/g, "+").replace(/_/g, "/")`. */
  function ToStandardAlphabet(s: string): (r: string)
    ensures |r| == |s|
    ensures forall i :: 0 <= i < |s| ==>
      && (s[i] == '-' ==> r[i] == '+')
      && (s[i] == '_' ==> r[i] == '/')
      && (s[i] != '-' && s[i] != '_' ==> r[i] == s[i])
  {
    if s == [] then []
    else
      var c := if s[0] == '-' then '+' else if s[0] == '_' then '/' else s[0];
      [c] + ToStandardAlphabet(s[1..])
  }

  /** After the translation no base64url-only character is left. */
  lemma NoUrlAlphabetLeft(s: string)
    ensures '-' !in ToStandardAlphabet(s) && '_' !in ToStandardAlphabet(s)
  {
    var r := ToStandardAlphabet(s);
    forall i | 0 <= i < |r|
      ensures r[i] != '-' && r[i] != '_'
    {
    }
  }

  // ---------------------------------------------------------------- percent step

  /** A lower-case hexadecimal digit, as `Number.prototype.toString(16)` writes it. */
  function HexDigit(n: nat): (c: char)
    requires n < 16
    ensures '0' <= c <= '9' || 'a' <= c <= 'f'
  {
    if n < 10 then ('0' as int + n) as char else ('a' as int + n - 10) as char
  }

  /** The value of a lower-case hexadecimal digit. */
  function HexValue(c: char): (v: Option<nat>)
    ensures v.Some? ==> v.value < 16 && HexDigit(v.value) == c
  {
    if '0' <= c <= '9' then Some(c as int - '0' as int)
    else if 'a' <= c <= 'f' then Some(c as int - 'a' as int + 10)
    else None
  }

  lemma HexValueOfDigit(n: nat)
    requires n < 16
    ensures HexValue(HexDigit(n)) == Some(n)
  {
  }

  /** `n.toString(16)`. */
  function ToHex(n: nat): (r: string)
    ensures |r| >= 1
    ensures r[|r| - 1] == HexDigit(n % 16)
  {
    if n < 16 then [HexDigit(n)] else ToHex(n / 16) + [HexDigit(n % 16)]
  }

  /** The second-to-last hex digit of `n` is the high nibble of its low byte. */
  lemma HighNibble(n: nat)
    requires n >= 16
    ensures (n / 16) % 16 == (n % 256) / 16
  {
    var q, r := n / 256, n % 256;
    assert n == 256 * q + r;
    assert n / 16 == 16 * q + r / 16;
  }

  /** A code below 16 is its own low nibble and has high nibble zero. */
  lemma SmallCode(n: nat)
    requires n < 16
    ensures (n % 256) / 16 == 0 && n % 16 == n
  {
  }

  /** Padding `n.toString(16)` with `00` and keeping the last two digits gives the two hex digits of the low byte. */
  lemma PaddedHexIsLowByte(n: nat)
    ensures var padded := "00" + ToHex(n);
      padded[|padded| - 2..] == [HexDigit((n % 256) / 16), HexDigit(n % 16)]
  {
    var hex := ToHex(n);
    var padded := "00" + hex;
    var last2 := padded[|padded| - 2..];
    if n < 16 {
      SmallCode(n);
      assert hex == [HexDigit(n)];
      assert last2 == ['0', HexDigit(n)];
    } else {
      var high := ToHex(n / 16);
      assert hex == high + [HexDigit(n % 16)];
      HighNibble(n);
      assert last2[0] == high[|high| - 1];
      assert last2[1] == HexDigit(n % 16);
    }
  }

  /**
   * `"%" + ("00" + c.charCodeAt(0).toString(16)).slice(-2)`: `%` and the two
   * hex digits of the low byte of the character's code.
   */
  function Escape(c: char): (e: string)
    ensures e == ['%', HexDigit((c as nat % 256) / 16), HexDigit(c as nat % 16)]
  {
    var padded := "00" + ToHex(c as nat);
    PaddedHexIsLowByte(c as nat);
    "%" + padded[|padded| - 2..]
  }

  /** The `split("").map(...).join("")` chain over the binary string. */
  function PercentEncode(s: string): (r: string)
    ensures |r| == 3 * |s|
  {
    if s == [] then [] else Escape(s[0]) + PercentEncode(s[1..])
  }

  /** Every character becomes exactly its three-character escape, in order. */
  lemma {:induction false} PercentEncodeGroups(s: string, i: nat)
    requires i < |s|
    ensures PercentEncode(s)[3 * i..3 * i + 3] == ['%', HexDigit((s[i] as nat % 256) / 16), HexDigit(s[i] as nat % 16)]
  {
    if i > 0 {
      PercentEncodeGroups(s[1..], i - 1);
      assert PercentEncode(s)[3 * i..3 * i + 3] == PercentEncode(s[1..])[3 * (i - 1)..3 * (i - 1) + 3];
    }
  }

  /** Reading back `%XX` groups of lower-case hex digits, one code unit per group. */
  function PercentDecode(r: string): (s: Option<string>)
    ensures s.Some? ==> 3 * |s.value| == |r|
  {
    if r == [] then Some([])
    else if |r| >= 3 && r[0] == '%' && HexValue(r[1]).Some? && HexValue(r[2]).Some? then
      match PercentDecode(r[3..])
      case None => None
      case Some(rest) => Some([(16 * HexValue(r[1]).value + HexValue(r[2]).value) as char] + rest)
    else None
  }

  /** A string of byte-valued characters, as `atob` returns. */
  predicate IsBinaryString(s: string)
  {
    forall i :: 0 <= i < |s| ==> s[i] as nat < 256
  }

  /** A byte splits into its high and low nibble. */
  lemma ByteNibbles(n: nat)
    requires n < 256
    ensures n % 256 == n && n / 16 < 16
    ensures 16 * (n / 16) + n % 16 == n
  {
  }

  /** One escape of a byte-valued character reads back as that character. */
  lemma DecodeOneEscape(c: char, rest: string)
    requires c as nat < 256
    ensures PercentDecode(Escape(c) + rest) ==
      match PercentDecode(rest)
      case None => None
      case Some(tail) => Some([c] + tail)
  {
    var n := c as nat;
    var hi, lo := n / 16, n % 16;
    ByteNibbles(n);
    var r := Escape(c) + rest;
    assert r[0] == '%' && r[1] == HexDigit(hi) && r[2] == HexDigit(lo);
    assert r[3..] == rest;
    HexValueOfDigit(hi);
    HexValueOfDigit(lo);
    assert (16 * hi + lo) as char == c;
  }

  /** On a binary string the percent step loses nothing: decoding it gives the string back. */
  lemma {:induction false} PercentRoundTrip(s: string)
    requires IsBinaryString(s)
    ensures PercentDecode(PercentEncode(s)) == Some(s)
  {
    if s != [] {
      assert PercentEncode(s) == Escape(s[0]) + PercentEncode(s[1..]);
      assert IsBinaryString(s[1..]);
      PercentRoundTrip(s[1..]);
      DecodeOneEscape(s[0], PercentEncode(s[1..]));
      assert [s[0]] + s[1..] == s;
    }
  }

  // ---------------------------------------------------------------- parseJwt

  /** The three library primitives the decoder relies on; `None` is a thrown exception. */
  datatype Decoders = Decoders(
    atob: string -> Option<string>,
    decodeUriComponent: string -> Option<string>,
    jsonParse: string -> Option<JsonValue>)

  /**
   * Decoding one payload segment: when every stage succeeds the payload is
   * what `JSON.parse` yields; a failure at any stage is caught and gives `null`.
   */
  function DecodePayload(segment: string, lib: Decoders): (payload: JsonValue)
    ensures payload != JNull ==>
      && lib.atob(ToStandardAlphabet(segment)).Some?
      && lib.decodeUriComponent(PercentEncode(lib.atob(ToStandardAlphabet(segment)).value)).Some?
      && lib.jsonParse(lib.decodeUriComponent(PercentEncode(lib.atob(ToStandardAlphabet(segment)).value)).value)
           == Some(payload)
    ensures lib.atob(ToStandardAlphabet(segment)).Some?
      && lib.decodeUriComponent(PercentEncode(lib.atob(ToStandardAlphabet(segment)).value)).Some?
      && lib.jsonParse(lib.decodeUriComponent(PercentEncode(lib.atob(ToStandardAlphabet(segment)).value)).value).Some?
      ==> payload
          == lib.jsonParse(lib.decodeUriComponent(PercentEncode(lib.atob(ToStandardAlphabet(segment)).value)).value).value
  {
    match lib.atob(ToStandardAlphabet(segment))
    case None => JNull
    case Some(binary) =>
      match lib.decodeUriComponent(PercentEncode(binary))
      case None => JNull
      case Some(text) =>
        match lib.jsonParse(text)
        case None => JNull
        case Some(v) => v
  }

  /**
   * `parseJwt(token)`: `split(".")[1]` is `undefined` for a token without a
   * dot, and `replace` on it throws, so such a token parses to `null`.
   */
  function ParseJwt(token: string, lib: Decoders): (payload: JsonValue)
    ensures '.' !in token ==> payload == JNull
  {
    var parts := Split(token, '.');
    SplitLength(token, '.');
    CountZero(token, '.');
    if |parts| < 2 then JNull else DecodePayload(parts[1], lib)
  }

  /**
   * Only the payload segment is decoded: the header and whatever follows the
   * payload (the signature) play no part.
   */
  lemma OnlyPayloadSegmentMatters(header: string, payload: string, rest: string, lib: Decoders)
    requires '.' !in header && '.' !in payload
    requires rest == [] || rest[0] == '.'
    ensures ParseJwt(header + "." + payload + rest, lib) == DecodePayload(payload, lib)
  {
    assert header + "." + payload + rest == header + ['.'] + (payload + rest);
    SplitAfterPiece(header, payload + rest, '.');
    if rest == [] {
      assert payload + rest == payload;
      SplitWithoutSeparator(payload, '.');
    } else {
      assert payload + rest == payload + ['.'] + rest[1..];
      SplitAfterPiece(payload, rest[1..], '.');
    }
  }

  // ---------------------------------------------------------------- the hook

  /**
   * The user object the hook exposes: `email` is the payload's `sub`, `name`
   * its `name` (possibly `undefined`).  Nothing checks that `sub` is a
   * string: for a string payload it is the inherited `String.prototype.sub`.
   */
  datatype User = User(email: JsonValue, name: Option<JsonValue>)

  /** The user derived from a stored token (or its absence) once the effect runs in a browser. */
  function DeriveUser(token: Option<string>, lib: Decoders): (user: Option<User>)
    ensures token.None? || token == Some("") ==> user.None?
    ensures user.Some? <==>
      && token.Some? && token.value != ""
      && Truthy(ParseJwt(token.value, lib))
      && TruthyOpt(Property(ParseJwt(token.value, lib), "sub"))
    ensures user.Some? ==>
      var payload := ParseJwt(token.value, lib);
      && Property(payload, "sub") == Some(user.value.email)
      && Truthy(user.value.email)
      && user.value.name == Property(payload, "name")
  {
    if token.None? || token.value == "" then None
    else
      var payload := ParseJwt(token.value, lib);
      var sub := Property(payload, "sub");
      if Truthy(payload) && TruthyOpt(sub) then Some(User(sub.value, Property(payload, "name"))) else None
  }

  /** A token without a dot never yields a user. */
  lemma DotlessTokenHasNoUser(token: string, lib: Decoders)
    requires '.' !in token
    ensures DeriveUser(Some(token), lib).None?
  {
  }

  /**
   * A payload that parses to a non-empty string still yields a user: its
   * `sub` is the inherited method `String.prototype.sub` and its `name` is
   * `undefined`.
   */
  lemma StringPayloadYieldsUser(token: string, lib: Decoders, s: string)
    requires ParseJwt(token, lib) == JString(s) && s != ""
    ensures DeriveUser(Some(token), lib) == Some(User(JNative("sub"), None))
  {
  }

  /**
   * A token `header.payload.signature` whose payload segment decodes to an
   * object with a truthy `sub` signs that user in: the email is `sub` and
   * the name is the object's own `name`, if any.
   */
  lemma ObjectPayloadYieldsUser(header: string, payload: string, rest: string, lib: Decoders, fields: map<string, JsonValue>)
    requires '.' !in header && '.' !in payload
    requires rest == [] || rest[0] == '.'
    requires DecodePayload(payload, lib) == JObject(fields)
    requires "sub" in fields && Truthy(fields["sub"])
    ensures DeriveUser(Some(header + "." + payload + rest), lib)
            == Some(User(fields["sub"], if "name" in fields then Some(fields["name"]) else None))
  {
    OnlyPayloadSegmentMatters(header, payload, rest, lib);
  }

  /** The hook's `user` state. */
  class CurrentUserHook {
    var user: Option<User>

    constructor ()
      ensures user.None?
    {
      user := None;
    }

    /**
     * The mount effect: outside a browser it returns without touching the
     * state; otherwise it sets the user derived from the stored token.
     */
    method RunEffect(inBrowser: bool, store: Storage, lib: Decoders)
      modifies this
      ensures !inBrowser ==> user == old(user)
      ensures inBrowser ==> user == DeriveUser(GetToken(store), lib)
    {
      if !inBrowser {
        return;
      }
      user := DeriveUser(GetToken(store), lib);
    }
  }
}
