/** `parseDataURI` of `tool_upload.go` (section 3 of RFC 2397). A Go string is a sequence of bytes,
    so here every character of a URI stands for one byte. */
module DataUri {
  import opened Wrappers
  import opened GoStrings
  import opened Base64

  ghost predicate ByteText(s: string) {
    forall i :: 0 <= i < |s| ==> s[i] as int < 256
  }

  function TextBytes(s: string): seq<byte>
    requires ByteText(s)
  {
    seq(|s|, i requires 0 <= i < |s| => s[i] as int)
  }

  /** Go's `strings.Cut` at the first comma. */
  function CutAtComma(s: string): (parts: Option<(string, string)>)
    ensures parts.None? <==> ',' !in s
    ensures parts.Some? ==> s == parts.value.0 + "," + parts.value.1 && ',' !in parts.value.0
  {
    if s == [] then None
    else if s[0] == ',' then Some(([], s[1..]))
    else
      match CutAtComma(s[1..])
      case None => None
      case Some((before, after)) => Some(([s[0]] + before, after))
  }

  /** The first successful decode, trying the variants in the given order. */
  function FirstDecode(order: seq<Encoding>, payload: string): Option<seq<byte>> {
    if order == [] then None
    else
      match Decode(order[0], payload)
      case Some(data) => Some(data)
      case None => FirstDecode(order[1..], payload)
  }

  const TRIED := [STD_ENCODING, RAW_STD_ENCODING, URL_ENCODING, RAW_URL_ENCODING]

  const BASE64_SUFFIX := ";base64"

  /** The part of `parseDataURI` after the comma has been found; `extensionOf` stands for the media-type table. */
  function DecodePayload(extensionOf: string -> string, meta: string, payload: string)
    : Result<(seq<byte>, string), string>
    requires ByteText(payload)
  {
    var isBase64 := HasSuffix(meta, BASE64_SUFFIX);
    var mediaType := if isBase64 then meta[..|meta| - |BASE64_SUFFIX|] else meta;
    if !isBase64 then Ok((TextBytes(payload), extensionOf(mediaType)))
    else
      match FirstDecode(TRIED, payload)
      case Some(data) => Ok((data, extensionOf(mediaType)))
      case None => Err("invalid base64 data in data URI")
  }

  function ParseDataUri(extensionOf: string -> string, uri: string): Result<(seq<byte>, string), string>
    requires ByteText(uri)
  {
    var rest := if HasPrefix(uri, "data:") then uri[5..] else uri;
    match CutAtComma(rest)
    case None => Ok((TextBytes(rest), ".txt"))
    case Some((meta, payload)) =>
      assert payload == rest[|meta| + 1..];
      DecodePayload(extensionOf, meta, payload)
  }

  lemma {:induction false} CutOfJoined(before: string, after: string)
    requires ',' !in before
    ensures CutAtComma(before + "," + after) == Some((before, after))
  {
    var s := before + "," + after;
    if before == [] {
      assert s[1..] == after;
    } else {
      assert before[0] in before;
      CutOfJoined(before[1..], after);
      assert s[1..] == before[1..] + "," + after;
      assert [before[0]] + before[1..] == before;
    }
  }

  /** Whatever the order, the result is the one that any accepting variant gives. */
  lemma {:induction false} FirstDecodeIsAny(order: seq<Encoding>, payload: string, enc: Encoding)
    requires enc in order && Decode(enc, payload).Some?
    ensures FirstDecode(order, payload) == Decode(enc, payload)
  {
    if Decode(order[0], payload).Some? {
      VariantsAgree(order[0], enc, payload);
    } else {
      FirstDecodeIsAny(order[1..], payload, enc);
    }
  }

  lemma {:induction false} FirstDecodeFails(order: seq<Encoding>, payload: string)
    ensures FirstDecode(order, payload).None? <==> forall enc :: enc in order ==> Decode(enc, payload).None?
  {
    if order != [] {
      FirstDecodeFails(order[1..], payload);
      assert forall enc :: enc in order <==> enc == order[0] || enc in order[1..];
    }
  }

  /** The order in which the variants are tried never matters. */
  lemma OrderIrrelevant(order: seq<Encoding>, other: seq<Encoding>, payload: string)
    requires forall enc :: enc in order <==> enc in other
    ensures FirstDecode(order, payload) == FirstDecode(other, payload)
  {
    FirstDecodeFails(order, payload);
    FirstDecodeFails(other, payload);
    if FirstDecode(order, payload).Some? {
      var enc :| enc in order && Decode(enc, payload).Some?;
      FirstDecodeIsAny(order, payload, enc);
      FirstDecodeIsAny(other, payload, enc);
    }
  }

  lemma EncodedIsByteText(enc: Encoding, data: seq<byte>)
    ensures ByteText(Encode(enc, data))
  {
  }

  lemma ByteTextJoined(a: string, b: string)
    requires ByteText(a) && ByteText(b)
    ensures ByteText(a + b)
  {
  }

  /** What a URI with a comma parses to, in terms of its two halves. */
  lemma ParseHalves(extensionOf: string -> string, meta: string, payload: string)
    requires ByteText(meta) && ByteText(payload) && ',' !in meta
    ensures ByteText("data:" + meta + "," + payload)
    ensures ParseDataUri(extensionOf, "data:" + meta + "," + payload) == DecodePayload(extensionOf, meta, payload)
  {
    var uri := "data:" + meta + "," + payload;
    ByteTextJoined("data:", meta);
    ByteTextJoined("data:" + meta, ",");
    ByteTextJoined("data:" + meta + ",", payload);
    assert uri[..5] == "data:";
    assert uri[5..] == meta + "," + payload;
    CutOfJoined(meta, payload);
  }

  lemma EveryVariantIsTried(enc: Encoding)
    ensures enc in TRIED
  {
  }

  /** Data encoded by any of the four variants comes back unchanged from its data URI. */
  lemma DataUriRoundTrip(extensionOf: string -> string, enc: Encoding, media: string, data: seq<byte>)
    requires ',' !in media && ByteText(media)
    ensures var uri := "data:" + (media + BASE64_SUFFIX) + "," + Encode(enc, data);
            ByteText(uri) && ParseDataUri(extensionOf, uri) == Ok((data, extensionOf(media)))
  {
    var meta, payload := media + BASE64_SUFFIX, Encode(enc, data);
    EncodedIsByteText(enc, data);
    assert meta[..|media|] == media && meta[|media|..] == BASE64_SUFFIX;
    ParseHalves(extensionOf, meta, payload);
    RoundTrip(enc, data);
    EveryVariantIsTried(enc);
    FirstDecodeIsAny(TRIED, payload, enc);
  }

  /** Data that is not marked base64 is taken byte for byte, without percent-decoding. */
  lemma PlainUriIsVerbatim(extensionOf: string -> string, meta: string, payload: string)
    requires ByteText(meta) && ByteText(payload) && ',' !in meta && !HasSuffix(meta, BASE64_SUFFIX)
    ensures ByteText("data:" + meta + "," + payload)
    ensures var result := ParseDataUri(extensionOf, "data:" + meta + "," + payload);
            result.Ok? && result.value.1 == extensionOf(meta) && |result.value.0| == |payload|
            && forall i :: 0 <= i < |payload| ==> result.value.0[i] == payload[i] as int
  {
    ParseHalves(extensionOf, meta, payload);
  }

  /** A base64 URI is refused exactly when none of the four variants accepts its payload. */
  lemma RefusedExactly(extensionOf: string -> string, meta: string, payload: string)
    requires ByteText(meta) && ByteText(payload) && ',' !in meta
    ensures ByteText("data:" + meta + "," + payload)
    ensures ParseDataUri(extensionOf, "data:" + meta + "," + payload).Err?
            <==> HasSuffix(meta, BASE64_SUFFIX) && forall enc :: Decode(enc, payload).None?
  {
    ParseHalves(extensionOf, meta, payload);
    FirstDecodeFails(TRIED, payload);
    forall enc: Encoding ensures enc in TRIED {
      EveryVariantIsTried(enc);
    }
  }

  lemma NoCut(s: string)
    requires ',' !in s
    ensures CutAtComma(s) == None
  {
  }

  /** Without a comma everything after the prefix, if there is one, is the data, and a text file. */
  lemma NoCommaIsVerbatim(extensionOf: string -> string, text: string, prefixed: bool)
    requires ByteText(text) && ',' !in text && (prefixed || !HasPrefix(text, "data:"))
    ensures var uri := (if prefixed then "data:" else "") + text;
            && ByteText(uri)
            && var result := ParseDataUri(extensionOf, uri);
               result.Ok? && result.value.1 == ".txt" && |result.value.0| == |text|
               && forall i :: 0 <= i < |text| ==> result.value.0[i] == text[i] as int
  {
    var uri := (if prefixed then "data:" else "") + text;
    ByteTextJoined(if prefixed then "data:" else "", text);
    assert if prefixed then uri[5..] == text else uri == text;
    NoCut(text);
  }

  lemma {:induction false} FirstDecodeSame(order: seq<Encoding>, payload: string, other: string)
    requires forall enc :: enc in order ==> Decode(enc, payload) == Decode(enc, other)
    ensures FirstDecode(order, payload) == FirstDecode(order, other)
  {
    if order != [] {
      FirstDecodeSame(order[1..], payload, other);
    }
  }

  /** Line breaks in base64 data do not matter. */
  lemma LineBreakIgnoredInData(extensionOf: string -> string, media: string, before: string, br: string, after: string)
    requires ByteText(media) && ',' !in media && ByteText(before) && ByteText(after)
    requires br == "\r" || br == "\n" || br == "\r\n"
    ensures var meta := media + BASE64_SUFFIX;
            var broken, whole := "data:" + meta + "," + (before + br + after), "data:" + meta + "," + (before + after);
            && ByteText(broken) && ByteText(whole)
            && ParseDataUri(extensionOf, broken) == ParseDataUri(extensionOf, whole)
  {
    var meta := media + BASE64_SUFFIX;
    ByteTextJoined(media, BASE64_SUFFIX);
    ByteTextJoined(before, br);
    ByteTextJoined(before + br, after);
    ByteTextJoined(before, after);
    ParseHalves(extensionOf, meta, before + br + after);
    ParseHalves(extensionOf, meta, before + after);
    assert meta[|media|..] == BASE64_SUFFIX;
    forall enc ensures Decode(enc, before + br + after) == Decode(enc, before + after) {
      LineBreakIgnored(enc, before, br, after);
    }
    FirstDecodeSame(TRIED, before + br + after, before + after);
  }
}
