/**
 * `marshalEndpointMetadata`: an endpoint's metadata column is a string that
 * may hold a JSON object. The builder decodes it only when it looks like one
 * (longer than two bytes and starting with `{`) and otherwise passes it on
 * unchanged. The JSON decoder itself is a parameter; its error is ignored.
 */
module Metadata {
  import opened Types

  /** Number of bytes of the UTF-8 encoding of one character: Go's `len`
      counts these, not characters. */
  function Utf8Width(c: char): (w: nat)
    ensures 1 <= w <= 4
    ensures w == 1 <==> c as int < 0x80
  {
    if c as int < 0x80 then 1
    else if c as int < 0x800 then 2
    else if c as int < 0x10000 then 3
    else 4
  }

  /** `len(s)` for a Go string holding the UTF-8 encoding of `s`. */
  function Utf8Length(s: string): (n: nat)
    ensures |s| <= n <= 4 * |s|
    ensures (forall i | 0 <= i < |s| :: s[i] as int < 0x80) ==> n == |s|
    decreases |s|
  {
    if s == [] then 0 else Utf8Width(s[0]) + Utf8Length(s[1..])
  }

  /** `sub` occurs in `s` at character position `i`. */
  predicate OccursAt(s: string, sub: string, i: nat)
    requires i <= |s|
  {
    sub <= s[i..]
  }

  /** `k` is the first character position at which `sub` occurs in `s`. */
  predicate FirstAt(s: string, sub: string, k: nat)
  {
    k <= |s| && OccursAt(s, sub, k) && forall i | 0 <= i < k :: !OccursAt(s, sub, i)
  }

  /** Dropping the first character shifts every later position by one. */
  lemma OccursShift(s: string, sub: string)
    requires s != []
    ensures forall i | 1 <= i <= |s| :: OccursAt(s, sub, i) == OccursAt(s[1..], sub, i - 1)
  {
  }

  /** A first occurrence after the first character, at byte offset `k` of
      the rest, is the first occurrence in `s`, one character width later. */
  lemma FirstAtStep(s: string, sub: string, k: int)
    requires s != [] && !OccursAt(s, sub, 0)
    requires exists j | 0 <= j <= |s| - 1 :: FirstAt(s[1..], sub, j) && k == Utf8Length(s[1..][..j])
    ensures exists j | 0 <= j <= |s| :: FirstAt(s, sub, j) && Utf8Width(s[0]) + k == Utf8Length(s[..j])
  {
    var j :| 0 <= j <= |s| - 1 && FirstAt(s[1..], sub, j) && k == Utf8Length(s[1..][..j]);
    OccursShift(s, sub);
    assert s[..j + 1][1..] == s[1..][..j];
    assert FirstAt(s, sub, j + 1);
  }

  /** `strings.Index(s, sub)`: the byte offset, in the UTF-8 encoding of
      `s`, of the first character position at which `sub` occurs, or -1
      when it occurs nowhere. */
  function Index(s: string, sub: string): (r: int)
    ensures -1 <= r <= Utf8Length(s)
    ensures r == -1 <==> forall i | 0 <= i <= |s| :: !OccursAt(s, sub, i)
    ensures r >= 0 ==> exists k | 0 <= k <= |s| :: FirstAt(s, sub, k) && r == Utf8Length(s[..k])
    decreases |s|
  {
    if sub <= s then
      assert s[..0] == [] && s[0..] == s && FirstAt(s, sub, 0);
      0
    else if s == [] then -1
    else
      var k := Index(s[1..], sub);
      OccursShift(s, sub);
      assert s[0..] == s;
      if k < 0 then -1
      else
        FirstAtStep(s, sub, k);
        Utf8Width(s[0]) + k
  }

  /** The offset counts bytes: in `é{` the brace is at byte 2, after the two
      bytes of `é`, although it is the second character. */
  lemma IndexCountsBytes()
    ensures Index("é{", "{") == 2
  {
  }

  /** `strings.Index(s, "{") == 0` holds exactly when `s` starts with `{`. */
  lemma BraceFirst(s: string)
    ensures Index(s, "{") == 0 <==> |s| > 0 && s[0] == '{'
  {
  }

  function MarshalEndpointMetadata(metadata: string, unmarshal: string -> JsonMap): (r: EndpointMetadata)
    ensures r.Raw? <==> Utf8Length(metadata) <= 2 || |metadata| == 0 || metadata[0] != '{'
    ensures r.Raw? ==> r.text == metadata
    ensures r.Decoded? ==> r.decoded == unmarshal(metadata)
  {
    BraceFirst(metadata);
    if Utf8Length(metadata) > 2 && Index(metadata, "{") == 0 then
      Decoded(unmarshal(metadata))
    else
      Raw(metadata)
  }

  /** A string of at most two characters, all ASCII, is returned unchanged,
      whatever it holds (so `{}` is never decoded). */
  lemma ShortAsciiKeptRaw(metadata: string, unmarshal: string -> JsonMap)
    requires |metadata| <= 2
    requires forall i | 0 <= i < |metadata| :: metadata[i] as int < 0x80
    ensures MarshalEndpointMetadata(metadata, unmarshal) == Raw(metadata)
  {
  }

  /** The length test counts bytes: a two-character string whose second
      character is not ASCII is long enough to be handed to the decoder. */
  lemma TwoCharactersThreeBytesDecoded(unmarshal: string -> JsonMap)
    ensures MarshalEndpointMetadata("{é", unmarshal) == Decoded(unmarshal("{é"))
  {
  }
}
