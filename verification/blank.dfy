/** Blank tiles for the GetMap handler (lib/map.js): the fixed transparent PNG, colour
    normalisation, and the blank-tile memo, which keeps the first tile stored under a key. */
module Blank {
  import opened Wrappers
  import opened Js
  import opened JsObject
  import opened Text
  import opened Model
  import opened Sniff

  /** The 256x256 fully transparent PNG the server embeds (as base64): the PNG magic followed
      by the rest of the signature, the IHDR, bKGD, IDAT and IEND chunks. */
  const BlankPng: Bytes := PngMagic + BlankPngTail

  const BlankPngTail: Bytes := [
    0x0D, 0x0A, 0x1A, 0x0A, 0x00, 0x00, 0x00, 0x0D, 0x49, 0x48, 0x44, 0x52, 0x00, 0x00, 0x01, 0x00,
    0x00, 0x00, 0x01, 0x00, 0x08, 0x06, 0x00, 0x00, 0x00, 0x5C, 0x72, 0xA8, 0x66, 0x00, 0x00, 0x00,
    0x06, 0x62, 0x4B, 0x47, 0x44, 0x00, 0xFF, 0x00, 0xFF, 0x00, 0xFF, 0xA0, 0xBD, 0xA7, 0x93, 0x00,
    0x00, 0x01, 0x15, 0x49, 0x44, 0x41, 0x54, 0x78, 0xDA, 0xED, 0xC1, 0x31, 0x01, 0x00, 0x00, 0x00,
    0xC2, 0xA0, 0xF5, 0x4F, 0xED, 0x6B, 0x08, 0xA0, 0x00, 0x00, 0x00, 0x00, 0x00, 0x00, 0x00, 0x00,
    0x00, 0x00, 0x00, 0x00, 0x00, 0x00, 0x00, 0x00, 0x00, 0x00, 0x00, 0x00, 0x00, 0x00, 0x00, 0x00,
    0x00, 0x00, 0x00, 0x00, 0x00, 0x00, 0x00, 0x00, 0x00, 0x00, 0x00, 0x00, 0x00, 0x00, 0x00, 0x00,
    0x00, 0x00, 0x00, 0x00, 0x00, 0x00, 0x00, 0x00, 0x00, 0x00, 0x00, 0x00, 0x00, 0x00, 0x00, 0x00,
    0x00, 0x00, 0x00, 0x00, 0x00, 0x00, 0x00, 0x00, 0x00, 0x00, 0x00, 0x00, 0x00, 0x00, 0x00, 0x00,
    0x00, 0x00, 0x00, 0x00, 0x00, 0x00, 0x00, 0x00, 0x00, 0x00, 0x00, 0x00, 0x00, 0x00, 0x00, 0x00,
    0x00, 0x00, 0x00, 0x00, 0x00, 0x00, 0x00, 0x00, 0x00, 0x00, 0x00, 0x00, 0x00, 0x00, 0x00, 0x00,
    0x00, 0x00, 0x00, 0x00, 0x00, 0x00, 0x00, 0x00, 0x00, 0x00, 0x00, 0x00, 0x00, 0x00, 0x00, 0x00,
    0x00, 0x00, 0x00, 0x00, 0x00, 0x00, 0x00, 0x00, 0x00, 0x00, 0x00, 0x00, 0x00, 0x00, 0x00, 0x00,
    0x00, 0x00, 0x00, 0x00, 0x00, 0x00, 0x00, 0x00, 0x00, 0x00, 0x00, 0x00, 0x00, 0x00, 0x00, 0x00,
    0x00, 0x00, 0x00, 0x00, 0x00, 0x00, 0x00, 0x00, 0x00, 0x00, 0x00, 0x00, 0x00, 0x00, 0x00, 0x00,
    0x00, 0x00, 0x00, 0x00, 0x00, 0x00, 0x00, 0x00, 0x00, 0x00, 0x00, 0x00, 0x00, 0x00, 0x00, 0x00,
    0x00, 0x00, 0x00, 0x00, 0x00, 0x00, 0x00, 0x00, 0x00, 0x00, 0x00, 0x00, 0x00, 0x00, 0x00, 0x00,
    0x00, 0x00, 0x00, 0x00, 0x00, 0x00, 0x00, 0x00, 0x00, 0x00, 0x00, 0x00, 0x00, 0x00, 0x00, 0x00,
    0x00, 0x00, 0x00, 0x00, 0x00, 0x00, 0x00, 0x00, 0x00, 0x00, 0x00, 0x00, 0x00, 0x00, 0x00, 0x00,
    0x00, 0x00, 0x00, 0x00, 0x00, 0x00, 0x00, 0x00, 0x00, 0x00, 0x00, 0x00, 0x00, 0x00, 0x00, 0x00,
    0x00, 0x00, 0x00, 0x00, 0x00, 0x00, 0x78, 0x03, 0x01, 0x3C, 0x00, 0x01, 0xD8, 0x29, 0x43, 0x04,
    0x00, 0x00, 0x00, 0x00, 0x49, 0x45, 0x4E, 0x44, 0xAE, 0x42, 0x60, 0x82
  ]

  /** The embedded tile is recognised as a PNG. */
  lemma BlankIsPng()
    ensures ImageType(BlankPng) == Ok("image/png")
    ensures |BlankPng| == 352
  {
    assert BlankPng[..|PngMagic|] == PngMagic;
  }

  /** The background a blank tile is drawn in: a colour string, `false` (transparent), or
      `undefined`, which is what composite members pass. */
  datatype Background = Color(text: string) | Transparent | NoColor

  /** `sendBlank`'s colour normalisation: one leading `'0x'` is dropped, a three-digit colour
      has each digit doubled, and any length other than six falls back to `'ffffff'`. */
  function NormalizeColor(c: string): (r: string)
    ensures |r| == 6
  {
    var c1 := if |c| >= 2 && c[..2] == "0x" then c[2..] else c;
    var c2 := if |c1| == 3 then [c1[0], c1[0], c1[1], c1[1], c1[2], c1[2]] else c1;
    if |c2| != 6 then "ffffff" else c2
  }

  /** A six-character colour without the prefix is kept; with the prefix, the prefix goes. */
  lemma NormalizeSix(s: string)
    requires |s| == 6
    ensures !StartsWith(s, "0x") ==> NormalizeColor(s) == s
    ensures NormalizeColor("0x" + s) == s
  {
    assert ("0x" + s)[..2] == "0x";
    assert ("0x" + s)[2..] == s;
  }

  /** A three-character colour has each character doubled, with or without the prefix. */
  lemma NormalizeThree(s: string)
    requires |s| == 3
    ensures !StartsWith(s, "0x") ==> NormalizeColor(s) == [s[0], s[0], s[1], s[1], s[2], s[2]]
    ensures NormalizeColor("0x" + s) == [s[0], s[0], s[1], s[1], s[2], s[2]]
  {
    assert ("0x" + s)[..2] == "0x";
    assert ("0x" + s)[2..] == s;
  }

  /** Any other length falls back to white, with or without the prefix. */
  lemma NormalizeOther(s: string)
    requires |s| != 3 && |s| != 6
    ensures !StartsWith(s, "0x") ==> NormalizeColor(s) == "ffffff"
    ensures NormalizeColor("0x" + s) == "ffffff"
  {
    assert ("0x" + s)[..2] == "0x";
    assert ("0x" + s)[2..] == s;
  }

  /** `callBlankBack`: the tile with its content type and length. */
  function BlankReply(tile: Bytes, format: string, be: Backend): (r: TileReply)
    ensures r.data == Binary(tile)
    ensures Get(r.headers, "content-type") == Some(HStr(be.lookup(format)))
    ensures Get(r.headers, "content-length") == Some(HNum(|tile|))
  {
    TileReply(Binary(tile), [("content-type", HStr(be.lookup(format))), ("content-length", HNum(|tile|))])
  }

  /** The memo key of a blank tile. */
  function BlankKey(c: string, format: string): string
  {
    NormalizeColor(c) + format
  }

  /** `sendBlank(bgcolor, format)`, with the blank memo threaded: no format is an error; a
      transparent background gives the embedded PNG; a colour is looked up by key, and on a
      miss rendered and stored. A key once stored is never overwritten. */
  function SendBlank(bg: Background, format: Option<string>, be: Backend, blanks: map<string, Bytes>):
    (r: (Result<TileReply, Thrown>, map<string, Bytes>))
    ensures forall k :: k in blanks ==> k in r.1 && r.1[k] == blanks[k]
    ensures !Truthy(format) ==> r == (Err(ErrorValue(be, "not found")), blanks)
    ensures Truthy(format) && bg.Transparent? ==> r == (Ok(BlankReply(BlankPng, format.value, be)), blanks)
    ensures Truthy(format) && bg.Color? && BlankKey(bg.text, format.value) in blanks ==>
      r == (Ok(BlankReply(blanks[BlankKey(bg.text, format.value)], format.value, be)), blanks)
    ensures Truthy(format) && bg.Color? && BlankKey(bg.text, format.value) !in blanks ==>
      match be.render(NormalizeColor(bg.text), format.value)
      case Ok(img) => r == (Ok(BlankReply(img, format.value, be)), blanks[BlankKey(bg.text, format.value) := img])
      case Err(e) => r == (Err(e), blanks)
    ensures r.0.Ok? ==> r.0.value.data.Binary? && Get(r.0.value.headers, "content-length") == Some(HNum(|r.0.value.data.b|))
  {
    if !Truthy(format) then (Err(ErrorValue(be, "not found")), blanks)
    else
      var f := format.value;
      match bg
      case Transparent => (Ok(BlankReply(BlankPng, f, be)), blanks)
      case NoColor => (Err(ErrorValue(be, "Cannot read properties of undefined (reading 'slice')")), blanks)
      case Color(c) =>
        var hex := NormalizeColor(c);
        var key := hex + f;
        if key in blanks then (Ok(BlankReply(blanks[key], f, be)), blanks)
        else
          match be.render(hex, f)
          case Err(e) => (Err(e), blanks)
          case Ok(img) => (Ok(BlankReply(img, f, be)), if key !in blanks then blanks[key := img] else blanks)
  }

  /** Asking again for the same blank returns the same bytes and leaves the memo alone. */
  lemma SendBlankRepeat(c: string, format: string, be: Backend, blanks: map<string, Bytes>)
    requires format != ""
    requires SendBlank(Color(c), Some(format), be, blanks).0.Ok?
    ensures var (r1, b1) := SendBlank(Color(c), Some(format), be, blanks);
      var (r2, b2) := SendBlank(Color(c), Some(format), be, b1);
      r2 == r1 && b2 == b1
  {
  }
}
