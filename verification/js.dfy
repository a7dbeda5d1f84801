/** JavaScript values as the server handles them: bytes, truthiness, lower-casing, UTF-8
    encoding and the values a `throw` can carry. */
module Js {
  import opened Wrappers

  newtype byte = x: int | 0 <= x < 256

  /** A Node `Buffer`. */
  type Bytes = seq<byte>

  /** Truthiness of a string-valued property: both `undefined` and `''` are falsy. */
  predicate Truthy(s: Option<string>)
  {
    s.Some? && s.value != ""
  }

  /** A template literal `${v}` of a possibly-undefined string. */
  function Show(s: Option<string>): string
  {
    if s.Some? then s.value else "undefined"
  }

  /** The value thrown or rejected with, as `makeUnknownError` inspects it. `ObjectThrown` holds
      an object's `stack` and `message` properties, `""` standing for a missing or empty one;
      `FalsyThrown` is `undefined`, `null`, `0`, `false` or `NaN`. */
  datatype Thrown = StringThrown(text: string) | ObjectThrown(stack: string, message: string) | FalsyThrown

  predicate ThrownTruthy(e: Thrown)
  {
    match e
    case StringThrown(t) => t != ""
    case ObjectThrown(_, _) => true
    case FalsyThrown => false
  }

  /** The class of an exception the server itself raises and lets escape. */
  datatype ErrorKind = TypeError | PlainError

  /** An exception that escapes an entry point: a rejected promise for the three handlers, a
      synchronous throw for the `wms` dispatcher itself. */
  datatype Failure = Failure(kind: ErrorKind, message: string)

  /** The error V8 raises on `undefined.toLowerCase()`. */
  const UndefinedToLowerCase := Failure(TypeError, "Cannot read properties of undefined (reading 'toLowerCase')")

  predicate IsUpper(c: char)
  {
    'A' <= c <= 'Z'
  }

  /** `toLowerCase` on one character (ASCII letters only). */
  function LowerChar(c: char): (r: char)
    ensures !IsUpper(r)
    ensures !IsUpper(c) ==> r == c
  {
    if IsUpper(c) then (c as int + 32) as char else c
  }

  /** `String.prototype.toLowerCase` (ASCII letters only). */
  function ToLower(s: string): (r: string)
    ensures |r| == |s|
    ensures forall i :: 0 <= i < |s| ==> r[i] == LowerChar(s[i])
  {
    if |s| == 0 then "" else [LowerChar(s[0])] + ToLower(s[1..])
  }

  predicate IsLowerCase(s: string)
  {
    forall i :: 0 <= i < |s| ==> !IsUpper(s[i])
  }

  /** Lower-casing yields lower case and leaves lower case alone. */
  lemma ToLowerProperties(s: string)
    ensures IsLowerCase(ToLower(s))
    ensures IsLowerCase(s) ==> ToLower(s) == s
    ensures ToLower(ToLower(s)) == ToLower(s)
  {
  }

  /** The UTF-8 encoding of one Unicode scalar value (section 3 of RFC 3629). */
  function EncodeChar(c: char): (r: Bytes)
    ensures 1 <= |r| <= 4
    ensures (c as int < 0x80) <==> |r| == 1
  {
    var n := c as int;
    if n < 0x80 then [n as byte]
    else if n < 0x800 then [(0xC0 + n / 0x40) as byte, (0x80 + n % 0x40) as byte]
    else if n < 0x10000 then
      [(0xE0 + n / 0x1000) as byte, (0x80 + (n / 0x40) % 0x40) as byte, (0x80 + n % 0x40) as byte]
    else
      [(0xF0 + n / 0x40000) as byte, (0x80 + (n / 0x1000) % 0x40) as byte,
       (0x80 + (n / 0x40) % 0x40) as byte, (0x80 + n % 0x40) as byte]
  }

  /** `Buffer.from(s, 'utf8')`. */
  function Utf8(s: string): (r: Bytes)
    ensures |r| >= |s|
  {
    if |s| == 0 then [] else EncodeChar(s[0]) + Utf8(s[1..])
  }

  predicate IsAscii(s: string)
  {
    forall i :: 0 <= i < |s| ==> s[i] as int < 0x80
  }

  /** An ASCII string encodes to one byte per character, each equal to the character's code. */
  lemma {:induction false} Utf8Ascii(s: string)
    requires IsAscii(s)
    ensures |Utf8(s)| == |s|
    ensures forall i :: 0 <= i < |s| ==> Utf8(s)[i] as int == s[i] as int
  {
    if |s| > 0 {
      assert IsAscii(s[1..]) by {
        forall i | 0 <= i < |s[1..]| ensures s[1..][i] as int < 0x80 {
          assert s[1..][i] == s[i + 1];
        }
      }
      Utf8Ascii(s[1..]);
    }
  }
}
