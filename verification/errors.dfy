/** OWS Common 1.1.0 exception reports (section 8 of OGC 06-121r3) and their memo:
    `makeError` (lib/makeError.js) and `makeUnknownError` (lib/makeUnknownError.js). */
module Errors {
  import opened Wrappers
  import opened Js
  import opened JsObject
  import opened Text
  import opened Model

  /** The arguments of `makeError(text, code, locator)`. */
  datatype Exception = Exception(text: string, code: string, locator: Option<string>)

  /** The same exception with a falsy locator dropped, as the document records it. */
  function Effective(ex: Exception): Exception
  {
    if Truthy(ex.locator) then ex else ex.(locator := None)
  }

  /** Handlebars' escaping of one character of a `{{value}}` substitution. */
  function EscapeChar(c: char): string
  {
    if c == '&' then "&amp;"
    else if c == '<' then "&lt;"
    else if c == '>' then "&gt;"
    else if c == '"' then "&quot;"
    else if c == '\'' then "&#x27;"
    else if c == '`' then "&#x60;"
    else if c == '=' then "&#x3D;"
    else [c]
  }

  function Escape(s: string): string
  {
    if |s| == 0 then "" else EscapeChar(s[0]) + Escape(s[1..])
  }

  /** Decoding of the seven entities `Escape` produces; anything else is kept. */
  function Unescape(s: string): string
    decreases |s|
  {
    if |s| == 0 then ""
    else if StartsWith(s, "&amp;") then "&" + Unescape(s[5..])
    else if StartsWith(s, "&lt;") then "<" + Unescape(s[4..])
    else if StartsWith(s, "&gt;") then ">" + Unescape(s[4..])
    else if StartsWith(s, "&quot;") then "\"" + Unescape(s[6..])
    else if StartsWith(s, "&#x27;") then "'" + Unescape(s[6..])
    else if StartsWith(s, "&#x60;") then "`" + Unescape(s[6..])
    else if StartsWith(s, "&#x3D;") then "=" + Unescape(s[6..])
    else [s[0]] + Unescape(s[1..])
  }

  /** A string that differs from `p` at some index does not start with `p`. */
  lemma NotPrefix(s: string, p: string, i: nat)
    requires i < |p| && i < |s| && s[i] != p[i]
    ensures !StartsWith(s, p)
  {
    if |p| <= |s| {
      assert s[..|p|][i] == s[i];
    }
  }

  lemma PrefixOf(a: string, b: string)
    ensures StartsWith(a + b, a) && (a + b)[|a|..] == b
  {
    assert (a + b)[..|a|] == a;
  }

  lemma UnescapeEscapeChar(c: char, t: string)
    ensures Unescape(EscapeChar(c) + t) == [c] + Unescape(t)
  {
    var e := EscapeChar(c);
    var s := e + t;
    PrefixOf(e, t);
    assert s[0] == e[0];
    if c == '&' {
    } else if c == '<' {
      NotPrefix(s, "&amp;", 1);
    } else if c == '>' {
      NotPrefix(s, "&amp;", 1);
      NotPrefix(s, "&lt;", 1);
    } else if c == '"' {
      NotPrefix(s, "&amp;", 1);
      NotPrefix(s, "&lt;", 1);
      NotPrefix(s, "&gt;", 1);
    } else if c == '\'' {
      NotPrefix(s, "&amp;", 1);
      NotPrefix(s, "&lt;", 1);
      NotPrefix(s, "&gt;", 1);
      NotPrefix(s, "&quot;", 1);
    } else if c == '`' {
      NotPrefix(s, "&amp;", 1);
      NotPrefix(s, "&lt;", 1);
      NotPrefix(s, "&gt;", 1);
      NotPrefix(s, "&quot;", 1);
      NotPrefix(s, "&#x27;", 3);
    } else if c == '=' {
      NotPrefix(s, "&amp;", 1);
      NotPrefix(s, "&lt;", 1);
      NotPrefix(s, "&gt;", 1);
      NotPrefix(s, "&quot;", 1);
      NotPrefix(s, "&#x27;", 3);
      NotPrefix(s, "&#x60;", 3);
    } else {
      NotPrefix(s, "&amp;", 0);
      NotPrefix(s, "&lt;", 0);
      NotPrefix(s, "&gt;", 0);
      NotPrefix(s, "&quot;", 0);
      NotPrefix(s, "&#x27;", 0);
      NotPrefix(s, "&#x60;", 0);
      NotPrefix(s, "&#x3D;", 0);
    }
  }

  lemma {:induction false} UnescapeEscape(s: string)
    ensures Unescape(Escape(s)) == s
  {
    if |s| > 0 {
      UnescapeEscapeChar(s[0], Escape(s[1..]));
      UnescapeEscape(s[1..]);
    }
  }

  /** Escaped text holds neither a double quote nor a `<`, so it cannot end an attribute or
      open an element. */
  lemma {:induction false} EscapeIsInert(s: string)
    ensures '"' !in Escape(s) && '<' !in Escape(s)
  {
    if |s| > 0 {
      EscapeIsInert(s[1..]);
    }
  }

  const Head := "<ExceptionReport version=\"1.1.0\" xmlns=\"http://www.opengis.net/ows/1.1\"\n  xmlns:xsi=\"http://www.w3.org/2001/XMLSchema-instance\"\n  xsi:schemaLocation=\"http://www.opengis.net/ows/1.1 http://geowebcache.org/schema/ows/1.1.0/owsExceptionReport.xsd\">\n  <Exception exceptionCode=\""
  const LocatorOpen := "  locator=\""
  const TextOpen := " >\n    <ExceptionText>"
  const TextClose := "/ExceptionText>\n  </Exception>\n</ExceptionReport>\n"

  /** The exception document of `makeError`'s template: the `locator` attribute is written only
      for a truthy locator. */
  function Render(ex: Exception): string
  {
    Head + (Escape(ex.code) + "\"" + AfterCode(ex))
  }

  /** Reads an exception document back. */
  function Parse(doc: string): Option<Exception>
  {
    if !StartsWith(doc, Head) then None
    else match SplitFirst(doc[|Head|..], '"')
      case None => None
      case Some((code, rest)) =>
        if StartsWith(rest, LocatorOpen) then
          match SplitFirst(rest[|LocatorOpen|..], '"')
          case None => None
          case Some((loc, rest')) =>
            match ParseText(rest')
            case None => None
            case Some(text) => Some(Exception(Unescape(text), Unescape(code), Some(Unescape(loc))))
        else
          match ParseText(rest)
          case None => None
          case Some(text) => Some(Exception(Unescape(text), Unescape(code), None))
  }

  function ParseText(s: string): Option<string>
  {
    if !StartsWith(s, TextOpen) then None
    else match SplitFirst(s[|TextOpen|..], '<')
      case None => None
      case Some((text, tail)) => if tail == TextClose then Some(text) else None
  }

  lemma ParseTextOf(text: string)
    ensures ParseText(TextOpen + Escape(text) + "<" + TextClose) == Some(Escape(text))
  {
    var rest := Escape(text) + ['<'] + TextClose;
    assert TextOpen + Escape(text) + "<" + TextClose == TextOpen + rest;
    PrefixOf(TextOpen, rest);
    EscapeIsInert(text);
    SplitFirstOf(Escape(text), '<', TextClose);
  }

  /** What follows the code's closing quote in a rendered document. */
  function AfterCode(ex: Exception): string
  {
    (if Truthy(ex.locator) then LocatorOpen + Escape(ex.locator.value) + "\"" else "")
    + TextOpen + Escape(ex.text) + "<" + TextClose
  }

  lemma RenderSplit(ex: Exception)
    ensures StartsWith(Render(ex), Head)
    ensures SplitFirst(Render(ex)[|Head|..], '"') == Some((Escape(ex.code), AfterCode(ex)))
  {
    var tail := Escape(ex.code) + ['"'] + AfterCode(ex);
    PrefixOf(Head, tail);
    EscapeIsInert(ex.code);
    SplitFirstOf(Escape(ex.code), '"', AfterCode(ex));
  }

  lemma AfterCodeWithLocator(ex: Exception)
    requires Truthy(ex.locator)
    ensures StartsWith(AfterCode(ex), LocatorOpen)
    ensures SplitFirst(AfterCode(ex)[|LocatorOpen|..], '"')
      == Some((Escape(ex.locator.value), TextOpen + Escape(ex.text) + "<" + TextClose))
  {
    var body := TextOpen + Escape(ex.text) + "<" + TextClose;
    var tail := Escape(ex.locator.value) + ['"'] + body;
    assert AfterCode(ex) == LocatorOpen + tail;
    PrefixOf(LocatorOpen, tail);
    EscapeIsInert(ex.locator.value);
    SplitFirstOf(Escape(ex.locator.value), '"', body);
  }

  lemma AfterCodeWithoutLocator(ex: Exception)
    requires !Truthy(ex.locator)
    ensures !StartsWith(AfterCode(ex), LocatorOpen)
    ensures AfterCode(ex) == TextOpen + Escape(ex.text) + "<" + TextClose
  {
    var body := TextOpen + Escape(ex.text) + "<" + TextClose;
    assert AfterCode(ex) == body;
    PrefixOf(TextOpen, Escape(ex.text) + "<" + TextClose);
    assert body[1] == TextOpen[1];
    NotPrefix(body, LocatorOpen, 1);
  }

  /** The document determines the exception it reports: parsing a rendered document gives back
      its text, code and (truthy) locator. */
  lemma ParseRender(ex: Exception)
    ensures Parse(Render(ex)) == Some(Effective(ex))
  {
    RenderSplit(ex);
    ParseTextOf(ex.text);
    UnescapeEscape(ex.code);
    UnescapeEscape(ex.text);
    if Truthy(ex.locator) {
      AfterCodeWithLocator(ex);
      UnescapeEscape(ex.locator.value);
    } else {
      AfterCodeWithoutLocator(ex);
    }
  }

  /** `[text, code, locator].join('/')`: an undefined locator joins as the empty string. */
  function Key(ex: Exception): string
  {
    ex.text + "/" + ex.code + "/" + (if ex.locator.Some? then ex.locator.value else "")
  }

  /** Splits a key at its last two slashes. */
  function SplitKey(k: string): Option<Exception>
  {
    match SplitLast(k, '/')
    case None => None
    case Some((front, locator)) =>
      match SplitLast(front, '/')
      case None => None
      case Some((text, code)) => Some(Exception(text, code, Some(locator)))
  }

  /** Neither the code nor the locator holds a slash; the text may. */
  predicate SlashFree(ex: Exception)
  {
    '/' !in ex.code && (ex.locator.Some? ==> '/' !in ex.locator.value)
  }

  /** A slash-free key splits back into its parts, the locator as written by `join`. */
  lemma SplitKeyOf(ex: Exception)
    requires SlashFree(ex)
    ensures SplitKey(Key(ex)) == Some(Exception(ex.text, ex.code, Some(if ex.locator.Some? then ex.locator.value else "")))
  {
    var l := if ex.locator.Some? then ex.locator.value else "";
    assert Key(ex) == (ex.text + "/" + ex.code) + ['/'] + l;
    SplitLastOf(ex.text + "/" + ex.code, '/', l);
    assert ex.text + "/" + ex.code == ex.text + ['/'] + ex.code;
    SplitLastOf(ex.text, '/', ex.code);
  }

  /** Distinct slash-free exceptions get distinct keys, up to the falsy locators `join` and the
      template both treat as absent. */
  lemma KeyInjective(a: Exception, b: Exception)
    requires SlashFree(a) && SlashFree(b)
    requires Key(a) == Key(b)
    ensures Effective(a) == Effective(b) && Render(a) == Render(b)
  {
    SplitKeyOf(a);
    SplitKeyOf(b);
  }

  /** With a slash in the code, two different documents share one key. */
  lemma KeyCollision()
    ensures var a := Exception("a/b", "c", None);
            var b := Exception("a", "b/c", None);
            Key(a) == Key(b) && Render(a) != Render(b)
  {
    var a := Exception("a/b", "c", None);
    var b := Exception("a", "b/c", None);
    assert Key(a) == "a/b/c/" == Key(b);
    ParseRender(a);
    ParseRender(b);
  }

  /** The cached form of an exception document. */
  function EntryFor(be: Backend, ex: Exception): (e: ErrorEntry)
    ensures e.len == |e.resp| && e.etag == be.etag(e.resp)
  {
    var bytes := Utf8(Render(ex));
    ErrorEntry(bytes, be.etag(bytes), |bytes|)
  }

  /** Every cached entry is the document its own key describes. */
  ghost predicate MemoSound(be: Backend, errors: map<string, ErrorEntry>)
  {
    forall k :: k in errors ==> SplitKey(k).Some? && errors[k] == EntryFor(be, SplitKey(k).value)
  }

  /** Every cached entry records its own length and digest. */
  ghost predicate MemoWellFormed(be: Backend, errors: map<string, ErrorEntry>)
  {
    forall k :: k in errors ==> errors[k].len == |errors[k].resp| && errors[k].etag == be.etag(errors[k].resp)
  }

  function ErrorHeaders(e: ErrorEntry): Headers
  {
    [("content-type", HStr("application/xml")), ("content-length", HNum(e.len)), ("etag", HStr(e.etag))]
  }

  lemma ErrorHeadersGet(e: ErrorEntry)
    ensures Get(ErrorHeaders(e), "content-type") == Some(HStr("application/xml"))
    ensures Get(ErrorHeaders(e), "content-length") == Some(HNum(e.len))
    ensures Get(ErrorHeaders(e), "etag") == Some(HStr(e.etag))
  {
    var h := ErrorHeaders(e);
    assert h[1..][1..] == [("etag", HStr(e.etag))];
    assert Get(h, "etag") == Get(h[1..], "etag");
    assert Get(h[1..], "etag") == Get(h[1..][1..], "etag");
  }

  /** `makeError(text, code, locator)`: the 400 envelope of the exception document, looked up in
      the memo and rendered and stored only on a miss. */
  function MakeError(ex: Exception, be: Backend, errors: map<string, ErrorEntry>): (r: (Response, map<string, ErrorEntry>))
    ensures r.0.code == 400
    ensures Get(r.0.headers, "content-type") == Some(HStr("application/xml"))
    ensures Key(ex) in r.1 && r.0.data == r.1[Key(ex)].resp
    ensures Key(ex) in errors ==> r.1 == errors
    ensures Key(ex) !in errors ==> r.1 == errors[Key(ex) := EntryFor(be, ex)] && r.0.data == Utf8(Render(ex))
    ensures MemoWellFormed(be, errors) ==>
      MemoWellFormed(be, r.1)
      && Get(r.0.headers, "content-length") == Some(HNum(|r.0.data|))
      && Get(r.0.headers, "etag") == Some(HStr(be.etag(r.0.data)))
  {
    var key := Key(ex);
    var entry := if key in errors then errors[key] else EntryFor(be, ex);
    var errors' := if key in errors then errors else errors[key := entry];
    ErrorHeadersGet(entry);
    (Response(entry.resp, ErrorHeaders(entry), 400), errors')
  }

  /** The memo is transparent: with a sound memo and a slash-free code and locator, `makeError`
      returns exactly the freshly rendered document and keeps the memo sound. */
  lemma MakeErrorTransparent(ex: Exception, be: Backend, errors: map<string, ErrorEntry>)
    requires MemoSound(be, errors)
    requires SlashFree(ex)
    ensures MakeError(ex, be, errors).0.data == Utf8(Render(ex))
    ensures MemoSound(be, MakeError(ex, be, errors).1)
  {
    var key := Key(ex);
    SplitKeyOf(ex);
    var ex' := SplitKey(key).value;
    assert Render(ex') == Render(ex);
    if key in errors {
      assert errors[key] == EntryFor(be, ex');
    }
  }

  lemma TransparentWhenSound(ex: Exception, be: Backend, errors: map<string, ErrorEntry>)
    ensures SlashFree(ex) && MemoSound(be, errors) ==>
      MakeError(ex, be, errors).0.data == Utf8(Render(ex)) && MemoSound(be, MakeError(ex, be, errors).1)
  {
    if SlashFree(ex) && MemoSound(be, errors) {
      MakeErrorTransparent(ex, be, errors);
    }
  }

  /** Equal keys give identical bytes and digest, whether or not the first call stored them. */
  lemma MakeErrorRepeat(ex: Exception, ex': Exception, be: Backend, errors: map<string, ErrorEntry>)
    requires Key(ex) == Key(ex')
    ensures var (r1, e1) := MakeError(ex, be, errors);
            var (r2, e2) := MakeError(ex', be, e1);
            r2 == r1 && e2 == e1
  {
  }

  /** A sound memo records its own lengths and digests. */
  lemma SoundIsWellFormed(be: Backend, errors: map<string, ErrorEntry>)
    requires MemoSound(be, errors)
    ensures MemoWellFormed(be, errors)
  {
  }

  /** The message `makeUnknownError` reports for a caught value. */
  function UnknownMessage(e: Thrown, production: bool): (m: string)
    ensures production ==> m == (if e.StringThrown? then e.text else "unknown error")
    ensures !production && e.ObjectThrown? ==>
      m == (if e.stack != "" then e.stack else if e.message != "" then e.message else "unknown error")
    ensures e.StringThrown? ==> m == e.text
    ensures e.FalsyThrown? ==> m == "unknown error"
  {
    var m := if e.StringThrown? then e.text else "unknown error";
    if !production && ThrownTruthy(e) then
      match e
      case ObjectThrown(stack, message) =>
        if stack != "" then stack else if message != "" then message else m
      case _ => m
    else m
  }

  function UnknownException(e: Thrown, production: bool): Exception
  {
    Exception(UnknownMessage(e, production), "NoApplicableCode", None)
  }

  /** `makeUnknownError(e)`: the `NoApplicableCode` document without locator, sent with code 500. */
  function MakeUnknownError(e: Thrown, be: Backend, errors: map<string, ErrorEntry>): (r: (Response, map<string, ErrorEntry>))
    ensures r.0.code == 500
    ensures var (base, errors') := MakeError(UnknownException(e, be.production), be, errors);
            r.0.data == base.data && r.0.headers == base.headers && r.1 == errors'
  {
    var (resp, errors') := MakeError(UnknownException(e, be.production), be, errors);
    (resp.(code := 500), errors')
  }

  /** Setting the code to 500 touches only the returned envelope: the same document requested
      again through `makeError` still comes back with code 400 and the same bytes. */
  lemma UnknownErrorLeavesMemo(e: Thrown, be: Backend, errors: map<string, ErrorEntry>)
    ensures var (r1, e1) := MakeUnknownError(e, be, errors);
            var (r2, e2) := MakeError(UnknownException(e, be.production), be, e1);
            r2.code == 400 && r2.data == r1.data && e2 == e1
  {
  }

  /** A handler returning `makeError(...)`: the envelope, with the exception memo updated. */
  function ErrorOutcome(ex: Exception, be: Backend, st: Store): (r: Outcome)
    ensures r.Replied? && r.resp.code == 400 && r.store.blanks == st.blanks && Extends(st, r.store)
    ensures r.resp == MakeError(ex, be, st.errors).0 && r.store.errors == MakeError(ex, be, st.errors).1
    ensures SlashFree(ex) && MemoSound(be, st.errors) ==>
      MemoSound(be, r.store.errors) && r.resp.data == Utf8(Render(ex))
  {
    var (resp, errors') := MakeError(ex, be, st.errors);
    TransparentWhenSound(ex, be, st.errors);
    Replied(resp, st.(errors := errors'))
  }

  /** A handler returning `makeUnknownError(e)`. */
  function UnknownOutcome(e: Thrown, be: Backend, st: Store): (r: Outcome)
    ensures r.Replied? && r.resp.code == 500 && r.store.blanks == st.blanks && Extends(st, r.store)
    ensures r.resp == MakeUnknownError(e, be, st.errors).0 && r.store.errors == MakeUnknownError(e, be, st.errors).1
    ensures MemoSound(be, st.errors) ==>
      MemoSound(be, r.store.errors) && r.resp.data == Utf8(Render(UnknownException(e, be.production)))
  {
    var ex := UnknownException(e, be.production);
    UnknownSlashFree(e, be.production);
    var o := ErrorOutcome(ex, be, st);
    Replied(o.resp.(code := 500), o.store)
  }

  lemma UnknownSlashFree(e: Thrown, production: bool)
    ensures SlashFree(UnknownException(e, production))
  {
    var code := "NoApplicableCode";
    assert forall i :: 0 <= i < |code| ==> code[i] != '/';
  }

}
