/**
 * The JavaScript values the server handles: parsed JSON bodies (plus `undefined`,
 * which a property read yields for a missing key), JavaScript truthiness, and the
 * behaviour of `String.prototype.trim`.
 */
module JsValues {

  datatype Option<+T> = None | Some(value: T)

  datatype Result<+T, +E> = Ok(value: T) | Err(error: E)

  /** A thrown JavaScript error: a zod validation error, or any other error with its `message`. */
  datatype JsError = ZodError | ErrorWithMessage(message: string)

  /** How a call completes: it returns a value or it throws. */
  datatype Completion = Returned(value: Json) | Threw(error: JsError)

  /** A JavaScript value as produced by `JSON.parse`, plus `undefined`. */
  datatype Json =
    | JUndefined
    | JNull
    | JBool(b: bool)
    | JNum(n: real)
    | JStr(s: string)
    | JArr(items: seq<Json>)
    | JObj(fields: map<string, Json>)

  /** JavaScript truthiness (`!!v`). NaN is not representable here. */
  predicate Truthy(v: Json) {
    match v
    case JUndefined => false
    case JNull => false
    case JBool(b) => b
    case JNum(n) => n != 0.0
    case JStr(s) => s != ""
    case JArr(_) => true
    case JObj(_) => true
  }

  /** `o[key]` on a plain object: the own value, or `undefined` when the key is missing. */
  function Get(fields: map<string, Json>, key: string): (v: Json)
    ensures key in fields ==> v == fields[key]
    ensures key !in fields ==> v == JUndefined
  {
    if key in fields then fields[key] else JUndefined
  }

  /** `a ?? b` */
  function Coalesce(a: Json, b: Json): (v: Json)
    ensures a != JNull && a != JUndefined ==> v == a
    ensures a == JNull || a == JUndefined ==> v == b
  {
    if a == JNull || a == JUndefined then b else a
  }

  /** The characters `String.prototype.trim` removes: WhiteSpace and LineTerminator. */
  predicate IsSpace(c: char) {
    || c == '\t' || c == '\n' || c == '\U{B}' || c == '\U{C}' || c == '\r' || c == ' '
    || c == '\U{A0}' || c == '\U{1680}' || ('\U{2000}' <= c <= '\U{200A}')
    || c == '\U{2028}' || c == '\U{2029}' || c == '\U{202F}' || c == '\U{205F}'
    || c == '\U{3000}' || c == '\U{FEFF}'
  }

  predicate AllSpace(s: string) {
    forall i :: 0 <= i < |s| ==> IsSpace(s[i])
  }

  /** Removes the longest all-space prefix. */
  function TrimStart(s: string): (r: string)
    ensures |r| <= |s| && r == s[|s| - |r|..]
    ensures AllSpace(s[..|s| - |r|])
    ensures r != [] ==> !IsSpace(r[0])
  {
    if s != [] && IsSpace(s[0]) then
      var r := TrimStart(s[1..]);
      assert s[..|s| - |r|] == [s[0]] + s[1..][..|s| - 1 - |r|];
      r
    else s
  }

  /** Removes the longest all-space suffix. */
  function TrimEnd(s: string): (r: string)
    ensures |r| <= |s| && r == s[..|r|]
    ensures AllSpace(s[|r|..])
    ensures r != [] ==> !IsSpace(r[|r| - 1])
  {
    if s != [] && IsSpace(s[|s| - 1]) then
      var r := TrimEnd(s[..|s| - 1]);
      assert s[|r|..] == s[..|s| - 1][|r|..] + [s[|s| - 1]];
      r
    else s
  }

  /** `s.trim()` */
  function Trim(s: string): (r: string)
    ensures r == [] || (!IsSpace(r[0]) && !IsSpace(r[|r| - 1]))
  {
    TrimEnd(TrimStart(s))
  }

  /** `s` is `core` surrounded by white space on both sides. */
  predicate Padded(s: string, core: string) {
    exists i, j :: 0 <= i <= j <= |s| && AllSpace(s[..i]) && s[i..j] == core && AllSpace(s[j..])
  }

  lemma {:induction false} TrimStartOfPadded(w: string, t: string)
    requires AllSpace(w)
    requires t == [] || !IsSpace(t[0])
    ensures TrimStart(w + t) == t
    decreases |w|
  {
    if w == [] {
      assert w + t == t;
    } else {
      assert (w + t)[1..] == w[1..] + t;
      TrimStartOfPadded(w[1..], t);
    }
  }

  lemma {:induction false} TrimEndOfPadded(t: string, w: string)
    requires AllSpace(w)
    requires t == [] || !IsSpace(t[|t| - 1])
    ensures TrimEnd(t + w) == t
    decreases |w|
  {
    if w == [] {
      assert t + w == t;
    } else {
      assert (t + w)[..|t + w| - 1] == t + w[..|w| - 1];
      TrimEndOfPadded(t, w[..|w| - 1]);
    }
  }

  lemma TrimmedIsPadded(s: string, core: string)
    requires Trim(s) == core
    ensures Padded(s, core)
  {
    var a := TrimStart(s);
    var t := TrimEnd(a);
    assert t == core;
    var i := |s| - |a|;
    var j := i + |t|;
    assert a == s[i..] && AllSpace(s[..i]);
    assert t == a[..|t|] && AllSpace(a[|t|..]);
    assert s[i..j] == a[..|t|];
    assert s[j..] == a[|t|..];
    assert 0 <= i <= j <= |s| && AllSpace(s[..i]) && s[i..j] == core && AllSpace(s[j..]);
  }

  lemma PaddedTrims(s: string, core: string)
    requires core != [] && !IsSpace(core[0]) && !IsSpace(core[|core| - 1])
    requires Padded(s, core)
    ensures Trim(s) == core
  {
    var i, j :| 0 <= i <= j <= |s| && AllSpace(s[..i]) && s[i..j] == core && AllSpace(s[j..]);
    assert s == s[..i] + (core + s[j..]);
    TrimStartOfPadded(s[..i], core + s[j..]);
    TrimEndOfPadded(core, s[j..]);
  }

  /**
   * For a core that neither starts nor ends with white space, `s.trim() === core`
   * holds exactly when `s` is `core` padded with white space.
   */
  lemma TrimEqualsIffPadded(s: string, core: string)
    requires core != [] && !IsSpace(core[0]) && !IsSpace(core[|core| - 1])
    ensures Trim(s) == core <==> Padded(s, core)
  {
    if Trim(s) == core {
      TrimmedIsPadded(s, core);
    }
    if Padded(s, core) {
      PaddedTrims(s, core);
    }
  }

  /** "Ok." — the acknowledgement body of the qBittorrent WebUI API. */
  const OkAck: string := "Ok."

  lemma TrimOkIffPadded(s: string)
    ensures Trim(s) == OkAck <==> Padded(s, OkAck)
  {
    TrimEqualsIffPadded(s, OkAck);
  }
}
