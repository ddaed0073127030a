/**
 The pieces of Rust's standard library text handling that the forms module
 relies on: the character classes tested by the password rules, the UTF-8
 byte length that `str::len` reports, and the double-quoted rendering that
 `{:?}` gives a string.
 */
module StdText {

  datatype Option<+T> = None | Some(value: T)

  // ---------------------------------------------------------------------------
  // Character classes (`char::is_uppercase`, `is_lowercase`, `is_numeric`),
  // restricted to their ASCII members.
  // ---------------------------------------------------------------------------

  predicate IsUpper(c: char) { 'A' <= c <= 'Z' }

  predicate IsLower(c: char) { 'a' <= c <= 'z' }

  predicate IsNumeric(c: char) { '0' <= c <= '9' }

  // ---------------------------------------------------------------------------
  // UTF-8 length (`str::len` counts bytes, not characters).
  // ---------------------------------------------------------------------------

  /** Number of bytes UTF-8 uses for one scalar value (RFC 3629, section 3). */
  function Utf8Width(c: char): (w: nat)
    ensures 1 <= w <= 4
    ensures w == 1 <==> c as int < 0x80
  {
    if c as int < 0x80 then 1
    else if c as int < 0x800 then 2
    else if c as int < 0x1_0000 then 3
    else 4
  }

  /** Length in bytes of the UTF-8 encoding of `s`, as Rust's `str::len`. */
  function ByteLen(s: string): (n: nat)
    ensures |s| <= n <= 4 * |s|
  {
    if s == [] then 0 else Utf8Width(s[0]) + ByteLen(s[1..])
  }

  predicate IsAscii(s: string) {
    forall i :: 0 <= i < |s| ==> s[i] as int < 0x80
  }

  lemma {:induction false} ByteLenConcat(s: string, t: string)
    ensures ByteLen(s + t) == ByteLen(s) + ByteLen(t)
  {
    if s != [] {
      assert (s + t)[0] == s[0];
      assert (s + t)[1..] == s[1..] + t;
      ByteLenConcat(s[1..], t);
    } else {
      assert s + t == t;
    }
  }

  /** The byte length equals the character count exactly when every character is ASCII. */
  lemma {:induction false} ByteLenIsCharCountIffAscii(s: string)
    ensures ByteLen(s) == |s| <==> IsAscii(s)
  {
    if s != [] {
      ByteLenIsCharCountIffAscii(s[1..]);
      if IsAscii(s) {
        assert IsAscii(s[1..]) by {
          forall i | 0 <= i < |s[1..]| ensures s[1..][i] as int < 0x80 {
            assert s[1..][i] == s[i + 1];
          }
        }
      } else {
        var i :| 0 <= i < |s| && s[i] as int >= 0x80;
        if i > 0 {
          assert s[1..][i - 1] == s[i];
        }
      }
    }
  }

  // ---------------------------------------------------------------------------
  // `{:?}` on a string: a double-quoted literal with backslash escapes.
  // ---------------------------------------------------------------------------

  /** The escape that `char::escape_debug` gives one character inside a string literal. */
  function EscapeChar(c: char): (e: string)
    ensures 1 <= |e| <= 2
    ensures e[0] == '\\' <==> |e| == 2
    ensures e[0] != '"'
  {
    match c
    case '\0' => "\\0"
    case '\t' => "\\t"
    case '\r' => "\\r"
    case '\n' => "\\n"
    case '\\' => "\\\\"
    case '"' => "\\\""
    case _ => [c]
  }

  /** The character an escape `\x` (given `x`) stands for, if `x` is one Rust writes. */
  function EscapedChar(x: char): (r: Option<char>)
    ensures r.Some? ==> EscapeChar(r.value) == ['\\', x]
  {
    match x
    case '0' => Some('\0')
    case 't' => Some('\t')
    case 'r' => Some('\r')
    case 'n' => Some('\n')
    case '\\' => Some('\\')
    case '"' => Some('"')
    case _ => None
  }

  function EscapeDebug(s: string): string {
    if s == [] then [] else EscapeChar(s[0]) + EscapeDebug(s[1..])
  }

  /** `format!("{:?}", s)` for a string `s`. */
  function DebugQuote(s: string): (q: string)
    ensures |q| >= 2 && q[0] == '"' && q[|q| - 1] == '"'
  {
    "\"" + EscapeDebug(s) + "\""
  }

  /** Reads back the text between the quotes of a rendered string literal. */
  function Unescape(t: string): Option<string> {
    if t == [] then Some([])
    else if t[0] == '"' then None
    else if t[0] != '\\' then
      match Unescape(t[1..])
      case None => None
      case Some(rest) => Some([t[0]] + rest)
    else if |t| < 2 then None
    else
      match EscapedChar(t[1])
      case None => None
      case Some(c) =>
        match Unescape(t[2..])
        case None => None
        case Some(rest) => Some([c] + rest)
  }

  lemma {:induction false} UnescapeEscapeDebug(s: string)
    ensures Unescape(EscapeDebug(s)) == Some(s)
  {
    if s != [] {
      var e, rest := EscapeChar(s[0]), EscapeDebug(s[1..]);
      var t := e + rest;
      assert EscapeDebug(s) == t;
      UnescapeEscapeDebug(s[1..]);
      if |e| == 1 {
        assert t[0] == s[0] && t[1..] == rest;
      } else {
        assert t[0] == '\\' && t[2..] == rest;
        assert EscapedChar(t[1]) == Some(s[0]) by {
          assert e == ['\\', t[1]];
        }
      }
      assert [s[0]] + s[1..] == s;
    }
  }

  /** Inverse of `DebugQuote`: strips the quotes and undoes the escapes. */
  function Unquote(q: string): Option<string> {
    if |q| >= 2 && q[0] == '"' && q[|q| - 1] == '"' then Unescape(q[1..|q| - 1]) else None
  }

  lemma UnquoteDebugQuote(s: string)
    ensures Unquote(DebugQuote(s)) == Some(s)
  {
    var q := DebugQuote(s);
    assert q[1..|q| - 1] == EscapeDebug(s);
    UnescapeEscapeDebug(s);
  }

  /** Distinct strings get distinct `{:?}` renderings. */
  lemma DebugQuoteInjective(s: string, t: string)
    ensures DebugQuote(s) == DebugQuote(t) <==> s == t
  {
    UnquoteDebugQuote(s);
    UnquoteDebugQuote(t);
  }
}
