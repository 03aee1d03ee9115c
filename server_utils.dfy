/** The server's helpers (src/server/utils.ts): placeholder substitution in
    prompt templates, the hexadecimal form of a SHA-256 digest used as a cache
    key, and the non-ASCII scrub applied to text extracted from a PDF. */
module ServerUtils {
  import opened Wrappers
  import opened JsStrings
  import opened Types

  // ---------------------------------------------------------------------------
  // Placeholder substitution: text.replace(/\{(\w+)\}/g, replacer)
  // ---------------------------------------------------------------------------

  /** `\w` of a JavaScript regular expression without the `u` flag. */
  predicate IsWordChar(c: char)
  {
    'a' <= c <= 'z' || 'A' <= c <= 'Z' || '0' <= c <= '9' || c == '_'
  }

  /** A placeholder name: one or more word characters. */
  predicate IsKey(k: string)
  {
    |k| > 0 && forall i :: 0 <= i < |k| ==> IsWordChar(k[i])
  }

  /** The length of the longest run of word characters at the start of `s`. */
  function WordRunLength(s: string): (n: nat)
    ensures n <= |s|
    ensures forall i :: 0 <= i < n ==> IsWordChar(s[i])
    ensures n < |s| ==> !IsWordChar(s[n])
  {
    if s == [] || !IsWordChar(s[0]) then 0 else 1 + WordRunLength(s[1..])
  }

  /** The name of the `{name}` token that the pattern matches at the start of
      `s`, if it matches there. The greedy `\w+` can only be followed by `}`
      where the run of word characters ends, so one run decides the match. */
  function TokenAt(s: string): (key: Option<string>)
    ensures key.Some? ==> IsKey(key.value) && |key.value| + 2 <= |s|
    ensures key.Some? ==> s[..|key.value| + 2] == "{" + key.value + "}"
    ensures (|s| == 0 || s[0] != '{') ==> key.None?
  {
    if |s| > 0 && s[0] == '{' then
      var n := WordRunLength(s[1..]);
      if n > 0 && n + 1 < |s| && s[n + 1] == '}' then
        assert s[..n + 2] == "{" + s[1..n + 1] + "}";
        Some(s[1..n + 1])
      else None
    else None
  }

  /** The match of a token of a given name at the start of a string. */
  lemma TokenAtKey(k: string, rest: string)
    requires IsKey(k)
    ensures TokenAt("{" + k + "}" + rest) == Some(k)
  {
    var s := "{" + k + "}" + rest;
    assert s[1..] == k + "}" + rest;
    var n := WordRunLength(s[1..]);
    assert s[1..][|k|] == '}';
    assert n == |k|;
    assert s[1..n + 1] == k;
  }

  /** `text.replace(/\{(\w+)\}/g, replacer)`: one left-to-right scan; each
      match is replaced by `replacer(name)` and the scan resumes after the
      match, so a replacement is never scanned again. */
  function ReplaceTokens(text: string, replacer: string -> string): string
    decreases |text|
  {
    if text == [] then ""
    else match TokenAt(text)
      case Some(key) => replacer(key) + ReplaceTokens(text[|key| + 2..], replacer)
      case None => [text[0]] + ReplaceTokens(text[1..], replacer)
  }

  /** A token is replaced by its value and the scan goes on after the closing
      brace: the value itself is not rescanned. */
  lemma ReplaceTokensAtToken(k: string, rest: string, replacer: string -> string)
    requires IsKey(k)
    ensures ReplaceTokens("{" + k + "}" + rest, replacer) == replacer(k) + ReplaceTokens(rest, replacer)
  {
    TokenAtKey(k, rest);
    assert ("{" + k + "}" + rest)[|k| + 2..] == rest;
  }

  /** Text before the first `{` is copied unchanged. */
  lemma {:induction false} ReplaceTokensPlainPrefix(prefix: string, rest: string, replacer: string -> string)
    requires '{' !in prefix
    ensures ReplaceTokens(prefix + rest, replacer) == prefix + ReplaceTokens(rest, replacer)
  {
    if prefix != [] {
      assert (prefix + rest)[0] == prefix[0] && prefix[0] in prefix;
      assert TokenAt(prefix + rest).None?;
      assert (prefix + rest)[1..] == prefix[1..] + rest;
      ReplaceTokensPlainPrefix(prefix[1..], rest, replacer);
      calc {
        ReplaceTokens(prefix + rest, replacer);
        [prefix[0]] + ReplaceTokens(prefix[1..] + rest, replacer);
        [prefix[0]] + (prefix[1..] + ReplaceTokens(rest, replacer));
        { assert [prefix[0]] + prefix[1..] == prefix; }
        prefix + ReplaceTokens(rest, replacer);
      }
    } else {
      assert prefix + rest == rest;
    }
  }

  /** True when the pattern matches nowhere in `text`. */
  predicate NoTokens(text: string)
  {
    forall i :: 0 <= i < |text| ==> TokenAt(text[i..]).None?
  }

  /** Text in which the pattern matches nowhere is returned unchanged. */
  lemma {:induction false} ReplaceTokensNoTokens(text: string, replacer: string -> string)
    requires NoTokens(text)
    ensures ReplaceTokens(text, replacer) == text
  {
    if text != [] {
      assert text[0..] == text;
      forall i | 0 <= i < |text| - 1 ensures TokenAt(text[1..][i..]).None? {
        assert text[1..][i..] == text[i + 1..];
      }
      ReplaceTokensNoTokens(text[1..], replacer);
      assert [text[0]] + text[1..] == text;
    }
  }

  /** Two replacers that agree on every name written as a token in the text
      give the same result. */
  lemma {:induction false} ReplaceTokensAgree(text: string, f: string -> string, g: string -> string)
    requires forall i :: 0 <= i < |text| && TokenAt(text[i..]).Some? ==> f(TokenAt(text[i..]).value) == g(TokenAt(text[i..]).value)
    ensures ReplaceTokens(text, f) == ReplaceTokens(text, g)
  {
    if text != [] {
      assert text[0..] == text;
      var skip := match TokenAt(text) case Some(key) => |key| + 2 case None => 1;
      forall i | 0 <= i < |text[skip..]| && TokenAt(text[skip..][i..]).Some?
        ensures f(TokenAt(text[skip..][i..]).value) == g(TokenAt(text[skip..][i..]).value)
      {
        assert text[skip..][i..] == text[skip + i..];
      }
      ReplaceTokensAgree(text[skip..], f, g);
    }
  }

  /** JavaScript truthiness of a variable's value: the empty string is falsy, an array never is. */
  predicate IsTruthy(v: VarValue)
  {
    match v
    case Text(t) => t != ""
    case Skills(_) => true
  }

  /** `String(v)`: a text is itself; an array of skill objects prints as
      `[object Object]` once per skill, separated by commas. */
  function ToDisplay(v: VarValue): string
  {
    match v
    case Text(t) => t
    case Skills(xs) => Join(seq(|xs|, _ => "[object Object]"), ",")
  }

  /** `vars?.[key] || ""` with only the map's own entries consulted: the value
      when the key is present and truthy, otherwise the empty string; a null
      map gives the empty string for every key. */
  function Lookup(vars: Option<Vars>, key: string): (r: string)
    ensures vars.None? ==> r == ""
    ensures vars.Some? && key !in vars.value ==> r == ""
    ensures vars.Some? && key in vars.value && !IsTruthy(vars.value[key]) ==> r == ""
    ensures vars.Some? && key in vars.value && IsTruthy(vars.value[key]) ==> r == ToDisplay(vars.value[key])
  {
    match vars
    case None => ""
    case Some(m) => if key in m && IsTruthy(m[key]) then ToDisplay(m[key]) else ""
  }

  function Replacer(vars: Option<Vars>): string -> string
  {
    key => Lookup(vars, key)
  }

  /** `replaceVars(text, vars)` as evidently intended: every `{name}` token
      becomes the value of `name`, or the empty string when it has none. */
  function ReplaceVars(text: string, vars: Option<Vars>): string
  {
    ReplaceTokens(text, Replacer(vars))
  }

  /** A null map blanks every token, exactly as an empty map does. */
  lemma ReplaceVarsNullIsEmpty(text: string)
    ensures ReplaceVars(text, None) == ReplaceVars(text, Some(map[]))
  {
    ReplaceTokensAgree(text, Replacer(None), Replacer(Some(map[])));
  }

  /** Only the variables named by tokens matter. */
  lemma ReplaceVarsOnlyNamedMatter(text: string, v: Vars, w: Vars)
    requires forall i :: 0 <= i < |text| && TokenAt(text[i..]).Some? ==>
      Lookup(Some(v), TokenAt(text[i..]).value) == Lookup(Some(w), TokenAt(text[i..]).value)
    ensures ReplaceVars(text, Some(v)) == ReplaceVars(text, Some(w))
  {
    ReplaceTokensAgree(text, Replacer(Some(v)), Replacer(Some(w)));
  }

  /** A value that itself looks like a token ends up in the output verbatim. */
  lemma ReplaceVarsDoesNotRescan(k: string, rest: string, vars: Vars)
    requires IsKey(k) && k in vars && vars[k] == Text("{" + k + "}")
    ensures ReplaceVars("{" + k + "}" + rest, Some(vars)) == "{" + k + "}" + ReplaceVars(rest, Some(vars))
  {
    ReplaceTokensAtToken(k, rest, Replacer(Some(vars)));
  }

  /** Plain text followed by one token: the text, then the token's value. */
  lemma ReplaceVarsTextThenToken(prefix: string, k: string, vars: Option<Vars>)
    requires '{' !in prefix && IsKey(k)
    ensures ReplaceVars(prefix + "{" + k + "}", vars) == prefix + Lookup(vars, k)
  {
    assert prefix + "{" + k + "}" == prefix + ("{" + k + "}" + "");
    ReplaceTokensPlainPrefix(prefix, "{" + k + "}" + "", Replacer(vars));
    ReplaceTokensAtToken(k, "", Replacer(vars));
  }

  /** A present variable and a missing one. */
  lemma ReplaceVarsHelloExamples(vars: Vars)
    ensures "name" in vars && vars["name"] == Text("Ana") ==> ReplaceVars("Hello {name}", Some(vars)) == "Hello Ana"
    ensures "name" !in vars ==> ReplaceVars("Hello {name}", Some(vars)) == "Hello "
  {
    var name := "name";
    assert IsKey(name) by {
      assert forall i :: 0 <= i < 4 ==> name[i] in name;
    }
    assert "Hello {name}" == "Hello " + "{" + name + "}";
    ReplaceVarsTextThenToken("Hello ", name, Some(vars));
    if "name" in vars && vars["name"] == Text("Ana") {
      assert Lookup(Some(vars), name) == "Ana";
      assert "Hello " + "Ana" == "Hello Ana";
    } else if "name" !in vars {
      assert Lookup(Some(vars), name) == "";
      assert "Hello " + "" == "Hello ";
    }
  }

  /** Text without tokens is returned as it is. */
  lemma ReplaceVarsPlainExample(vars: Vars)
    ensures ReplaceVars("No vars here", Some(vars)) == "No vars here"
  {
    var plain := "No vars here";
    assert '{' !in plain;
    ReplaceTokensPlainPrefix(plain, "", Replacer(Some(vars)));
    assert plain + "" == plain;
  }

  /** Braces that do not enclose a name stay as they are. */
  lemma ReplaceVarsMalformedVerbatim(vars: Option<Vars>)
    ensures ReplaceVars("{}", vars) == "{}"
    ensures ReplaceVars("{a-b}", vars) == "{a-b}"
    ensures ReplaceVars("{", vars) == "{"
  {
    forall i | 0 <= i < 2 ensures TokenAt("{}"[i..]).None? {
      assert WordRunLength("{}"[i..][1..]) == 0;
    }
    ReplaceTokensNoTokens("{}", Replacer(vars));
    forall i | 0 <= i < 5 ensures TokenAt("{a-b}"[i..]).None? {
      if i == 0 {
        assert "{a-b}"[0..][1..] == "a-b}";
        assert WordRunLength("-b}") == 0;
        assert WordRunLength("a-b}") == 1;
      }
    }
    ReplaceTokensNoTokens("{a-b}", Replacer(vars));
    ReplaceTokensNoTokens("{", Replacer(vars));
  }

  // ---------------------------------------------------------------------------
  // The lookup as written: `vars?.[key]` on a plain object also finds the
  // members every object inherits from Object.prototype.
  // ---------------------------------------------------------------------------

  /** `String(Object.prototype[key])` for the names an object inherits, and
      `None` for every other name. */
  function InheritedMember(key: string): Option<string>
  {
    if key == "__proto__" then Some("[object Object]")
    else if key == "constructor" then Some("function Object() { [native code] }")
    else if key in {"__defineGetter__", "__defineSetter__", "hasOwnProperty", "__lookupGetter__",
                    "__lookupSetter__", "isPrototypeOf", "propertyIsEnumerable", "toString",
                    "valueOf", "toLocaleString"}
    then Some("function " + key + "() { [native code] }")
    else None
  }

  /** `vars?.[key] || ""` as the source evaluates it on a plain object. */
  function LookupAsWritten(vars: Option<Vars>, key: string): string
  {
    match vars
    case None => ""
    case Some(m) =>
      if key in m then (if IsTruthy(m[key]) then ToDisplay(m[key]) else "")
      else InheritedMember(key).GetOr("")
  }

  function ReplacerAsWritten(vars: Option<Vars>): string -> string
  {
    key => LookupAsWritten(vars, key)
  }

  /** `replaceVars(text, vars)` exactly as written. */
  function ReplaceVarsAsWritten(text: string, vars: Option<Vars>): string
  {
    ReplaceTokens(text, ReplacerAsWritten(vars))
  }

  /** A template token named after an inherited member is not blanked: with
      no variables, `{toString}` becomes the source text of a native function. */
  lemma ReplaceVarsAsWrittenLeaksPrototype()
    ensures ReplaceVarsAsWritten("{toString}", Some(map[])) == "function toString() { [native code] }"
    ensures ReplaceVars("{toString}", Some(map[])) == ""
  {
    var leaked := "function toString() { [native code] }";
    assert "{toString}" == "{" + "toString" + "}" + "";
    ToStringIsKey();
    InheritedToString();
    ReplaceTokensAtToken("toString", "", ReplacerAsWritten(Some(map[])));
    assert ReplaceTokens("", ReplacerAsWritten(Some(map[]))) == "";
    assert ReplacerAsWritten(Some(map[]))("toString") == leaked;
    assert leaked + "" == leaked;
    ReplaceTokensAtToken("toString", "", Replacer(Some(map[])));
  }

  lemma ToStringIsKey()
    ensures IsKey("toString")
  {
    assert forall i :: 0 <= i < 8 ==> "toString"[i] in "toString";
  }

  /** `toString` is inherited, and prints as a native function. */
  lemma InheritedToString()
    ensures InheritedMember("toString") == Some("function toString() { [native code] }")
  {
    assert |"toString"| == 8;
    assert "function " + "toString" + "() { [native code] }" == "function toString() { [native code] }";
  }

  /** Where no token names an inherited member that the map does not define,
      the source and the corrected definition agree. */
  lemma ReplaceVarsAsWrittenAgrees(text: string, vars: Vars)
    requires forall i :: 0 <= i < |text| && TokenAt(text[i..]).Some? ==>
      TokenAt(text[i..]).value in vars || InheritedMember(TokenAt(text[i..]).value).None?
    ensures ReplaceVarsAsWritten(text, Some(vars)) == ReplaceVars(text, Some(vars))
  {
    ReplaceTokensAgree(text, ReplacerAsWritten(Some(vars)), Replacer(Some(vars)));
  }

  // ---------------------------------------------------------------------------
  // Cache key: the SHA-256 digest as lower-case hexadecimal
  // ---------------------------------------------------------------------------

  type Byte = b: int | 0 <= b < 256

  /** A SHA-256 digest (FIPS 180-4): 32 bytes. */
  type Digest = d: seq<Byte> | |d| == 32 witness seq(32, _ => 0)

  /** `s.padStart(width, fill)` for a one-character fill. */
  function PadStart(s: string, width: nat, fill: char): string
  {
    if |s| >= width then s else Repeat(fill, width - |s|) + s
  }

  /** The padded text is as long as the string or the width, whichever is
      larger; it ends with the string, and everything before it is fill. */
  lemma PadStartShape(s: string, width: nat, fill: char)
    ensures var r := PadStart(s, width, fill);
            |r| == (if |s| >= width then |s| else width) &&
            r[|r| - |s|..] == s &&
            forall i :: 0 <= i < |r| - |s| ==> r[i] == fill
  {
    var r := PadStart(s, width, fill);
    if |s| < width {
      assert r[|r| - |s|..] == s;
    }
  }

  predicate IsLowerHex(c: char)
  {
    '0' <= c <= '9' || 'a' <= c <= 'f'
  }

  /** `b.toString(16).padStart(2, "0")`: exactly two lower-case hex digits
      whose value is `b`. */
  function ByteToHex(b: Byte): (s: string)
    ensures |s| == 2 && IsLowerHex(s[0]) && IsLowerHex(s[1])
    ensures 16 * DigitValue(s[0]) + DigitValue(s[1]) == b
  {
    var digits := ToRadix(b, 16);
    assert b >= 16 ==> digits == ToRadix(b / 16, 16) + [Digit(b % 16)];
    PadStart(digits, 2, '0')
  }

  /** The `map(...).join("")` over the digest's bytes. */
  function HexEncode(bytes: seq<Byte>): (s: string)
    ensures |s| == 2 * |bytes|
    ensures forall i :: 0 <= i < |s| ==> IsLowerHex(s[i])
  {
    if bytes == [] then "" else ByteToHex(bytes[0]) + HexEncode(bytes[1..])
  }

  /** Reads pairs of hexadecimal digits back into bytes. */
  function HexDecode(s: string): Option<seq<Byte>>
  {
    if |s| == 0 then Some([])
    else if |s| == 1 || !IsLowerHex(s[0]) || !IsLowerHex(s[1]) then None
    else
      var b := 16 * DigitValue(s[0]) + DigitValue(s[1]);
      match HexDecode(s[2..])
      case None => None
      case Some(rest) => Some([b as Byte] + rest)
  }

  /** Decoding reads a leading pair of digits as one byte and goes on with the rest. */
  lemma HexDecodePair(pair: string, rest: string, b: Byte, tail: seq<Byte>)
    requires |pair| == 2 && IsLowerHex(pair[0]) && IsLowerHex(pair[1])
    requires 16 * DigitValue(pair[0]) + DigitValue(pair[1]) == b
    requires HexDecode(rest) == Some(tail)
    ensures HexDecode(pair + rest) == Some([b] + tail)
  {
    assert (pair + rest)[2..] == rest;
  }

  /** Each byte becomes exactly two digits, so the key can be read back into the digest. */
  lemma {:induction false} HexRoundTrip(bytes: seq<Byte>)
    ensures HexDecode(HexEncode(bytes)) == Some(bytes)
  {
    if bytes != [] {
      HexRoundTrip(bytes[1..]);
      HexDecodePair(ByteToHex(bytes[0]), HexEncode(bytes[1..]), bytes[0], bytes[1..]);
      assert [bytes[0]] + bytes[1..] == bytes;
    }
  }

  /** Distinct digests give distinct keys. */
  lemma HexInjective(a: seq<Byte>, b: seq<Byte>)
    requires HexEncode(a) == HexEncode(b)
    ensures a == b
  {
    HexRoundTrip(a);
    HexRoundTrip(b);
  }

  /** `sha256(text)` given the digest of the text's UTF-8 encoding: a 64-character lower-case hex key. */
  function Sha256Hex(digest: Digest): (key: string)
    ensures |key| == 64
    ensures forall i :: 0 <= i < |key| ==> IsLowerHex(key[i])
    ensures HexDecode(key) == Some(digest)
  {
    HexRoundTrip(digest);
    HexEncode(digest)
  }

  // ---------------------------------------------------------------------------
  // The scrub in getMarkdownFromPdfFile: md.replace(/[^\x00-\x7F]/g, " ")
  // ---------------------------------------------------------------------------

  /** A UTF-16 code unit: JavaScript strings and this regular expression work on these. */
  type CodeUnit = u: int | 0 <= u < 0x1_0000

  /** Every code unit above 0x7F becomes a space (0x20); ASCII units stay. */
  function ScrubNonAscii(md: seq<CodeUnit>): (r: seq<CodeUnit>)
    ensures |r| == |md|
    ensures forall i :: 0 <= i < |r| ==> r[i] <= 0x7F
    ensures forall i :: 0 <= i < |r| ==> (md[i] <= 0x7F ==> r[i] == md[i]) && (md[i] > 0x7F ==> r[i] == 0x20)
  {
    if md == [] then [] else [if md[0] <= 0x7F then md[0] else 0x20] + ScrubNonAscii(md[1..])
  }

  /** Scrubbing twice is scrubbing once. */
  lemma ScrubIdempotent(md: seq<CodeUnit>)
    ensures ScrubNonAscii(ScrubNonAscii(md)) == ScrubNonAscii(md)
  {
  }

  /** An all-ASCII run of code units as a string of the same characters. */
  function AsciiText(units: seq<CodeUnit>): (s: string)
    requires forall i :: 0 <= i < |units| ==> units[i] <= 0x7F
    ensures |s| == |units| && forall i :: 0 <= i < |s| ==> s[i] as int == units[i]
  {
    seq(|units|, i requires 0 <= i < |units| => units[i] as char)
  }

  /** `getMarkdownFromPdfFile` after the PDF-to-Markdown conversion: the scrubbed text. */
  function MarkdownText(md: seq<CodeUnit>): (s: string)
    ensures |s| == |md|
    ensures forall i :: 0 <= i < |s| ==> s[i] as int <= 0x7F
    ensures forall i :: 0 <= i < |s| ==> md[i] <= 0x7F ==> s[i] as int == md[i]
  {
    AsciiText(ScrubNonAscii(md))
  }
}
