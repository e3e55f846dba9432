/**
 * Escape decoding of string tokens, as `createToken` does it: a backslash
 * marks the next character as escaped, and an escaped character is replaced
 * by the one it names.
 */
module Escapes {

  /** What an escaped `c` becomes. A backslash never arrives here: the outer
      switch treats every backslash as the start of an escape, so the inner
      backslash case cannot be reached. */
  function Unescaped(c: char): (r: string)
    ensures c !in "ntr\"b" ==> r == ['\\', c]
    ensures c in "ntr\"b" ==> |r| == 1
  {
    match c
    case 'n' => "\n"
    case 't' => "\t"
    case 'r' => "\r"
    case '"' => "\""
    case 'b' => "\U{8}"
    case _ => ['\\', c]
  }

  /** The decoding of `s` when the previous character left `escaped` set. */
  function Decode(s: string, escaped: bool): string
  {
    if s == [] then []
    else if s[0] == '\\' then Decode(s[1..], true)
    else (if escaped then Unescaped(s[0]) else [s[0]]) + Decode(s[1..], false)
  }

  /** `Decode` after the text decoded so far, `done`: the form the decoding
      loop keeps as it goes. */
  function DecodeOnto(done: string, s: string, escaped: bool): string
    decreases |s|
  {
    if s == [] then done
    else if s[0] == '\\' then DecodeOnto(done, s[1..], true)
    else DecodeOnto(done + (if escaped then Unescaped(s[0]) else [s[0]]), s[1..], false)
  }

  lemma {:induction false} DecodeOntoAppends(done: string, s: string, escaped: bool)
    ensures DecodeOnto(done, s, escaped) == done + Decode(s, escaped)
    decreases |s|
  {
    if s == [] {
      assert done + [] == done;
    } else if s[0] == '\\' {
      DecodeOntoAppends(done, s[1..], true);
    } else {
      var out := if escaped then Unescaped(s[0]) else [s[0]];
      DecodeOntoAppends(done + out, s[1..], false);
      assert (done + out) + Decode(s[1..], false) == done + (out + Decode(s[1..], false));
    }
  }

  /** The live analyzer decodes between the first and the last character,
      dropping the quotes. */
  function StripQuotes(text: string): (body: string)
    ensures |text| >= 2 ==> body == text[1..|text| - 1]
    ensures |text| < 2 ==> body == []
  {
    if |text| < 2 then [] else text[1..|text| - 1]
  }

  /** The reference encoder: writes each character that has an escape as that
      escape. */
  function Escape(v: string): string
  {
    if v == [] then []
    else
      (match v[0]
       case '\n' => "\\n"
       case '\t' => "\\t"
       case '\r' => "\\r"
       case '"' => "\\\""
       case '\U{8}' => "\\b"
       case _ => [v[0]])
      + Escape(v[1..])
  }

  lemma {:induction false} DecodeAppendPlain(c: char, rest: string)
    requires c != '\\'
    ensures Decode([c] + rest, false) == [c] + Decode(rest, false)
  {
    assert ([c] + rest)[1..] == rest;
  }

  /** Decoding inverts the encoder on every text without a backslash. */
  lemma {:induction false} DecodeEscape(v: string)
    requires '\\' !in v
    ensures Decode(Escape(v), false) == v
  {
    if v != [] {
      DecodeEscape(v[1..]);
      var rest := Escape(v[1..]);
      assert Escape(v) == (match v[0]
        case '\n' => "\\n"
        case '\t' => "\\t"
        case '\r' => "\\r"
        case '"' => "\\\""
        case '\U{8}' => "\\b"
        case _ => [v[0]]) + rest;
      if v[0] in "\n\t\r\"\U{8}" {
        var e := Escape(v)[1];
        assert Escape(v) == ['\\', e] + rest;
        assert Escape(v)[1..] == [e] + rest;
        assert ([e] + rest)[1..] == rest;
        assert Decode(Escape(v), false) == Decode([e] + rest, true);
      } else {
        DecodeAppendPlain(v[0], rest);
      }
      assert v == [v[0]] + v[1..];
    }
  }

  /** A text without a backslash decodes to itself. */
  lemma {:induction false} DecodePlain(s: string)
    requires '\\' !in s
    ensures Decode(s, false) == s
  {
    if s != [] {
      DecodePlain(s[1..]);
      assert s == [s[0]] + s[1..];
    }
  }

  /** An escaped backslash is swallowed: a run of backslashes acts as one, so
      `\\` followed by `n` decodes to a newline and a lone `\\` pair emits
      nothing. */
  lemma BackslashPairSwallowed(rest: string, escaped: bool)
    ensures Decode(['\\', '\\'] + rest, escaped) == Decode(['\\'] + rest, true)
    ensures Decode(['\\', '\\'], escaped) == []
  {
    assert (['\\', '\\'] + rest)[1..] == ['\\'] + rest;
    assert (['\\'] + rest)[1..] == rest;
  }

  /** Escapes named in the switch become their character; any other escaped
      character is kept after its backslash. */
  lemma EscapeMeaning(c: char, rest: string)
    requires c != '\\'
    ensures Decode(['\\', c] + rest, false) == Unescaped(c) + Decode(rest, false)
  {
    assert (['\\', c] + rest)[1..] == [c] + rest;
    assert ([c] + rest)[1..] == rest;
  }

  /** A string token written with the encoder between quotes reads back as the
      original text. */
  lemma QuotedRoundTrip(v: string)
    requires '\\' !in v
    ensures Decode(StripQuotes("\"" + Escape(v) + "\""), false) == v
  {
    var t := "\"" + Escape(v) + "\"";
    assert t[1..|t| - 1] == Escape(v);
    DecodeEscape(v);
  }
}
