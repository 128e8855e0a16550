/** Quoting of shell words: EscapeBashStr, and the ANSI-C quoting of the GNU Bash manual (section 3.1.2.4) that undoes it. */
module Escape {
  import opened Wrappers

  /** The characters that make EscapeBashStr quote. */
  const SPECIAL: seq<char> := ['$', '`', '&', ';', '>', '|', '(', ')']

  predicate ContainsAny(s: string, chars: seq<char>) {
    exists i | 0 <= i < |s| :: s[i] in chars
  }

  method ContainsOne(target: string, chars: seq<char>) returns (found: bool)
    ensures found == ContainsAny(target, chars)
  {
    var charMap: map<char, bool> := map[];
    for i := 0 to |chars|
      invariant charMap.Keys == set c | c in chars[..i]
      invariant forall c | c in charMap :: charMap[c]
    {
      charMap := charMap[chars[i] := true];
      assert chars[..i + 1] == chars[..i] + [chars[i]];
    }
    assert chars[..|chars|] == chars;
    for i := 0 to |target|
      invariant forall j | 0 <= j < i :: target[j] !in chars
    {
      if target[i] in charMap && charMap[target[i]] {
        return true;
      }
    }
    return false;
  }

  /** strings.ReplaceAll for a text of one character. */
  function ReplaceAll(s: string, c: char, rep: string): string {
    if s == [] then [] else (if s[0] == c then rep else [s[0]]) + ReplaceAll(s[1..], c, rep)
  }

  function EscapeBashStr(s: string): string {
    if !ContainsAny(s, SPECIAL) then s
    else "$'" + ReplaceAll(ReplaceAll(s, '\\', "\\\\"), '\'', "\\'") + "'"
  }

  // ---------- one escape per character ----------

  function EscapeChar(c: char): string {
    if c == '\\' then "\\\\" else if c == '\'' then "\\'" else [c]
  }

  function EscapeAll(s: string): string {
    if s == [] then [] else EscapeChar(s[0]) + EscapeAll(s[1..])
  }

  lemma {:induction false} ReplaceAppend(s: string, t: string, c: char, rep: string)
    ensures ReplaceAll(s + t, c, rep) == ReplaceAll(s, c, rep) + ReplaceAll(t, c, rep)
    decreases |s|
  {
    if s == [] {
      assert s + t == t;
    } else {
      assert (s + t)[1..] == s[1..] + t;
      ReplaceAppend(s[1..], t, c, rep);
    }
  }

  lemma ReplaceOne(c: char)
    ensures ReplaceAll(if c == '\\' then "\\\\" else [c], '\'', "\\'") == EscapeChar(c)
  {
    assert ReplaceAll("\\\\"[1..], '\'', "\\'") == "\\" + ReplaceAll("\\"[1..], '\'', "\\'");
  }

  /** The two replacement passes escape every character once: the second leaves the work of the first alone. */
  lemma {:induction false} TwoPassesEscapeOnce(s: string)
    ensures ReplaceAll(ReplaceAll(s, '\\', "\\\\"), '\'', "\\'") == EscapeAll(s)
    decreases |s|
  {
    if s != [] {
      TwoPassesEscapeOnce(s[1..]);
      var head := if s[0] == '\\' then "\\\\" else [s[0]];
      ReplaceAppend(head, ReplaceAll(s[1..], '\\', "\\\\"), '\'', "\\'");
      ReplaceOne(s[0]);
    }
  }

  // ---------- the decoder ----------

  /** What a backslash and one more character stand for; None for the escapes that take more characters. */
  function Escaped(c: char): Option<string> {
    match c
    case 'a' => Some("\U{07}")
    case 'b' => Some("\U{08}")
    case 'e' => Some("\U{1B}")
    case 'E' => Some("\U{1B}")
    case 'f' => Some("\U{0C}")
    case 'n' => Some("\n")
    case 'r' => Some("\r")
    case 't' => Some("\t")
    case 'v' => Some("\U{0B}")
    case '\\' => Some("\\")
    case '\'' => Some("'")
    case '\"' => Some("\"")
    case '?' => Some("?")
    case _ => if c in "01234567xuUc" then None else Some(['\\', c])
  }

  /** Decoded text and what follows the closing quote. */
  datatype Word = Word(text: string, rest: string)

  function DecodeBody(s: string): Option<Word> {
    if s == [] then None
    else if s[0] == '\'' then Some(Word("", s[1..]))
    else if s[0] == '\\' then
      if |s| == 1 then None
      else
        match (Escaped(s[1]), DecodeBody(s[2..]))
        case (Some(t), Some(w)) => Some(Word(t + w.text, w.rest))
        case _ => None
    else
      match DecodeBody(s[1..])
      case Some(w) => Some(Word([s[0]] + w.text, w.rest))
      case None => None
  }

  function Decode(s: string): Option<Word> {
    if |s| >= 2 && s[..2] == "$'" then DecodeBody(s[2..]) else None
  }

  /** Decoding an escaped text up to its closing quote gives the text, whatever follows. */
  lemma {:induction false} DecodeEscaped(s: string, rest: string)
    ensures DecodeBody(EscapeAll(s) + "'" + rest) == Some(Word(s, rest))
    decreases |s|
  {
    var whole := EscapeAll(s) + "'" + rest;
    if s == [] {
      assert whole == "'" + rest;
    } else {
      var tail := EscapeAll(s[1..]) + "'" + rest;
      DecodeEscaped(s[1..], rest);
      assert whole == EscapeChar(s[0]) + tail;
      assert whole[|EscapeChar(s[0])|..] == tail;
      assert [s[0]] + s[1..] == s;
    }
  }

  /** A quoted result decodes to the input with nothing after the closing quote; an unquoted one is the input. */
  lemma RoundTrip(s: string)
    ensures if ContainsAny(s, SPECIAL) then Decode(EscapeBashStr(s)) == Some(Word(s, "")) else EscapeBashStr(s) == s
  {
    if ContainsAny(s, SPECIAL) {
      TwoPassesEscapeOnce(s);
      DecodeEscaped(s, "");
      var body := EscapeAll(s) + "'";
      assert body + "" == body;
      assert EscapeBashStr(s) == "$'" + body;
      assert EscapeBashStr(s)[2..] == body;
    }
  }

  /** Different texts stay different, quoted or not. */
  lemma Injective(s: string, t: string)
    requires EscapeBashStr(s) == EscapeBashStr(t)
    ensures s == t
  {
    RoundTrip(s);
    RoundTrip(t);
    if ContainsAny(s, SPECIAL) != ContainsAny(t, SPECIAL) {
      QuotedIsSpecial(s);
      QuotedIsSpecial(t);
    }
  }

  lemma QuotedIsSpecial(s: string)
    ensures ContainsAny(s, SPECIAL) ==> ContainsAny(EscapeBashStr(s), SPECIAL)
  {
    if ContainsAny(s, SPECIAL) {
      assert EscapeBashStr(s)[0] == '$' == SPECIAL[0];
    }
  }

  /** Quoting twice is not quoting once: the first dollar sign asks for another pair of quotes. */
  lemma NotIdempotent(s: string)
    ensures EscapeBashStr(EscapeBashStr(s)) == EscapeBashStr(s) <==> !ContainsAny(s, SPECIAL)
  {
    QuotedIsSpecial(s);
    if ContainsAny(s, SPECIAL) {
      if EscapeBashStr(EscapeBashStr(s)) == EscapeBashStr(s) {
        Injective(EscapeBashStr(s), s);
        TwoPassesEscapeOnce(s);
        EscapeGrows(s);
        assert false;
      }
    }
  }

  lemma {:induction false} EscapeGrows(s: string)
    ensures |EscapeAll(s)| >= |s|
    decreases |s|
  {
    if s != [] {
      EscapeGrows(s[1..]);
    }
  }

  /** A result stays without quotes exactly when it holds none of the characters that the shell would act on. */
  lemma UnquotedIffPlain(s: string)
    ensures EscapeBashStr(s) == s <==>
              forall i | 0 <= i < |s| ::
                && s[i] != '$' && s[i] != '`' && s[i] != '&' && s[i] != ';'
                && s[i] != '>' && s[i] != '|' && s[i] != '(' && s[i] != ')'
  {
    var plain := forall i | 0 <= i < |s| ::
                   && s[i] != '$' && s[i] != '`' && s[i] != '&' && s[i] != ';'
                   && s[i] != '>' && s[i] != '|' && s[i] != '(' && s[i] != ')';
    assert forall c :: c in SPECIAL <==> c == '$' || c == '`' || c == '&' || c == ';' || c == '>' || c == '|' || c == '(' || c == ')';
    assert ContainsAny(s, SPECIAL) <==> !plain;
    if ContainsAny(s, SPECIAL) {
      TwoPassesEscapeOnce(s);
      EscapeGrows(s);
    }
  }
}
