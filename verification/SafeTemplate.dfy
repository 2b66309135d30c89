/**
  The template expression that carries raw markup in the email builder's document: the builder escapes the markup
  in four passes, and the template engine reads it back as a quoted string.  Of the HTML parser in between only
  angle brackets are considered; the character references that it decodes are not.
*/
module SafeTemplate {
  import opened Wrappers

  function ReplaceChar(s: string, c: char, with: string): string {
    if s == "" then "" else (if s[0] == c then with else [s[0]]) + ReplaceChar(s[1..], c, with)
  }

  function EscapeTemplateString(value: string): string {
    ReplaceChar(ReplaceChar(value, '\\', "\\\\"), '"', "\\\"")
  }

  function Escaped(raw: string): string {
    ReplaceChar(ReplaceChar(EscapeTemplateString(raw), '<', "\\x3c"), '>', "\\x3e")
  }

  function MakeSafeTemplate(raw: string): string { "{{ Safe \"" + Escaped(raw) + "\" }}" }

  // ---------------------------------------------------------------- the reader of quoted strings

  function HexDigit(c: char): Option<nat> {
    if '0' <= c <= '9' then Some((c - '0') as nat)
    else if 'a' <= c <= 'f' then Some((c - 'a') as nat + 10)
    else if 'A' <= c <= 'F' then Some((c - 'A') as nat + 10)
    else None
  }

  /**
    The string that the inside of a quoted literal stands for, and the text after the closing quote.
    A line break or the end of the text before the quote is an error.  Escapes other than a
    backslash, a quote and two hexadecimal digits are never written here and count as errors.
  */
  function Unquote(s: string): Option<(string, string)>
    decreases |s|
  {
    if s == "" || s[0] == '\n' then None
    else if s[0] == '"' then Some(("", s[1..]))
    else if s[0] != '\\' then Before(s[0], Unquote(s[1..]))
    else if |s| >= 2 && s[1] in "\\\"" then Before(s[1], Unquote(s[2..]))
    else if |s| >= 4 && s[1] == 'x' && HexDigit(s[2]).Some? && HexDigit(s[3]).Some? then
      Before((16 * HexDigit(s[2]).value + HexDigit(s[3]).value) as char, Unquote(s[4..]))
    else None
  }

  function Before(c: char, r: Option<(string, string)>): Option<(string, string)> {
    match r
    case None => None
    case Some((value, rest)) => Some(([c] + value, rest))
  }

  // ---------------------------------------------------------------- four passes are one

  /** What the four passes together write for one character. */
  function Piece(c: char): string {
    if c == '\\' then "\\\\" else if c == '"' then "\\\"" else if c == '<' then "\\x3c" else if c == '>' then "\\x3e"
    else [c]
  }

  lemma {:induction false} ReplaceConcat(a: string, b: string, c: char, with: string)
    ensures ReplaceChar(a + b, c, with) == ReplaceChar(a, c, with) + ReplaceChar(b, c, with)
    decreases |a|
  {
    if a == "" {
      assert a + b == b;
    } else {
      assert (a + b)[1..] == a[1..] + b;
      ReplaceConcat(a[1..], b, c, with);
    }
  }

  lemma {:induction false} ReplaceAbsent(s: string, c: char, with: string)
    requires c !in s
    ensures ReplaceChar(s, c, with) == s
  {
    if s != "" {
      ReplaceAbsent(s[1..], c, with);
    }
  }

  lemma OneChar(c: char, d: char, with: string)
    ensures ReplaceChar([c], d, with) == if c == d then with else [c]
  {}

  lemma EscapedConcat(a: string, b: string)
    ensures Escaped(a + b) == Escaped(a) + Escaped(b)
  {
    ReplaceConcat(a, b, '\\', "\\\\");
    var a1, b1 := ReplaceChar(a, '\\', "\\\\"), ReplaceChar(b, '\\', "\\\\");
    ReplaceConcat(a1, b1, '"', "\\\"");
    var a2, b2 := ReplaceChar(a1, '"', "\\\""), ReplaceChar(b1, '"', "\\\"");
    ReplaceConcat(a2, b2, '<', "\\x3c");
    ReplaceConcat(ReplaceChar(a2, '<', "\\x3c"), ReplaceChar(b2, '<', "\\x3c"), '>', "\\x3e");
  }

  /** No pass rewrites what an earlier one wrote. */
  lemma EscapedChar(c: char)
    ensures Escaped([c]) == Piece(c)
  {
    OneChar(c, '\\', "\\\\");
    OneChar(c, '"', "\\\"");
    OneChar(c, '<', "\\x3c");
    OneChar(c, '>', "\\x3e");
    ReplaceAbsent("\\\\", '"', "\\\"");
    ReplaceAbsent("\\\\", '<', "\\x3c");
    ReplaceAbsent("\\\\", '>', "\\x3e");
    ReplaceAbsent("\\\"", '<', "\\x3c");
    ReplaceAbsent("\\\"", '>', "\\x3e");
    ReplaceAbsent("\\x3c", '>', "\\x3e");
  }

  /** No angle bracket is left for the HTML parser to see. */
  lemma {:induction false} NoAngles(raw: string)
    ensures '<' !in Escaped(raw) && '>' !in Escaped(raw)
  {
    if raw != "" {
      assert [raw[0]] + raw[1..] == raw;
      EscapedConcat([raw[0]], raw[1..]);
      EscapedChar(raw[0]);
      NoAngles(raw[1..]);
    }
  }

  /**
    The quoted markup reads back as the markup, up to its closing quote, exactly when the markup has
    no line break.
  */
  lemma {:induction false} ReadsBack(raw: string, rest: string)
    ensures Unquote(Escaped(raw) + "\"" + rest) == if '\n' in raw then None else Some((raw, rest))
    decreases |raw|
  {
    if raw == "" {
      assert (Escaped(raw) + "\"" + rest)[1..] == rest;
    } else {
      var c, tail := raw[0], raw[1..];
      assert [c] + tail == raw;
      ReadsBack(tail, rest);
      ReadPiece(c, Escaped(tail) + "\"" + rest);
      assert Escaped(raw) + "\"" + rest == Piece(c) + (Escaped(tail) + "\"" + rest) by {
        EscapedConcat([c], tail);
        EscapedChar(c);
      }
    }
  }

  lemma ReadPiece(c: char, s: string)
    ensures Unquote(Piece(c) + s) == if c == '\n' then None else Before(c, Unquote(s))
  {
    var p := Piece(c);
    assert (p + s)[|p|..] == s;
    if c == '<' || c == '>' {
      assert (p + s)[0] == '\\' && (p + s)[1] == 'x' && (p + s)[2] == '3';
      assert (p + s)[3] == if c == '<' then 'c' else 'e';
      assert (16 * 3 + 12) as char == '<' && (16 * 3 + 14) as char == '>';
    } else if c == '\\' || c == '"' {
      assert (p + s)[0] == '\\' && (p + s)[1] == c;
    } else {
      assert (p + s)[0] == c;
    }
  }

  const OPENING := "{{ Safe \""

  /** The template expression is one quoted string and carries exactly the markup, unless it has a line break. */
  lemma ExpressionCarriesMarkup(raw: string)
    ensures OPENING <= MakeSafeTemplate(raw)
    ensures Unquote(MakeSafeTemplate(raw)[|OPENING|..]) == if '\n' in raw then None else Some((raw, " }}"))
  {
    ReadsBack(raw, " }}");
    var inside := Escaped(raw) + "\"" + " }}";
    assert MakeSafeTemplate(raw) == OPENING + inside;
  }

  /** What is written, to the letter. */
  lemma {:induction false} WrittenAs(a: string, b: string, c: char)
    ensures Escaped("\\") == "\\\\" && Escaped("\"") == "\\\"" && Escaped("<") == "\\x3c" && Escaped(">") == "\\x3e"
    ensures c != '\\' && c != '"' && c != '<' && c != '>' ==> Escaped([c]) == [c]
    ensures Escaped("") == "" && Escaped(a + b) == Escaped(a) + Escaped(b)
    ensures MakeSafeTemplate(a) == "{{ Safe \"" + Escaped(a) + "\" }}"
  {
    EscapedChar('\\');
    EscapedChar('"');
    EscapedChar('<');
    EscapedChar('>');
    EscapedChar(c);
    EscapedConcat(a, b);
  }
}
