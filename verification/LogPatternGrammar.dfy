/** The grammar of log patterns as rules on text, and what patterns of each shape become. The rules name the characters
    themselves, cover every pattern, and so say all there is to say about how a pattern is read. */
module LogPatternGrammar {
  import opened Common
  import opened LogPattern
  import opened LogPatternRoundTrip

  /** What a conversion's name is made of: ASCII letters and closing braces. */
  predicate NameChar(c: char) {
    'a' <= c <= 'z' || 'A' <= c <= 'Z' || c == '}'
  }

  predicate IsName(name: string) {
    forall i :: 0 <= i < |name| ==> NameChar(name[i])
  }

  /** What may stand behind a conversion without braces: nothing, or a character that is no letter and no brace;
      and behind a bare percent sign no other. */
  predicate EndsBare(name: string, rest: string) {
    rest != "" ==> !NameChar(rest[0]) && rest[0] != '{' && (name == "" ==> rest[0] != '%')
  }

  // ----- The rules ------------------------------------------------------------------------------

  lemma {:induction false} FirstToken(p: string, t: Token, rest: string)
    requires p != "" && TokenAt(p, 0) == t && EndsIn(p, |TokenText(t)|, rest)
    ensures Lex(p) == Then(t, Lex(rest))
  {
    LexShift(p, |TokenText(t)|, rest);
  }

  /** A character other than a percent sign is text. */
  lemma PlainRule(c: char, rest: string)
    requires c != '%'
    ensures Lex([c] + rest) == Then(Plain(c), Lex(rest))
  {
    FirstToken([c] + rest, Plain(c), rest);
  }

  /** Of two percent signs the first is text, and the second is read again. */
  lemma DoubledRule(rest: string)
    ensures Lex("%%" + rest) == Then(Plain('%'), Lex("%" + rest))
  {
    var p := "%%" + rest;
    assert p[1..] == "%" + rest;
    FirstToken(p, Plain('%'), "%" + rest);
  }

  lemma BareAt(name: string, rest: string)
    requires IsName(name) && EndsBare(name, rest)
    ensures TokenAt("%" + name + rest, 0) == Directive(name, None)
  {
    var p, e := "%" + name + rest, 1 + |name|;
    assert forall i :: 1 <= i < e ==> p[i] == name[i - 1];
    assert rest != "" ==> p[e] == rest[0];
    NameEndExact(p, 1, e);
    assert p[1..e] == name;
    assert name != "" ==> p[1] == name[0];
  }

  /** A percent sign, a name, and what ends it: a conversion without format. */
  lemma BareRule(name: string, rest: string)
    requires IsName(name) && EndsBare(name, rest)
    ensures Lex("%" + name + rest) == Then(Directive(name, None), Lex(rest))
  {
    BareAt(name, rest);
    FirstToken("%" + name + rest, Directive(name, None), rest);
  }

  lemma OpenAt(name: string, rest: string)
    requires IsName(name)
    ensures var p := "%" + name + "{" + rest; var e := 1 + |name|;
      NameEnd(p, 1) == e && p[e] == '{' && p[1..e] == name && p[e + 1..] == rest && !PlainAt(p, 0)
  {
    var p, e := "%" + name + "{" + rest, 1 + |name|;
    assert forall i :: 1 <= i < e ==> p[i] == name[i - 1];
    assert p[e] == '{';
    NameEndExact(p, 1, e);
    assert name != "" ==> p[1] == name[0];
  }

  lemma BracedAtStart(name: string, format: string, rest: string)
    requires IsName(name) && '}' !in format
    ensures TokenAt("%" + name + "{" + (format + "}" + rest), 0) == Directive(name, Some(format))
  {
    var tail := format + "}" + rest;
    var p, e := "%" + name + "{" + tail, 1 + |name|;
    OpenAt(name, tail);
    var b := e + 1 + |format|;
    assert forall i :: e < i < b ==> p[i] == format[i - e - 1];
    assert p[b] == '}';
    FormatEndExact(p, e + 1, b);
    assert p[e + 1..b] == format;
  }

  /** With braces: a conversion with what is between them, up to the first closing one, as its format. */
  lemma BracedRule(name: string, format: string, rest: string)
    requires IsName(name) && '}' !in format
    ensures Lex("%" + name + "{" + format + "}" + rest) == Then(Directive(name, Some(format)), Lex(rest))
  {
    var p := "%" + name + "{" + format + "}" + rest;
    BracedAtStart(name, format, rest);
    assert p == "%" + name + "{" + (format + "}" + rest);
    FirstToken(p, Directive(name, Some(format)), rest);
  }

  lemma UnclosedAtStart(name: string, format: string)
    requires IsName(name) && '}' !in format
    ensures TokenAt("%" + name + "{" + format, 0) == Unclosed
  {
    var p, e := "%" + name + "{" + format, 1 + |name|;
    OpenAt(name, format);
    assert forall i :: e < i < |p| ==> p[i] == format[i - e - 1];
    FormatEndExact(p, e + 1, |p|);
  }

  /** With a brace that is never closed: a fault, and reading goes on behind the percent sign. */
  lemma UnclosedRule(name: string, format: string)
    requires IsName(name) && '}' !in format
    ensures Lex("%" + name + "{" + format) == Then(Unclosed, Lex(name + "{" + format))
  {
    var p := "%" + name + "{" + format;
    UnclosedAtStart(name, format);
    assert p[1..] == name + "{" + format;
    FirstToken(p, Unclosed, name + "{" + format);
  }

  lemma NameIs(p: string, e: nat)
    requires p != "" && e == NameEnd(p, 1)
    ensures 1 <= e && IsName(p[1..e]) && (e < |p| ==> !NameChar(p[e]))
  {
    NameEndExact(p, 1, e);
  }

  /** There is a rule for every pattern. */
  lemma RulesCover(p: string)
    requires p != ""
    ensures
      || p[0] != '%'
      || (|p| > 1 && p[1] == '%')
      || (exists e :: 1 <= e <= |p| && IsName(p[1..e]) && EndsBare(p[1..e], p[e..]))
      || (exists e, b :: 1 <= e < b < |p| && IsName(p[1..e]) && p[e] == '{' && '}' !in p[e + 1..b] && p[b] == '}')
      || (exists e :: 1 <= e < |p| && IsName(p[1..e]) && p[e] == '{' && '}' !in p[e + 1..])
  {
    var e := NameEnd(p, 1);
    NameIs(p, e);
    if e < |p| && p[e] == '{' {
      var b := FormatEnd(p, e + 1);
      FormatEndExact(p, e + 1, b);
      assert '}' !in p[e + 1..b];
      assert b == |p| ==> p[e + 1..b] == p[e + 1..];
    } else {
      assert e < |p| ==> p[e..][0] == p[e];
      assert e == 1 < |p| ==> p[1..][0] == p[1];
    }
  }

  // ----- What becomes of them ---------------------------------------------------------------------

  /** The conversions there are. */
  lemma KnownMeans(name: string)
    ensures Known(name) <==> name in {"m", "p", "r", "c", "t", "n", "d", "f", "l", "T", "F", "N"}
  {
    if Known(name) {
      assert name == [name[0]];
    }
  }

  predicate Occurs(t: Token, ts: Tokens) {
    ts != End && (ts.first == t || Occurs(t, ts.rest))
  }

  /** A pattern has an error exactly when a brace in it is never closed, or a conversion is none of those. */
  lemma ErrorMeans(p: string)
    ensures HasError(p) <==>
      || Occurs(Unclosed, Lex(p))
      || exists name, format ::
           && Occurs(Directive(name, format), Lex(p))
           && name !in {"m", "p", "r", "c", "t", "n", "d", "f", "l", "T", "F", "N"}
  {
    UnclosedMeans(Lex(p));
    UnknownMeans(Lex(p));
  }

  lemma {:induction false} UnclosedMeans(ts: Tokens)
    ensures HasUnclosed(ts) <==> Occurs(Unclosed, ts)
  {
    if ts != End {
      UnclosedMeans(ts.rest);
    }
  }

  lemma {:induction false} UnknownMeans(ts: Tokens)
    ensures HasUnknown(ts) <==>
      exists name, format ::
        && Occurs(Directive(name, format), ts)
        && name !in {"m", "p", "r", "c", "t", "n", "d", "f", "l", "T", "F", "N"}
  {
    if ts != End {
      UnknownMeans(ts.rest);
      if ts.first.Directive? {
        KnownMeans(ts.first.name);
        assert Occurs(Directive(ts.first.name, ts.first.format), ts);
      }
      assert forall t :: Occurs(t, ts.rest) ==> Occurs(t, ts);
    }
  }

  lemma {:induction false} LexPlain(text: string, rest: string)
    requires '%' !in text
    ensures Lex(text + rest) == Plains(text, 0, Lex(rest))
  {
    LexLiteral(text, rest, 0);
  }

  /** A conversion ends in front of the first character that is no letter and no brace, which is text again. */
  lemma ConversionThenText(x: char, text: string)
    requires Known([x]) && text != "" && '%' !in text && !NameChar(text[0]) && text[0] != '{'
    ensures Pieces("%" + [x] + text) == [Item([x], ""), Literal(text)] && !HasError("%" + [x] + text)
  {
    assert IsAlpha(x);
    BareRule([x], text);
    TextPieces(text, "");
    assert "" + text == text;
  }

  lemma TextPieces(text: string, acc: string)
    requires '%' !in text
    ensures Assemble(Lex(text), acc) == Flush(acc + text) && !HasUnclosed(Lex(text)) && !HasUnknown(Lex(text))
  {
    assert text + "" == text;
    LexPlain(text, "");
    AssemblePlains(text, 0, End, acc);
    PlainsAreFine(text, 0, End);
    assert text[0..] == text;
  }

  /** An unclosed brace: the fault is put in front of all the text around it, and the error flag is set. */
  lemma UnclosedPieces(text: string, name: string, format: string)
    requires '%' !in text && IsName(name) && '}' !in format && '%' !in format
    ensures var p := text + ("%" + name + "{" + format);
      HasError(p) && Pieces(p) == [Literal("<<pattern_error>>"), Literal(text + (name + "{" + format))]
  {
    var rest := name + "{" + format;
    assert '%' !in rest;
    LexPlain(text, "%" + name + "{" + format);
    UnclosedRule(name, format);
    var ts := Lex("%" + name + "{" + format);
    AssemblePlains(text, 0, ts, "");
    assert "" + text[0..] == text;
    PlainsAreFine(text, 0, ts);
    TextPieces(rest, text);
  }
}
