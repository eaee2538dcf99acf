/** Patterns and lists of pieces determine each other. */
module LogPatternRoundTrip {
  import opened Common
  import opened LogPattern

  // ----- From the pattern to the pieces and back ------------------------------------------

  predicate EmptyBraces(t: Token) {
    t.Directive? && t.format == Some("")
  }

  /** How many conversions of the pattern carry an empty `{}`. */
  function CountEmpty(ts: Tokens): nat {
    if ts == End then 0 else (if EmptyBraces(ts.first) then 1 else 0) + CountEmpty(ts.rest)
  }

  /** The source text without the empty braces. */
  function SqueezedText(ts: Tokens): string {
    if ts == End then "" else Squeezed(ts.first) + SqueezedText(ts.rest)
  }

  lemma {:induction false} SqueezedLength(ts: Tokens)
    ensures |Text(ts)| == |SqueezedText(ts)| + 2 * CountEmpty(ts)
    ensures CountEmpty(ts) == 0 ==> SqueezedText(ts) == Text(ts)
  {
    if ts != End {
      SqueezedLength(ts.rest);
    }
  }

  lemma {:induction false} PrintCons(p: Piece, ps: seq<Piece>)
    ensures Print([p] + ps) == PrintPiece(p) + Print(ps)
  {
    assert ([p] + ps)[1..] == ps;
  }

  lemma PrintFlush(text: string, ps: seq<Piece>)
    ensures Print(Flush(text) + ps) == text + Print(ps)
  {
    if text == "" {
      assert Flush(text) + ps == ps;
    } else {
      PrintCons(Literal(text), ps);
    }
  }

  lemma {:induction false} PrintAssembled(ts: Tokens, text: string)
    requires !HasUnclosed(ts)
    ensures Print(Assemble(ts, text)) == text + SqueezedText(ts)
  {
    if ts == End {
      PrintFlush(text, []);
      assert Flush(text) + [] == Flush(text);
    } else if ts.first.Plain? {
      PrintAssembled(ts.rest, text + [ts.first.c]);
      CharMovesOver(text, ts.first.c, SqueezedText(ts.rest));
    } else {
      PrintAssembled(ts.rest, "");
      PrintItem(ts.first, text, Assemble(ts.rest, ""), SqueezedText(ts.rest));
    }
  }

  lemma CharMovesOver(a: string, c: char, b: string)
    ensures (a + [c]) + b == a + ([c] + b)
  {
  }

  function Squeezed(t: Token): string {
    if EmptyBraces(t) then TokenText(Directive(t.name, None)) else TokenText(t)
  }

  lemma PrintItem(t: Token, text: string, rest: seq<Piece>, after: string)
    requires t.Directive? && Print(rest) == "" + after
    ensures Print(Flush(text) + [ItemOf(t)] + rest) == text + (Squeezed(t) + after)
  {
    var item := ItemOf(t);
    assert "" + after == after;
    PrintCons(item, rest);
    PrintFlush(text, [item] + rest);
    assert Flush(text) + [item] + rest == Flush(text) + ([item] + rest);
    ItemText(t);
  }

  lemma ItemText(t: Token)
    requires t.Directive?
    ensures PrintPiece(ItemOf(t)) == Squeezed(t)
  {
  }

  /** Printing the pieces of a pattern whose braces are closed gives the pattern back, character by
      character, if and only if no conversion carries an empty `{}`. */
  lemma PrintParsed(p: string)
    requires !HasUnclosed(Lex(p))
    ensures Print(Pieces(p)) == p <==> CountEmpty(Lex(p)) == 0
  {
    PrintAssembled(Lex(p), "");
    SqueezedLength(Lex(p));
    LexIsExact(p);
  }

  // ----- Normal form -----------------------------------------------------------------------

  /** Every percent sign in `text` has one right behind it; `followed` says whether one follows the text. */
  predicate PercentsOk(text: string, followed: bool) {
    forall j :: 0 <= j < |text| ==> PercentOk(text, j, followed)
  }

  predicate PercentOk(text: string, j: nat, followed: bool)
    requires j < |text|
  {
    text[j] == '%' ==> if j + 1 < |text| then text[j + 1] == '%' else followed
  }

  /** What may follow a conversion without braces. */
  predicate EndsName(c: char) {
    !InName(c) && c != '{'
  }

  predicate PieceOk(p: Piece, rest: seq<Piece>) {
    match p
    case Literal(text) => text != "" && (rest != [] ==> rest[0].Item?) && PercentsOk(text, rest != [])
    case Item(name, format) =>
      && Known(name) && '}' !in format
      && (format == "" && rest != [] && rest[0].Literal? && rest[0].text != "" ==> EndsName(rest[0].text[0]))
  }

  predicate Normal(ps: seq<Piece>) {
    ps == [] || (PieceOk(ps[0], ps[1..]) && Normal(ps[1..]))
  }

  // ----- From the pieces to the pattern and back -------------------------------------------

  /** `s` ends in `v`, which starts at `k`. */
  predicate EndsIn(s: string, k: nat, v: string) {
    k <= |s| && s[k..] == v
  }

  lemma {:induction false} NameEndShift(s: string, k: nat, v: string, n: nat)
    requires EndsIn(s, k, v) && n <= |v|
    ensures NameEnd(s, k + n) == k + NameEnd(v, n)
    decreases |v| - n
  {
    if n < |v| {
      assert s[k + n] == v[n];
      NameEndShift(s, k, v, n + 1);
    }
  }

  lemma {:induction false} FormatEndShift(s: string, k: nat, v: string, n: nat)
    requires EndsIn(s, k, v) && n <= |v|
    ensures FormatEnd(s, k + n) == k + FormatEnd(v, n)
    decreases |v| - n
  {
    if n < |v| {
      assert s[k + n] == v[n];
      FormatEndShift(s, k, v, n + 1);
    }
  }

  lemma SliceShift(s: string, k: nat, v: string, a: nat, b: nat)
    requires EndsIn(s, k, v) && a <= b <= |v|
    ensures s[k + a..k + b] == v[a..b]
  {
    assert s[k..][a..b] == s[k + a..k + b];
  }

  lemma BareShift(s: string, k: nat, v: string, i: nat)
    requires EndsIn(s, k, v) && i < |v| && (NameEnd(v, i + 1) < |v| ==> v[NameEnd(v, i + 1)] != '{')
    ensures DirectiveAt(s, k + i) == DirectiveAt(v, i)
  {
    var e := NameEnd(v, i + 1);
    NameEndShift(s, k, v, i + 1);
    SliceShift(s, k, v, i + 1, e);
    assert e < |v| ==> s[k + e] == v[e];
  }

  lemma BracedSame(s: string, k: nat, v: string, i: nat, e: nat, b: nat)
    requires EndsIn(s, k, v) && i < e < b <= |v|
    ensures BracedAt(s, k + i, k + e, k + b) == BracedAt(v, i, e, b)
  {
    SliceShift(s, k, v, i + 1, e);
    SliceShift(s, k, v, e + 1, b);
  }

  lemma BracedEnds(s: string, k: nat, v: string, i: nat, e: nat, b: nat)
    requires EndsIn(s, k, v) && i < e < b <= |v| && e == NameEnd(v, i + 1) && v[e] == '{' && b == FormatEnd(v, e + 1)
    ensures |s| == k + |v| && NameEnd(s, k + i + 1) == k + e && s[k + e] == '{' && FormatEnd(s, k + e + 1) == k + b
  {
    NameEndShift(s, k, v, i + 1);
    FormatEndShift(s, k, v, e + 1);
  }

  lemma BracedShift(s: string, k: nat, v: string, i: nat)
    requires EndsIn(s, k, v) && i < |v| && NameEnd(v, i + 1) < |v| && v[NameEnd(v, i + 1)] == '{'
    ensures DirectiveAt(s, k + i) == DirectiveAt(v, i)
  {
    var e := NameEnd(v, i + 1);
    var b := FormatEnd(v, e + 1);
    BracedEnds(s, k, v, i, e, b);
    BracedSame(s, k, v, i, e, b);
    DirectiveIs(s, k + i, k + e, k + b);
    DirectiveIs(v, i, e, b);
  }

  lemma DirectiveIs(p: string, i: nat, e: nat, b: nat)
    requires i < e < b <= |p| && p[e] == '{' && e == NameEnd(p, i + 1) && b == FormatEnd(p, e + 1)
    ensures DirectiveAt(p, i) == BracedAt(p, i, e, b)
  {
  }

  lemma TokenShift(s: string, k: nat, v: string, i: nat)
    requires EndsIn(s, k, v) && i < |v|
    ensures TokenAt(s, k + i) == TokenAt(v, i)
  {
    assert s[k + i] == v[i];
    assert i + 1 < |v| ==> s[k + (i + 1)] == v[i + 1];
    var e := NameEnd(v, i + 1);
    if e < |v| && v[e] == '{' {
      BracedShift(s, k, v, i);
    } else {
      BareShift(s, k, v, i);
    }
  }

  /** The token at every position of `p`, whether or not reading stops there. */
  function TokensAt(p: string): (at: seq<Token>)
    ensures |at| == |p| && forall i :: 0 <= i < |p| ==> at[i] == TokenAt(p, i)
  {
    seq(|p|, i requires 0 <= i < |p| => TokenAt(p, i))
  }

  /** `ts` are the tokens met from position `i` on, each leading to the next. */
  predicate Chain(at: seq<Token>, i: nat, ts: Tokens)
    decreases ts
  {
    if ts == End then i == |at| else i < |at| && at[i] == ts.first && Chain(at, i + |TokenText(ts.first)|, ts.rest)
  }

  lemma {:induction false} LexIsChain(p: string, i: nat)
    requires i <= |p|
    ensures Chain(TokensAt(p), i, LexFrom(p, i))
    decreases |p| - i
  {
    if i < |p| {
      LexIsChain(p, TokenEnd(p, i));
    }
  }

  lemma {:induction false} ChainIsLex(p: string, i: nat, ts: Tokens)
    requires i <= |p| && Chain(TokensAt(p), i, ts)
    ensures LexFrom(p, i) == ts
    decreases ts
  {
    if ts != End {
      ChainIsLex(p, TokenEnd(p, i), ts.rest);
    }
  }

  lemma {:induction false} ChainShift(front: seq<Token>, at: seq<Token>, i: nat, ts: Tokens)
    requires Chain(at, i, ts)
    ensures Chain(front + at, |front| + i, ts)
    decreases ts
  {
    if ts != End {
      ChainShift(front, at, i + |TokenText(ts.first)|, ts.rest);
    }
  }

  /** What stands in front of a position does not matter for reading on from there. */
  lemma LexShift(s: string, k: nat, v: string)
    requires EndsIn(s, k, v)
    ensures LexFrom(s, k) == LexFrom(v, 0)
  {
    LexIsChain(v, 0);
    ChainShift(TokensAt(s)[..k], TokensAt(v), 0, LexFrom(v, 0));
    assert TokensAt(s) == TokensAt(s)[..k] + TokensAt(v) by { SameTokens(s, k, v); }
    ChainIsLex(s, k, LexFrom(v, 0));
  }

  lemma SameTokens(s: string, k: nat, v: string)
    requires EndsIn(s, k, v)
    ensures TokensAt(s)[k..] == TokensAt(v)
  {
    forall i | 0 <= i < |v| ensures TokensAt(s)[k + i] == TokensAt(v)[i] {
      TokenShift(s, k, v, i);
    }
  }

  /** The characters of `text` from `j` on as tokens, in front of `ts`. */
  function Plains(text: string, j: nat, ts: Tokens): Tokens
    requires j <= |text|
    decreases |text| - j
  {
    if j == |text| then ts else Then(Plain(text[j]), Plains(text, j + 1, ts))
  }

  lemma PlainInside(text: string, rest: string, j: nat)
    requires j < |text| && PercentsOk(text, rest != "" && rest[0] == '%')
    ensures PlainAt(text + rest, j) && (text + rest)[j] == text[j]
  {
    assert PercentOk(text, j, rest != "" && rest[0] == '%');
  }

  lemma {:induction false} LexLiteral(text: string, rest: string, j: nat)
    requires j <= |text| && PercentsOk(text, rest != "" && rest[0] == '%')
    ensures LexFrom(text + rest, j) == Plains(text, j, LexFrom(rest, 0))
    decreases |text| - j
  {
    if j == |text| {
      LexShift(text + rest, j, rest);
    } else {
      PlainInside(text, rest, j);
      LexLiteral(text, rest, j + 1);
    }
  }

  function TokenOf(p: Piece): Token
    requires p.Item?
  {
    Directive(p.name, if p.format == "" then None else Some(p.format))
  }

  lemma BareToken(name: string, rest: string)
    requires Known(name) && (rest != "" ==> EndsName(rest[0]))
    ensures TokenAt("%" + name + rest, 0) == Directive(name, None)
  {
    var s := "%" + name + rest;
    assert s[1] == name[0] && IsAlpha(name[0]);
    assert s[1..2] == name;
    assert rest != "" ==> s[2] == rest[0];
    NameEndExact(s, 1, 2);
  }

  lemma BracedToken(name: string, format: string, rest: string)
    requires Known(name) && '}' !in format
    ensures TokenAt("%" + name + "{" + format + "}" + rest, 0) == Directive(name, Some(format))
  {
    var s := "%" + name + "{" + format + "}" + rest;
    var b := 3 + |format|;
    assert s[1] == name[0] && IsAlpha(name[0]) && s[2] == '{' && s[b] == '}';
    assert s[1..2] == name;
    assert s[3..b] == format;
    NameEndExact(s, 1, 2);
    assert forall i :: 3 <= i < b ==> s[i] == format[i - 3];
    FormatEndExact(s, 3, b);
  }

  lemma ItemToken(p: Piece, rest: string)
    requires p.Item? && Known(p.name) && '}' !in p.format
    requires p.format == "" && rest != "" ==> EndsName(rest[0])
    ensures TokenAt(PrintPiece(p) + rest, 0) == TokenOf(p)
  {
    if p.format == "" {
      BareToken(p.name, rest);
      assert PrintPiece(p) == "%" + p.name;
    } else {
      BracedToken(p.name, p.format, rest);
      assert PrintPiece(p) + rest == "%" + p.name + "{" + p.format + "}" + rest;
    }
  }

  lemma ItemEnd(p: Piece, rest: string)
    requires p.Item? && Known(p.name) && '}' !in p.format
    requires p.format == "" && rest != "" ==> EndsName(rest[0])
    ensures TokenAt(PrintPiece(p) + rest, 0) == TokenOf(p) && TokenEnd(PrintPiece(p) + rest, 0) == |PrintPiece(p)|
  {
    ItemToken(p, rest);
    ItemText(TokenOf(p));
    assert ItemOf(TokenOf(p)) == p;
  }

  lemma {:induction false} LexItem(p: Piece, rest: string)
    requires p.Item? && Known(p.name) && '}' !in p.format
    requires p.format == "" && rest != "" ==> EndsName(rest[0])
    ensures Lex(PrintPiece(p) + rest) == Then(TokenOf(p), Lex(rest))
  {
    ItemEnd(p, rest);
    LexShift(PrintPiece(p) + rest, |PrintPiece(p)|, rest);
  }

  /** The tokens of a printed list. */
  function TokensOf(ps: seq<Piece>): Tokens {
    if ps == [] then End
    else if ps[0].Literal? then Plains(ps[0].text, 0, TokensOf(ps[1..]))
    else Then(TokenOf(ps[0]), TokensOf(ps[1..]))
  }

  lemma FirstChar(ps: seq<Piece>)
    requires Normal(ps) && ps != []
    ensures Print(ps) != ""
    ensures Print(ps)[0] == if ps[0].Item? then '%' else ps[0].text[0]
  {
  }

  lemma {:induction false} LexPrinted(ps: seq<Piece>)
    requires Normal(ps)
    ensures Lex(Print(ps)) == TokensOf(ps)
  {
    if ps != [] {
      var rest := ps[1..];
      LexPrinted(rest);
      if rest != [] {
        FirstChar(rest);
      }
      if ps[0].Literal? {
        LexLiteral(ps[0].text, Print(rest), 0);
      } else {
        LexItem(ps[0], Print(rest));
      }
    }
  }

  lemma {:induction false} AssemblePlains(text: string, j: nat, ts: Tokens, acc: string)
    requires j <= |text|
    ensures Assemble(Plains(text, j, ts), acc) == Assemble(ts, acc + text[j..])
    decreases |text| - j
  {
    if j == |text| {
      assert acc + text[j..] == acc;
    } else {
      AssemblePlains(text, j + 1, ts, acc + [text[j]]);
      assert acc + [text[j]] + text[j + 1..] == acc + text[j..];
    }
  }

  lemma {:induction false} PlainsAreFine(text: string, j: nat, ts: Tokens)
    requires j <= |text|
    ensures var all := Plains(text, j, ts);
      HasUnclosed(all) == HasUnclosed(ts) && HasUnknown(all) == HasUnknown(ts) && CountEmpty(all) == CountEmpty(ts)
    decreases |text| - j
  {
    if j < |text| {
      PlainsAreFine(text, j + 1, ts);
    }
  }

  lemma {:induction false} AssembleLiteral(text: string, ps: seq<Piece>)
    requires text != "" && (ps == [] || ps[0].Item?) && Assemble(TokensOf(ps), "") == ps
    ensures Assemble(Plains(text, 0, TokensOf(ps)), "") == [Literal(text)] + ps
  {
    AssemblePlains(text, 0, TokensOf(ps), "");
    assert "" + text[0..] == text;
  }

  lemma {:induction false} AssembleItem(p: Piece, ps: seq<Piece>)
    requires p.Item? && Assemble(TokensOf(ps), "") == ps
    ensures Assemble(Then(TokenOf(p), TokensOf(ps)), "") == [p] + ps
  {
    assert ItemOf(TokenOf(p)) == p;
  }

  lemma {:induction false} AssembleTokens(ps: seq<Piece>)
    requires Normal(ps)
    ensures Assemble(TokensOf(ps), "") == ps
    ensures !HasUnclosed(TokensOf(ps)) && !HasUnknown(TokensOf(ps)) && CountEmpty(TokensOf(ps)) == 0
  {
    if ps != [] {
      AssembleTokens(ps[1..]);
      if ps[0].Literal? {
        AssembleLiteral(ps[0].text, ps[1..]);
        PlainsAreFine(ps[0].text, 0, TokensOf(ps[1..]));
      } else {
        AssembleItem(ps[0], ps[1..]);
      }
    }
  }

  /** Printing a list in normal form and parsing it gives the list back, without error. */
  lemma ParsePrinted(ps: seq<Piece>)
    requires Normal(ps)
    ensures Pieces(Print(ps)) == ps && !HasError(Print(ps)) && CountEmpty(Lex(Print(ps))) == 0
  {
    LexPrinted(ps);
    AssembleTokens(ps);
  }

  // ----- Which lists a pattern can give ----------------------------------------------------

  predicate StartsWithPercent(ts: Tokens) {
    ts != End && (ts.first.Plain? ==> ts.first.c == '%')
  }

  /** What reading a pattern from left to right guarantees about neighbouring tokens. */
  predicate Neighbours(ts: Tokens) {
    ts != End ==>
      && (ts.first == Plain('%') ==> StartsWithPercent(ts.rest))
      && (ts.first.Directive? && ts.first.format == None && ts.rest != End && ts.rest.first.Plain? ==>
            EndsName(ts.rest.first.c))
      && (ts.first.Directive? && ts.first.format.Some? ==> '}' !in ts.first.format.value)
      && Neighbours(ts.rest)
  }

  lemma BareBound(p: string, i: nat)
    requires i < |p| && !PlainAt(p, i) && DirectiveAt(p, i).Directive? && DirectiveAt(p, i).format == None
    ensures var n := TokenEnd(p, i); n == NameEnd(p, i + 1) && (n < |p| ==> EndsName(p[n]))
  {
    var e := NameEnd(p, i + 1);
    NameEndExact(p, i + 1, e);
    assert TokenAt(p, i) == Directive(p[i + 1..e], None);
  }

  lemma FormatBound(p: string, i: nat)
    requires i < |p| && DirectiveAt(p, i).Directive? && DirectiveAt(p, i).format.Some?
    ensures '}' !in DirectiveAt(p, i).format.value
  {
    var e := NameEnd(p, i + 1);
    FormatEndExact(p, e + 1, FormatEnd(p, e + 1));
  }

  lemma {:induction false} LexNeighbours(p: string, i: nat)
    requires i <= |p|
    ensures Neighbours(LexFrom(p, i))
    decreases |p| - i
  {
    if i < |p| {
      LexNeighbours(p, TokenEnd(p, i));
      if !PlainAt(p, i) && DirectiveAt(p, i).Directive? {
        if DirectiveAt(p, i).format == None { BareBound(p, i); } else { FormatBound(p, i); }
      }
    }
  }

  predicate Clean(ts: Tokens) {
    Neighbours(ts) && !HasUnclosed(ts) && !HasUnknown(ts) && CountEmpty(ts) == 0
  }

  lemma {:induction false} AssembleHead(ts: Tokens, text: string)
    requires !HasUnclosed(ts)
    ensures var ps := Assemble(ts, text);
      && (text != "" ==> ps != [] && ps[0].Literal? && ps[0].text != "" && ps[0].text[0] == text[0])
      && (text == "" && ps != [] && ps[0].Literal? ==>
            ts != End && ts.first.Plain? && ps[0].text != "" && ps[0].text[0] == ts.first.c)
      && (ts == End && text == "" ==> ps == [])
  {
    if ts != End && ts.first.Plain? {
      AssembleHead(ts.rest, text + [ts.first.c]);
    }
  }

  lemma PercentsGrow(text: string, c: char, followed: bool)
    requires PercentsOk(text, c == '%') && (c == '%' ==> followed)
    ensures PercentsOk(text + [c], followed)
  {
    forall j | 0 <= j < |text + [c]| ensures PercentOk(text + [c], j, followed) {
      assert j < |text| ==> PercentOk(text, j, c == '%');
    }
  }

  lemma NormalCons(p: Piece, ps: seq<Piece>)
    requires PieceOk(p, ps) && Normal(ps)
    ensures Normal([p] + ps)
  {
    assert ([p] + ps)[1..] == ps;
  }

  lemma {:induction false} NormalItem(ts: Tokens, text: string)
    requires Clean(ts) && ts != End && ts.first.Directive? && PercentsOk(text, true) && Normal(Assemble(ts.rest, ""))
    ensures Normal(Assemble(ts, text))
  {
    var item, ps := ItemOf(ts.first), Assemble(ts.rest, "");
    AssembleHead(ts.rest, "");
    NormalCons(item, ps);
    if text != "" {
      NormalCons(Literal(text), [item] + ps);
    }
    assert Flush(text) + [item] + ps == Flush(text) + ([item] + ps);
  }

  lemma {:induction false} AssembleNormal(ts: Tokens, text: string)
    requires Clean(ts) && PercentsOk(text, StartsWithPercent(ts))
    ensures Normal(Assemble(ts, text))
  {
    if ts == End {
      if text != "" {
        NormalCons(Literal(text), []);
      }
    } else if ts.first.Plain? {
      PercentsGrow(text, ts.first.c, StartsWithPercent(ts.rest));
      AssembleNormal(ts.rest, text + [ts.first.c]);
    } else {
      AssembleNormal(ts.rest, "");
      NormalItem(ts, text);
    }
  }

  /** The lists that patterns give are exactly those in normal form: a faultless pattern without empty
      braces parses to a normal list, and every normal list is what its own printed form parses to. */
  lemma ParsedIsNormal(p: string)
    requires !HasError(p) && CountEmpty(Lex(p)) == 0
    ensures Normal(Pieces(p))
  {
    LexNeighbours(p, 0);
    AssembleNormal(Lex(p), "");
  }

  lemma LastToken(p: string, i: nat)
    requires i < |p| && TokenEnd(p, i) == |p| && p[|p| - 1] == '%'
    ensures TokenAt(p, i) == Unclosed || TokenAt(p, i) == Directive("", None)
  {
    TokenIsThere(p, i);
    var s := TokenText(TokenAt(p, i));
    assert p[i..][|s| - 1] == '%';
    if TokenAt(p, i).Directive? && TokenAt(p, i).format == None {
      BareBound(p, i);
      NameEndExact(p, i + 1, |p|);
    }
  }

  lemma {:induction false} TrailingPercentFrom(p: string, i: nat)
    requires i < |p| && p[|p| - 1] == '%'
    ensures HasUnclosed(LexFrom(p, i)) || HasUnknown(LexFrom(p, i))
    decreases |p| - i
  {
    if TokenEnd(p, i) < |p| {
      TrailingPercentFrom(p, TokenEnd(p, i));
    } else {
      LastToken(p, i);
    }
  }

  /** No pattern that ends in a percent sign, doubled or not, is free of errors. */
  lemma TrailingPercent(p: string)
    requires p != "" && p[|p| - 1] == '%'
    ensures HasError(p)
  {
    TrailingPercentFrom(p, 0);
  }

  // ----- The doubled percent sign ------------------------------------------------------------

  /** Where reading would go on after the token at `i` if a doubled percent sign were an escape: past both. */
  function EscapeEnd(p: string, i: nat): (n: nat)
    requires i < |p|
    ensures TokenEnd(p, i) <= n <= |p|
  {
    if PlainAt(p, i) && p[i] == '%' then i + 2 else TokenEnd(p, i)
  }

  /** The tokens of the pattern with a doubled percent sign read as one percent sign of text. */
  function EscapeFrom(p: string, i: nat): Tokens
    requires i <= |p|
    decreases |p| - i
  {
    if i == |p| then End else Then(TokenAt(p, i), EscapeFrom(p, EscapeEnd(p, i)))
  }

  /** No doubled percent sign outside braces. */
  predicate NoDoubled(ts: Tokens) {
    ts != End ==> ts.first != Plain('%') && NoDoubled(ts.rest)
  }

  lemma {:induction false} EscapeIsShort(p: string, i: nat)
    requires i <= |p|
    ensures |Text(EscapeFrom(p, i))| <= |p| - i
    decreases |p| - i
  {
    if i < |p| {
      EscapeIsShort(p, EscapeEnd(p, i));
    }
  }

  /** At a doubled percent sign the escape reading skips a character that the code reads again. */
  lemma {:induction false} DoubledDiffers(p: string, i: nat)
    requires i < |p| && PlainAt(p, i) && p[i] == '%'
    ensures LexFrom(p, i) != EscapeFrom(p, i)
  {
    LexFromIsExact(p, i + 1);
    EscapeIsShort(p, i + 2);
    assert |Text(LexFrom(p, i + 1))| > |Text(EscapeFrom(p, i + 2))|;
  }

  lemma {:induction false} EscapeExactFrom(p: string, i: nat)
    requires i <= |p|
    ensures LexFrom(p, i) == EscapeFrom(p, i) <==> NoDoubled(LexFrom(p, i))
    decreases |p| - i
  {
    if i < |p| {
      if PlainAt(p, i) && p[i] == '%' {
        DoubledDiffers(p, i);
      } else {
        EscapeExactFrom(p, TokenEnd(p, i));
      }
    }
  }

  /** A doubled percent sign is never an escape: a pattern is read as the escape reading would have it if and
      only if no doubled percent sign occurs in it outside braces. */
  lemma EscapeExact(p: string)
    ensures Lex(p) == EscapeFrom(p, 0) <==> NoDoubled(Lex(p))
  {
    EscapeExactFrom(p, 0);
  }
}
