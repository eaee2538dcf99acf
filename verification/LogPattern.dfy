/** The log pattern parser: its index loops and the token grammar they implement. */
module LogPattern {
  import opened Common

  /** An entry of the parsed vector: text to copy (type 0), or a conversion (type 1). */
  datatype Piece = Literal(text: string) | Item(name: string, format: string)

  /** What is put out for an entry. */
  datatype FormatItem = StringItem(text: string) | Conversion(letter: char, format: string)

  const CONVERSIONS := "mprctndflTFN"
  const FAULT := Literal("<<pattern_error>>")

  predicate IsAlpha(c: char) {
    'a' <= c <= 'z' || 'A' <= c <= 'Z'
  }

  predicate InName(c: char) {
    IsAlpha(c) || c == '}'
  }

  predicate Known(name: string) {
    |name| == 1 && name[0] in CONVERSIONS
  }

  // ----- The grammar ----------------------------------------------------------------------

  /** The pattern cut into tokens: one character of text; a conversion with its braces, if any; or the
      percent sign of a conversion whose brace is never closed. */
  datatype Token = Plain(c: char) | Directive(name: string, format: Option<string>) | Unclosed

  datatype Tokens = End | Then(first: Token, rest: Tokens)

  /** Where the name that starts at `n` ends. */
  function NameEnd(p: string, n: nat): (e: nat)
    requires n <= |p|
    ensures n <= e <= |p|
    decreases |p| - n
  {
    if n < |p| && InName(p[n]) then NameEnd(p, n + 1) else n
  }

  /** A stretch of name characters that nothing continues is the name. */
  lemma {:induction false} NameEndExact(p: string, n: nat, e: nat)
    requires n <= e <= |p|
    ensures NameEnd(p, n) == e <==> (forall i :: n <= i < e ==> InName(p[i])) && (e < |p| ==> !InName(p[e]))
    decreases |p| - n
  {
    if n < |p| && InName(p[n]) && n < e {
      NameEndExact(p, n + 1, e);
    }
  }

  /** Where the first closing brace from `n` on is, if any. */
  function FormatEnd(p: string, n: nat): (b: nat)
    requires n <= |p|
    ensures n <= b <= |p|
    decreases |p| - n
  {
    if n < |p| && p[n] != '}' then FormatEnd(p, n + 1) else n
  }

  lemma {:induction false} FormatEndExact(p: string, n: nat, b: nat)
    requires n <= b <= |p|
    ensures FormatEnd(p, n) == b <==> (forall i :: n <= i < b ==> p[i] != '}') && (b < |p| ==> p[b] == '}')
    decreases |p| - n
  {
    if n < |p| && p[n] != '}' && n < b {
      FormatEndExact(p, n + 1, b);
    }
  }

  /** The conversion whose percent sign is at `i`. */
  function DirectiveAt(p: string, i: nat): Token
    requires i < |p|
  {
    var e := NameEnd(p, i + 1);
    if e == |p| || p[e] != '{' then Directive(p[i + 1..e], None)
    else BracedAt(p, i, e, FormatEnd(p, e + 1))
  }

  /** With the braces at `e` and `b`, if there is a closing one. */
  function BracedAt(p: string, i: nat, e: nat, b: nat): Token
    requires i < e < b <= |p|
  {
    if b == |p| then Unclosed else Directive(p[i + 1..e], Some(p[e + 1..b]))
  }

  /** A percent sign in front of another is text, and only the first of the two. */
  predicate PlainAt(p: string, i: nat)
    requires i < |p|
  {
    p[i] != '%' || (i + 1 < |p| && p[i + 1] == '%')
  }

  function TokenAt(p: string, i: nat): Token
    requires i < |p|
  {
    if PlainAt(p, i) then Plain(p[i]) else DirectiveAt(p, i)
  }

  function TokenText(t: Token): (s: string)
    ensures |s| > 0
  {
    match t
    case Plain(c) => [c]
    case Directive(name, None) => "%" + name
    case Directive(name, Some(format)) => "%" + name + "{" + format + "}"
    case Unclosed => "%"
  }

  function TokenEnd(p: string, i: nat): (n: nat)
    requires i < |p|
    ensures i < n <= |p|
  {
    TokenIsThere(p, i);
    i + |TokenText(TokenAt(p, i))|
  }

  lemma BareText(p: string, i: nat, e: nat)
    requires i < e <= |p| && p[i] == '%'
    ensures p[i..e] == "%" + p[i + 1..e]
  {
  }

  lemma BracedText(p: string, i: nat, e: nat, b: nat)
    requires i < e < b < |p| && p[i] == '%' && p[e] == '{' && p[b] == '}'
    ensures p[i..b + 1] == "%" + p[i + 1..e] + "{" + p[e + 1..b] + "}"
  {
    BareText(p, i, e);
    assert p[i..b + 1] == p[i..e] + "{" + p[e + 1..b] + "}";
  }

  /** The text of `t` stands at position `i`. */
  predicate Spelled(p: string, i: nat, t: Token) {
    var n := i + |TokenText(t)|;
    n <= |p| && p[i..n] == TokenText(t)
  }

  lemma BareIsThere(p: string, i: nat, e: nat)
    requires i < e <= |p| && p[i] == '%'
    ensures Spelled(p, i, Directive(p[i + 1..e], None)) && Spelled(p, i, Unclosed)
  {
    BareText(p, i, e);
    BareText(p, i, i + 1);
  }

  lemma BracedIsThere(p: string, i: nat, e: nat)
    requires i < e < |p| && p[i] == '%' && p[e] == '{'
    ensures Spelled(p, i, BracedAt(p, i, e, FormatEnd(p, e + 1)))
  {
    var b := FormatEnd(p, e + 1);
    FormatEndExact(p, e + 1, b);
    if b < |p| {
      BracedText(p, i, e, b);
    } else {
      BareIsThere(p, i, e);
    }
  }

  lemma TokenIsThere(p: string, i: nat)
    requires i < |p|
    ensures Spelled(p, i, TokenAt(p, i))
  {
    if PlainAt(p, i) {
      CharIsThere(p, i);
    } else {
      DirectiveIsThere(p, i);
    }
  }

  lemma CharIsThere(p: string, i: nat)
    requires i < |p|
    ensures Spelled(p, i, Plain(p[i]))
  {
    assert p[i..i + 1] == [p[i]];
  }

  lemma DirectiveIsThere(p: string, i: nat)
    requires i < |p| && p[i] == '%'
    ensures Spelled(p, i, DirectiveAt(p, i))
  {
    var e := NameEnd(p, i + 1);
    if e == |p| || p[e] != '{' {
      BareIsThere(p, i, e);
      assert DirectiveAt(p, i) == Directive(p[i + 1..e], None);
    } else {
      BracedIsThere(p, i, e);
      assert DirectiveAt(p, i) == BracedAt(p, i, e, FormatEnd(p, e + 1));
    }
  }

  function LexFrom(p: string, i: nat): Tokens
    requires i <= |p|
    decreases |p| - i
  {
    if i == |p| then End else Then(TokenAt(p, i), LexFrom(p, TokenEnd(p, i)))
  }

  function Lex(p: string): Tokens {
    LexFrom(p, 0)
  }

  function Text(ts: Tokens): string {
    if ts == End then "" else TokenText(ts.first) + Text(ts.rest)
  }

  lemma {:induction false} LexFromIsExact(p: string, i: nat)
    requires i <= |p|
    ensures Text(LexFrom(p, i)) == p[i..]
    decreases |p| - i
  {
    if i < |p| {
      var n := TokenEnd(p, i);
      LexFromIsExact(p, n);
      TokenIsThere(p, i);
      JoinAt(p, i, n);
    }
  }

  lemma JoinAt(p: string, i: nat, n: nat)
    requires i <= n <= |p|
    ensures p[i..n] + p[n..] == p[i..]
  {
  }

  /** Every pattern, faulty or not, is the concatenation of the source text of its tokens. */
  lemma LexIsExact(p: string)
    ensures Text(Lex(p)) == p
  {
    LexFromIsExact(p, 0);
  }

  /** The entries for the tokens, with `text` collected so far. A fault is entered at once, in front of
      the text that is still being collected. */
  function Assemble(ts: Tokens, text: string): seq<Piece> {
    if ts == End then Flush(text)
    else match ts.first
      case Plain(c) => Assemble(ts.rest, text + [c])
      case Directive(_, _) => Flush(text) + [ItemOf(ts.first)] + Assemble(ts.rest, "")
      case Unclosed => [FAULT] + Assemble(ts.rest, text)
  }

  function ItemOf(t: Token): Piece
    requires t.Directive?
  {
    Item(t.name, if t.format == None then "" else t.format.value)
  }

  function Flush(text: string): seq<Piece> {
    if text == "" then [] else [Literal(text)]
  }

  predicate HasUnclosed(ts: Tokens) {
    ts != End && (ts.first == Unclosed || HasUnclosed(ts.rest))
  }

  predicate HasUnknown(ts: Tokens) {
    ts != End && ((ts.first.Directive? && !Known(ts.first.name)) || HasUnknown(ts.rest))
  }

  /** `isError` of the formatter made from `p`: an unclosed brace, or a name that is no conversion. */
  predicate HasError(p: string) {
    HasUnclosed(Lex(p)) || HasUnknown(Lex(p))
  }

  function Pieces(p: string): seq<Piece> {
    Assemble(Lex(p), "")
  }

  predicate IsUnknown(p: Piece) {
    p.Item? && !Known(p.name)
  }

  function Resolve(p: Piece): FormatItem {
    match p
    case Literal(text) => StringItem(text)
    case Item(name, format) =>
      if Known(name) then Conversion(name[0], format) else StringItem("<<error_format %" + name + ">>")
  }

  function Print(ps: seq<Piece>): string {
    if ps == [] then "" else PrintPiece(ps[0]) + Print(ps[1..])
  }

  function PrintPiece(p: Piece): string {
    match p
    case Literal(text) => text
    case Item(name, format) => "%" + name + (if format == "" then "" else "{" + format + "}")
  }

  // ----- The loops ------------------------------------------------------------------------

  /** The inner loop from position `i` of a percent sign. `status` 1 means an unclosed brace. */
  method ScanDirective(p: string, i: nat) returns (n: nat, status: int, str: string, fmt: string)
    requires i < |p|
    ensures i < n <= |p| && (status == 0 || status == 1)
    ensures status == 1 <==> DirectiveAt(p, i) == Unclosed
    ensures status == 0 ==>
      var d := DirectiveAt(p, i);
      d.Directive? && Item(str, fmt) == ItemOf(d) && n == i + |TokenText(d)|
  {
    ghost var e := NameEnd(p, i + 1);
    NameEndExact(p, i + 1, e);
    ghost var b := if e < |p| then FormatEnd(p, e + 1) else e;
    if e < |p| {
      FormatEndExact(p, e + 1, b);
    }
    n, status, str, fmt := i + 1, 0, "", "";
    var begin := 0;
    while n < |p|
      invariant i < n <= |p| && fmt == "" && (status == 0 || status == 1)
      invariant status == 0 ==> n <= e && str == if n == |p| then p[i + 1..n] else ""
      invariant status == 1 ==> begin == e < n && p[e] == '{' && n <= b && (n < |p| ==> str == p[i + 1..e])
    {
      if status == 0 && !IsAlpha(p[n]) && p[n] != '{' && p[n] != '}' {
        str := p[i + 1..n];
        assert n == e && DirectiveAt(p, i) == Directive(str, None);
        break;
      }
      if status == 0 {
        if p[n] == '{' {
          str := p[i + 1..n];
          status := 1;
          begin := n;
          n := n + 1;
          continue;
        }
      } else if status == 1 {
        if p[n] == '}' {
          fmt := p[begin + 1..n];
          assert n == b && DirectiveAt(p, i) == Directive(str, Some(fmt));
          status := 0;
          n := n + 1;
          break;
        }
      }
      n := n + 1;
      if n == |p| {
        if str == "" {
          str := p[i + 1..];
        }
      }
    }
  }

  lemma {:induction false} UnknownPieces(ts: Tokens, text: string)
    ensures HasUnknown(ts) <==> exists p :: p in Assemble(ts, text) && IsUnknown(p)
  {
    if ts != End {
      match ts.first
      case Plain(c) => UnknownPieces(ts.rest, text + [c]);
      case Directive(_, _) =>
        UnknownPieces(ts.rest, "");
        var item := ItemOf(ts.first);
        assert Assemble(ts, text) == Flush(text) + [item] + Assemble(ts.rest, "");
        assert forall p :: p in Flush(text) ==> !IsUnknown(p);
        assert item in Assemble(ts, text);
      case Unclosed => UnknownPieces(ts.rest, text);
    }
  }

  /** With `vec` entered and `nstr` collected so far, the remaining tokens complete the vector. */
  ghost predicate Midway(all: Tokens, rest: Tokens, vec: seq<Piece>, nstr: string, error: bool) {
    && vec + Assemble(rest, nstr) == Assemble(all, "")
    && (error || HasUnclosed(rest) <==> HasUnclosed(all))
  }

  lemma {:induction false} DirectiveStep(all: Tokens, ts: Tokens, vec: seq<Piece>, nstr: string, error: bool)
    requires ts != End && ts.first.Directive? && Midway(all, ts, vec, nstr, error)
    ensures Midway(all, ts.rest, vec + Flush(nstr) + [ItemOf(ts.first)], "", error)
  {
    var tail := Assemble(ts.rest, "");
    assert vec + (Flush(nstr) + [ItemOf(ts.first)] + tail) == (vec + Flush(nstr) + [ItemOf(ts.first)]) + tail;
  }

  lemma {:induction false} UnclosedStep(all: Tokens, ts: Tokens, vec: seq<Piece>, nstr: string, error: bool)
    requires ts != End && ts.first == Unclosed && Midway(all, ts, vec, nstr, error)
    ensures Midway(all, ts.rest, vec + [FAULT], nstr, true)
  {
    var tail := Assemble(ts.rest, nstr);
    assert vec + ([FAULT] + tail) == (vec + [FAULT]) + tail;
  }

  /** The outer loop: the parsed vector is the assembled token list of the pattern. */
  method ParseVector(p: string) returns (vec: seq<Piece>, error: bool)
    ensures vec == Pieces(p)
    ensures error <==> HasUnclosed(Lex(p))
  {
    vec, error := [], false;
    var nstr := "";
    var i := 0;
    ghost var all, rest := Lex(p), Lex(p);
    while i < |p|
      invariant i <= |p| && rest == LexFrom(p, i)
      invariant Midway(all, rest, vec, nstr, error)
    {
      ghost var ts, next := rest, TokenEnd(p, i);
      rest := rest.rest;
      if p[i] != '%' {
        nstr := nstr + [p[i]];
        i := i + 1;
        assert i == next;
        continue;
      }
      if i + 1 < |p| {
        if p[i + 1] == '%' {
          nstr := nstr + ['%'];
          i := i + 1;
          assert i == next;
          continue;
        }
      }
      var n, status, str, fmt := ScanDirective(p, i);
      if status == 0 {
        DirectiveStep(all, ts, vec, nstr, error);
        ghost var flushed := vec + Flush(nstr);
        if nstr != "" {
          vec := vec + [Literal(nstr)];
          nstr := "";
        }
        assert vec == flushed && nstr == "";
        vec := vec + [Item(str, fmt)];
        i := n - 1;
      } else if status == 1 {
        UnclosedStep(all, ts, vec, nstr, error);
        error := true;
        vec := vec + [FAULT];
      }
      i := i + 1;
      assert i == next;
    }
    if nstr != "" {
      vec := vec + [Literal(nstr)];
    }
  }

  /** The second loop: every entry is looked up in the table of conversions. */
  method ResolveAll(vec: seq<Piece>) returns (items: seq<FormatItem>, unknown: bool)
    ensures |items| == |vec| && forall k :: 0 <= k < |items| ==> items[k] == Resolve(vec[k])
    ensures unknown <==> exists p :: p in vec && IsUnknown(p)
  {
    items, unknown := [], false;
    for k := 0 to |vec|
      invariant |items| == k && forall j :: 0 <= j < k ==> items[j] == Resolve(vec[j])
      invariant unknown <==> exists j :: 0 <= j < k && IsUnknown(vec[j])
    {
      if vec[k].Literal? {
        items := items + [StringItem(vec[k].text)];
      } else if !Known(vec[k].name) {
        items := items + [StringItem("<<error_format %" + vec[k].name + ">>")];
        unknown := true;
      } else {
        items := items + [Conversion(vec[k].name[0], vec[k].format)];
      }
    }
  }

  /** The whole initialisation: the items in pattern order, and the error flag. */
  method Init(p: string) returns (items: seq<FormatItem>, error: bool)
    ensures |items| == |Pieces(p)|
    ensures forall k :: 0 <= k < |items| ==>
      match Pieces(p)[k]
      case Literal(text) => items[k] == StringItem(text)
      case Item(name, format) =>
        if |name| == 1 && name[0] in "mprctndflTFN" then items[k] == Conversion(name[0], format)
        else items[k] == StringItem("<<error_format %" + name + ">>")
    ensures error <==> HasError(p)
  {
    var vec, unknown;
    vec, error := ParseVector(p);
    items, unknown := ResolveAll(vec);
    UnknownPieces(Lex(p), "");
    error := error || unknown;
  }
}
