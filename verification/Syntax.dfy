/** Tokens, and the trees they are read into. */
module Syntax {

  datatype Token = Token(kind: int, text: string)

  const TKN_END: int := 0
  const TKN_NAME: int := 1
  const TKN_NUM: int := 2
  const TKN_LABEL: int := 3
  const TKN_STRING: int := 4
  const TKN_LSQBR: int := 5
  const TKN_RSQBR: int := 6
  const TKN_LBR: int := 7
  const TKN_RBR: int := 8
  const TKN_COMMA: int := 10
  const TKN_LT: int := 12
  const TKN_GT: int := 14
  const TKN_EQ: int := 16
  const TKN_NEX: int := 18
  const TKN_LE: int := 19
  const TKN_GE: int := 20
  const TKN_AND: int := 22
  const TKN_OR: int := 23
  const TKN_PLUS: int := 24
  const TKN_MINUS: int := 25
  const TKN_DIV: int := 26
  const TKN_IDIV: int := 27
  const TKN_PWR: int := 29
  const TKN_COLON: int := 30
  const TKN_ADDEQ: int := 32
  const TKN_SUBEQ: int := 33
  const TKN_SEMICOLON: int := 34
  const TKN_NAME_LBR: int := 35
  const TKN_CATEQ: int := 36
  const TKN_DOLLAR: int := 37
  const TKN_AT: int := 38
  const TKN_UNDERSCORE: int := 39
  const TKN_MULTEQ: int := 40
  const TKN_DIVEQ: int := 41
  const TKN_FLOAT: int := 42
  const TKN_AT_NAME: int := 43
  const TKN_LCBR: int := 44
  const TKN_HEXNUM: int := 46
  const TKN_OBJREF: int := 47
  const TKN_END_FIELD: int := 99

  const INIT_TOKENS: nat := 400

  const EndToken := Token(TKN_END, "")

  function Upper(s: string): string {
    seq(|s|, i requires 0 <= i < |s| => if 'a' <= s[i] <= 'z' then (s[i] as int - 32) as char else s[i])
  }

  /** Keyword tests compare the upper-cased text only.  An end-of-line token has none. */
  predicate IsWord(t: Token, word: string) {
    t.kind != TKN_END && Upper(t.text) == word
  }

  /** The look-ahead token; past the end of the source it stays an end-of-line token. */
  function Look(ts: seq<Token>): Token {
    if ts == [] then EndToken else ts[0]
  }

  /** The tokens after the look-ahead. */
  function Tail(ts: seq<Token>): seq<Token> {
    if ts == [] then [] else ts[1..]
  }

  /** int() of a digit string */
  function DecimalValue(s: string): int {
    if s == "" then 0 else 10 * DecimalValue(s[..|s| - 1]) + (s[|s| - 1] as int - '0' as int)
  }

  /** How many tokens are left on the current line. */
  function Line(ts: seq<Token>): nat {
    if ts == [] || ts[0].kind == TKN_END then 0 else 1 + Line(ts[1..])
  }

  /** Tokens that can be names or labels. */
  predicate NameToken(t: Token) {
    t.kind == TKN_NAME || t.kind == TKN_NAME_LBR || t.kind == TKN_NUM || t.kind == TKN_LABEL || t.kind == TKN_FLOAT
  }

  /** remove_token() starts names and labels with a letter, a digit or a dot; what
      matters here is that none starts with an underscore, even after a colon. */
  predicate NameText(s: string) {
    s != "" && s[0] != '_' && (s[0] == ':' && |s| > 1 ==> s[1] != '_')
  }

  /** What the scanner guarantees: get_line() ends the compile unless every line fits its
      token tables, and names have its form. */
  ghost predicate Scanned(ts: seq<Token>) {
    && (forall i :: 0 <= i <= |ts| ==> Line(ts[i..]) < INIT_TOKENS - 1)
    && (forall i :: 0 <= i < |ts| && NameToken(ts[i]) ==> NameText(ts[i].text))
  }

  lemma ScannedTail(ts: seq<Token>)
    requires Scanned(ts) && ts != []
    ensures Scanned(ts[1..])
  {
    forall i | 0 <= i <= |ts[1..]| ensures Line(ts[1..][i..]) < INIT_TOKENS - 1 {
      assert ts[1..][i..] == ts[i + 1..];
    }
  }

  datatype Expr =
    | Num(n: int)
    | Str(s: string)
    | Var(name: string)
    | App(op: int, args: Exprs)
    | IfThen(c: Expr, a: Expr, b: Expr)

  /** Operands in the order they are evaluated; the last is on top of the stack. */
  datatype Exprs = NoArgs | Args(init: Exprs, last: Expr)

  function One(a: Expr): Exprs { Args(NoArgs, a) }
  function Two(a: Expr, b: Expr): Exprs { Args(One(a), b) }
  function Three(a: Expr, b: Expr, c: Expr): Exprs { Args(Two(a, b), c) }
  function Four(a: Expr, b: Expr, c: Expr, d: Expr): Exprs { Args(Three(a, b, c), d) }

  function Bin(op: int, l: Expr, r: Expr): Expr { App(op, Two(l, r)) }
}
