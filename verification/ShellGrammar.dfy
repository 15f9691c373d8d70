/**
 The language of user/sh.c, as a grammar: tokens, and the trees of derivations

   line     is  pipeline '&'* [ ';' line ]
   pipeline is  command [ '|' pipeline ]
   command  is  ( word | redirection )*  or  '(' line ')' redirection*

 with the command each stands for.  The parser accepts exactly the lines whose
 tokens have a derivation, and gives what the derivation stands for.
 */
module ShellGrammar {
  import opened Common
  import opened Shell

  // ----- Tokens

  /** A word, or a symbol; '+' is for the two characters ">>". */
  datatype Tok = Word(text: string) | Sym(c: char)

  /** The tokens of s from p on. */
  function Toks(s: string, p: nat): seq<Tok>
    requires p <= |s|
    decreases |s| - p
  {
    if p == |s| then []
    else if IsSpace(s[p]) then Toks(s, p + 1)
    else if s[p] == '>' && p + 1 < |s| && s[p + 1] == '>' then [Sym('+')] + Toks(s, p + 2)
    else if IsSymbol(s[p]) then [Sym(s[p])] + Toks(s, p + 1)
    else [Word(s[p..WordEnd(s, p)])] + Toks(s, WordEnd(s, p))
  }

  /** Where the run of word characters that starts at p ends. */
  function WordEnd(s: string, p: nat): (e: nat)
    requires p < |s|
    ensures p < e <= |s|
    decreases |s| - p
  {
    if p + 1 < |s| && IsWordChar(s[p + 1]) then WordEnd(s, p + 1) else p + 1
  }

  // ----- The grammar

  datatype Redirect = Redirect(mode: Mode, file: string)

  datatype Item = Arg(word: string) | Redirected(r: Redirect)

  datatype Line = Line(pipe: Pipeline, backs: nat, rest: Option<Line>)

  datatype Pipeline = Pipeline(cmd: Command, rest: Option<Pipeline>)

  datatype Command = Simple(items: seq<Item>) | Block(line: Line, redirs: seq<Redirect>)

  function OpChar(mode: Mode): char {
    match mode
    case In => '<'
    case Out => '>'
    case Append => '+'
  }

  function RedirectToks(rs: seq<Redirect>): seq<Tok> {
    if rs == [] then [] else [Sym(OpChar(rs[0].mode)), Word(rs[0].file)] + RedirectToks(rs[1..])
  }

  function OneItem(item: Item): seq<Tok> {
    if item.Arg? then [Word(item.word)] else [Sym(OpChar(item.r.mode)), Word(item.r.file)]
  }

  function ItemToks(items: seq<Item>): seq<Tok> {
    if items == [] then [] else OneItem(items[0]) + ItemToks(items[1..])
  }

  function Amps(n: nat): seq<Tok> {
    if n == 0 then [] else [Sym('&')] + Amps(n - 1)
  }

  function LineToks(x: Line): seq<Tok> {
    PipeToks(x.pipe) + (Amps(x.backs) + if x.rest.Some? then [Sym(';')] + LineToks(x.rest.value) else [])
  }

  function PipeToks(x: Pipeline): seq<Tok> {
    CommandToks(x.cmd) + if x.rest.Some? then [Sym('|')] + PipeToks(x.rest.value) else []
  }

  function CommandToks(x: Command): seq<Tok> {
    match x
    case Simple(items) => ItemToks(items)
    case Block(line, redirs) => [Sym('(')] + (LineToks(line) + ([Sym(')')] + RedirectToks(redirs)))
  }

  // ----- What a derivation stands for

  /** Redirections apply in the order written, each around what comes before it. */
  function RedirectTree(t: Tree, rs: seq<Redirect>): Tree
    decreases |rs|
  {
    if rs == [] then t else RedirectTree(TRedir(t, rs[0].file, rs[0].mode), rs[1..])
  }

  /** The words of a simple command, wherever the redirections stand between them. */
  function ArgsOf(items: seq<Item>): seq<string> {
    if items == [] then [] else (if items[0].Arg? then [items[0].word] else []) + ArgsOf(items[1..])
  }

  function RedirectsOf(items: seq<Item>): seq<Redirect> {
    if items == [] then [] else (if items[0].Arg? then [] else [items[0].r]) + RedirectsOf(items[1..])
  }

  function BackTree(t: Tree, n: nat): Tree
    decreases n
  {
    if n == 0 then t else BackTree(TBack(t), n - 1)
  }

  function LineTree(x: Line): Tree {
    var t := BackTree(PipeTree(x.pipe), x.backs);
    if x.rest.Some? then TList(t, LineTree(x.rest.value)) else t
  }

  function PipeTree(x: Pipeline): Tree {
    if x.rest.Some? then TPipe(CommandTree(x.cmd), PipeTree(x.rest.value)) else CommandTree(x.cmd)
  }

  function CommandTree(x: Command): Tree {
    match x
    case Simple(items) => RedirectTree(TExec(ArgsOf(items)), RedirectsOf(items))
    case Block(line, redirs) => RedirectTree(LineTree(line), redirs)
  }

  /** The shell's own limit: at most nine words to a simple command. */
  predicate GoodLine(x: Line) {
    GoodPipe(x.pipe) && (x.rest.Some? ==> GoodLine(x.rest.value))
  }

  predicate GoodPipe(x: Pipeline) {
    GoodCommand(x.cmd) && (x.rest.Some? ==> GoodPipe(x.rest.value))
  }

  predicate GoodCommand(x: Command) {
    match x
    case Simple(items) => |ArgsOf(items)| < MAXARGS
    case Block(line, _) => GoodLine(line)
  }

  // ----- Reading tokens

  /** The character peek sees. */
  function Peek(ts: seq<Tok>): char {
    if ts == [] then '\0'
    else if ts[0].Word? then (if ts[0].text == [] then '\0' else ts[0].text[0])
    else if ts[0].c == '+' then '>' else ts[0].c
  }

  function KindOf(t: Tok): char {
    if t.Word? then 'a' else t.c
  }

  /** A C string has no zero in it. */
  predicate IsLine(s: string) {
    forall i :: 0 <= i < |s| ==> s[i] != '\0'
  }

  lemma {:induction false} SameEnd(s: string, p: nat)
    requires p < |s| && IsWordChar(s[p])
    ensures WordEnd(s, p) == SkipWord(s, p)
    decreases |s| - p
  {
    if p + 1 < |s| && IsWordChar(s[p + 1]) {
      SameEnd(s, p + 1);
    }
  }

  lemma {:induction false} SpacesHaveNoTokens(s: string, p: nat)
    requires p <= |s|
    ensures Toks(s, SkipSpace(s, p)) == Toks(s, p)
    decreases |s| - p
  {
    if p < |s| && IsSpace(s[p]) {
      SpacesHaveNoTokens(s, p + 1);
    }
  }

  /** gettoken and peek see the first token. */
  lemma Lexed(s: string, p: nat)
    requires p <= |s| && IsLine(s)
    ensures var ts, q, t := Toks(s, p), SkipSpace(s, p), GetToken(s, p);
      && Toks(s, q) == ts && At(s, q) == Peek(ts)
      && (if ts == [] then q == |s| && t.kind == '\0' && t.pos == |s|
          else
            && t.kind == KindOf(ts[0]) != '\0' && Toks(s, t.pos) == ts[1..] && p < t.pos
            && (ts[0].Sym? ==> IsSymbol(ts[0].c) || ts[0].c == '+')
            && (ts[0].Word? ==> IsWordChar(Peek(ts)) && ts[0].text == Text(s, t.span)))
  {
    var q := SkipSpace(s, p);
    SpacesHaveNoTokens(s, p);
    if q < |s| {
      var e := End(s, q);
      if IsWordChar(s[q]) {
        SameEnd(s, q);
        assert Kind(s, q) == 'a' && e == WordEnd(s, q);
        assert s[q..e][0] == s[q];
      }
      SpacesHaveNoTokens(s, e);
    }
  }

  // ----- Sequences

  lemma Assoc<T>(a: seq<T>, b: seq<T>, c: seq<T>)
    ensures a + b + c == a + (b + c)
  {
  }

  lemma TailOfJoin<T>(a: seq<T>, b: seq<T>)
    requires a != []
    ensures a + b != [] && (a + b)[0] == a[0] && (a + b)[1..] == a[1..] + b
  {
  }

  lemma NothingBefore<T>(b: seq<T>)
    ensures [] + b == b
  {
  }

  // ----- Redirections

  /** The redirections of a list, with their files written out. */
  function Redirects(s: string, list: seq<Redirection>): seq<Redirect> {
    if list == [] then [] else [Redirect(list[0].mode, Text(s, list[0].file))] + Redirects(s, list[1..])
  }

  lemma {:induction false} RedirectsJoin(s: string, a: seq<Redirection>, b: seq<Redirection>)
    ensures Redirects(s, a + b) == Redirects(s, a) + Redirects(s, b)
  {
    hide Text;
    NothingBefore(b);
    NothingBefore(Redirects(s, b));
    if a != [] {
      TailOfJoin(a, b);
      RedirectsJoin(s, a[1..], b);
      Assoc(Redirects(s, a)[..1], Redirects(s, a[1..]), Redirects(s, b));
    }
  }

  lemma {:induction false} WrapStandsFor(s: string, c: Cmd, list: seq<Redirection>)
    ensures ToTree(s, Wrap(c, list)) == RedirectTree(ToTree(s, c), Redirects(s, list))
    decreases |list|
  {
    if list != [] {
      WrapStandsFor(s, Redir(c, list[0].file, list[0].mode), list[1..]);
      assert Redirects(s, list)[1..] == Redirects(s, list[1..]);
    }
  }

  lemma WordsJoin(s: string, args: seq<Span>, w: Span)
    ensures Words(s, args + [w]) == Words(s, args) + [Text(s, w)]
  {
  }

  /** A redirection is read by its two tokens. */
  lemma RedirectIsRead(s: string, p: nat, mode: Mode, file: string, more: seq<Tok>)
    requires p <= |s| && IsLine(s) && Toks(s, p) == [Sym(OpChar(mode)), Word(file)] + more
    ensures IsRedir(At(s, SkipSpace(s, p)))
    ensures var op := GetToken(s, p); var f := GetToken(s, op.pos);
      && ModeOf(op.kind) == mode && f.kind == 'a' && Text(s, f.span) == file
      && Toks(s, f.pos) == more && p < f.pos
  {
    hide GetToken, Toks;
    Lexed(s, p);
    var op := GetToken(s, p);
    assert Toks(s, op.pos) == [Word(file)] + more;
    Lexed(s, op.pos);
    assert ([Word(file)] + more)[1..] == more;
  }

  predicate StartsRedirect(ts: seq<Tok>) {
    ts != [] && (ts[0] == Sym('<') || ts[0] == Sym('>') || ts[0] == Sym('+'))
  }

  lemma PeekRedirect(s: string, p: nat)
    requires p <= |s| && IsLine(s)
    ensures IsRedir(At(s, SkipSpace(s, p))) <==> StartsRedirect(Toks(s, p))
  {
    hide GetToken, Toks;
    Lexed(s, p);
  }

  lemma {:induction false} RedirectsRead(s: string, p: nat, rs: seq<Redirect>, rest: seq<Tok>)
    returns (list: seq<Redirection>, q: nat)
    requires p <= |s| && IsLine(s) && Toks(s, p) == RedirectToks(rs) + rest && !StartsRedirect(rest)
    ensures ParseRedirs(s, p) == Redirs(list, q) && q <= |s| && Toks(s, q) == rest && Redirects(s, list) == rs
    decreases |rs|
  {
    hide GetToken, Toks;
    PeekRedirect(s, p);
    if rs == [] {
      assert RedirectToks(rs) + rest == rest;
      Lexed(s, p);
      list, q := [], SkipSpace(s, p);
    } else {
      var more := RedirectToks(rs[1..]) + rest;
      assert RedirectToks(rs) + rest == [Sym(OpChar(rs[0].mode)), Word(rs[0].file)] + more;
      RedirectIsRead(s, p, rs[0].mode, rs[0].file, more);
      var op := GetToken(s, p);
      var f := GetToken(s, op.pos);
      var l;
      l, q := RedirectsRead(s, f.pos, rs[1..], rest);
      list := [Redirection(f.span, ModeOf(op.kind))] + l;
      assert list[1..] == l;
    }
  }

  lemma {:induction false} RedirectsMean(s: string, p: nat)
    requires p <= |s| && IsLine(s)
    ensures var r := ParseRedirs(s, p);
      r.Redirs? ==> Toks(s, p) == RedirectToks(Redirects(s, r.list)) + Toks(s, r.pos)
    decreases |s| - p
  {
    hide Toks;
    PeekRedirect(s, p);
    Lexed(s, p);
    if !IsRedir(At(s, SkipSpace(s, p))) {
      assert RedirectToks([]) + Toks(s, SkipSpace(s, p)) == Toks(s, p);
    } else {
      var op := GetToken(s, p);
      Lexed(s, op.pos);
      var f := GetToken(s, op.pos);
      if f.kind == 'a' && ParseRedirs(s, f.pos).Redirs? {
        RedirectsMean(s, f.pos);
        OneRedirect(s, p, ParseRedirs(s, f.pos).list, ParseRedirs(s, f.pos).pos);
      }
    }
  }

  lemma OneRedirect(s: string, p: nat, l: seq<Redirection>, q: nat)
    requires p <= |s| && IsLine(s) && q <= |s| && StartsRedirect(Toks(s, p))
    requires var f := GetToken(s, GetToken(s, p).pos);
      f.kind == 'a' && Toks(s, f.pos) == RedirectToks(Redirects(s, l)) + Toks(s, q)
    ensures var op := GetToken(s, p); var f := GetToken(s, op.pos);
      Toks(s, p) == RedirectToks(Redirects(s, [Redirection(f.span, ModeOf(op.kind))] + l)) + Toks(s, q)
  {
    hide Toks, GetToken;
    var op := GetToken(s, p);
    var f := GetToken(s, op.pos);
    Lexed(s, p);
    Lexed(s, op.pos);
    var ts, us := Toks(s, p), Toks(s, op.pos);
    var list := [Redirection(f.span, ModeOf(op.kind))] + l;
    assert us != [] && us[0].Word?;
    assert ts == [ts[0], us[0]] + us[1..];
    assert list[1..] == l;
    var rs := Redirects(s, list);
    assert rs == [Redirect(ModeOf(op.kind), us[0].text)] + Redirects(s, l);
    assert rs[1..] == Redirects(s, l);
    assert ts[0] == Sym(OpChar(rs[0].mode));
    assert RedirectToks(rs) == [ts[0], us[0]] + RedirectToks(Redirects(s, l));
    assert [ts[0], us[0]] + (RedirectToks(Redirects(s, l)) + Toks(s, q)) ==
      [ts[0], us[0]] + RedirectToks(Redirects(s, l)) + Toks(s, q);
  }

  // ----- Simple commands

  function AsItems(rs: seq<Redirect>): (r: seq<Item>)
    ensures |r| == |rs|
  {
    if rs == [] then [] else [Redirected(rs[0])] + AsItems(rs[1..])
  }

  /** The redirections before the first word. */
  function Leading(items: seq<Item>): (r: seq<Redirect>)
    ensures |r| <= |items|
  {
    if items == [] || items[0].Arg? then [] else [items[0].r] + Leading(items[1..])
  }

  lemma {:induction false} SplitItems(items: seq<Item>)
    ensures var n := |Leading(items)|;
      items == AsItems(Leading(items)) + items[n..] && (n < |items| ==> items[n].Arg?)
  {
    if items != [] && items[0].Redirected? {
      SplitItems(items[1..]);
      var lead := Leading(items[1..]);
      var n := |lead|;
      var all := Leading(items);
      assert all == [items[0].r] + lead && all[1..] == lead;
      assert AsItems(all) == [items[0]] + AsItems(lead);
      assert items[n + 1..] == items[1..][n..];
      assert items == [items[0]] + items[1..];
    }
  }

  lemma {:induction false} ItemToksJoin(a: seq<Item>, b: seq<Item>)
    ensures ItemToks(a + b) == ItemToks(a) + ItemToks(b)
  {
    hide OneItem;
    NothingBefore(b);
    NothingBefore(ItemToks(b));
    if a != [] {
      TailOfJoin(a, b);
      ItemToksJoin(a[1..], b);
      Assoc(OneItem(a[0]), ItemToks(a[1..]), ItemToks(b));
    }
  }

  lemma {:induction false} ArgsJoin(a: seq<Item>, b: seq<Item>)
    ensures ArgsOf(a + b) == ArgsOf(a) + ArgsOf(b)
  {
    NothingBefore(b);
    NothingBefore(ArgsOf(b));
    if a != [] {
      TailOfJoin(a, b);
      ArgsJoin(a[1..], b);
      Assoc(if a[0].Arg? then [a[0].word] else [], ArgsOf(a[1..]), ArgsOf(b));
    }
  }

  lemma {:induction false} RedirectsOfJoin(a: seq<Item>, b: seq<Item>)
    ensures RedirectsOf(a + b) == RedirectsOf(a) + RedirectsOf(b)
  {
    NothingBefore(b);
    NothingBefore(RedirectsOf(b));
    if a != [] {
      TailOfJoin(a, b);
      RedirectsOfJoin(a[1..], b);
      Assoc(if a[0].Arg? then [] else [a[0].r], RedirectsOf(a[1..]), RedirectsOf(b));
    }
  }

  lemma {:induction false} OnlyRedirects(rs: seq<Redirect>)
    ensures var items := AsItems(rs);
      ItemToks(items) == RedirectToks(rs) && ArgsOf(items) == [] && RedirectsOf(items) == rs
  {
    if rs != [] {
      OnlyRedirects(rs[1..]);
      var items := AsItems(rs);
      assert items[0] == Redirected(rs[0]) && items[1..] == AsItems(rs[1..]);
      assert rs == [rs[0]] + rs[1..];
    }
  }

  lemma JoinItems(rs: seq<Redirect>, tail: seq<Item>)
    ensures var all := AsItems(rs) + tail;
      && ItemToks(all) == RedirectToks(rs) + ItemToks(tail)
      && ArgsOf(all) == ArgsOf(tail) && RedirectsOf(all) == rs + RedirectsOf(tail)
  {
    hide AsItems, ItemToks, RedirectToks, ArgsOf, RedirectsOf;
    var items := AsItems(rs);
    OnlyRedirects(rs);
    ItemToksJoin(items, tail);
    ArgsJoin(items, tail);
    RedirectsOfJoin(items, tail);
    assert [] + ArgsOf(tail) == ArgsOf(tail);
  }

  /** What may come after a command, a pipeline and a line. */
  predicate Ends(ts: seq<Tok>) {
    ts == [] || ts[0] == Sym('|') || ts[0] == Sym(')') || ts[0] == Sym('&') || ts[0] == Sym(';')
  }

  predicate Starts(ts: seq<Tok>, c: char) {
    ts != [] && ts[0] == Sym(c)
  }

  /** peek for c, and gettoken of it. */
  lemma SymbolIsRead(s: string, p: nat, c: char)
    requires p <= |s| && IsLine(s) && IsSymbol(c) && c != '>'
    ensures var ts, q := Toks(s, p), SkipSpace(s, p);
      && Toks(s, q) == ts && (At(s, q) == c <==> Starts(ts, c))
      && (Starts(ts, c) ==>
            && q < |s| && Toks(s, GetToken(s, q).pos) == Toks(s, GetToken(s, p).pos) == ts[1..]
            && p < GetToken(s, p).pos && q < GetToken(s, q).pos)
  {
    hide GetToken, Toks;
    Lexed(s, p);
    Lexed(s, SkipSpace(s, p));
  }

  lemma PeekEnd(s: string, p: nat)
    requires p <= |s| && IsLine(s)
    ensures var c := At(s, SkipSpace(s, p));
      Ends(Toks(s, p)) <==> c == '|' || c == ')' || c == '&' || c == ';' || GetToken(s, p).kind == '\0'
  {
    hide GetToken, Toks;
    Lexed(s, p);
  }

  /** What a simple command stands for, with the words and redirections found before it. */
  function SimpleTree(s: string, args: seq<Span>, list: seq<Redirection>, items: seq<Item>): Tree {
    RedirectTree(TExec(Words(s, args) + ArgsOf(items)), Redirects(s, list) + RedirectsOf(items))
  }

  lemma NoItems(s: string, args: seq<Span>, list: seq<Redirection>)
    ensures ToTree(s, Wrap(Exec(args), list)) == SimpleTree(s, args, list, [])
  {
    WrapStandsFor(s, Exec(args), list);
    assert Words(s, args) + ArgsOf([]) == Words(s, args);
    assert Redirects(s, list) + RedirectsOf([]) == Redirects(s, list);
  }

  lemma WordHead(w: string, more: seq<Item>)
    ensures var items := [Arg(w)] + more;
      && ItemToks(items) == [Word(w)] + ItemToks(more)
      && ArgsOf(items) == [w] + ArgsOf(more) && RedirectsOf(items) == RedirectsOf(more)
  {
    var items := [Arg(w)] + more;
    assert items[1..] == more;
    NothingBefore(RedirectsOf(more));
  }

  /** A word and the redirections after it. */
  lemma OneWord(s: string, args: seq<Span>, list: seq<Redirection>, w: Span, more: seq<Redirection>, tail: seq<Item>)
    ensures var items := [Arg(Text(s, w))] + (AsItems(Redirects(s, more)) + tail);
      && SimpleTree(s, args + [w], list + more, tail) == SimpleTree(s, args, list, items)
      && ItemToks(items) == [Word(Text(s, w))] + (RedirectToks(Redirects(s, more)) + ItemToks(tail))
      && |ArgsOf(items)| == 1 + |ArgsOf(tail)|
  {
    hide RedirectTree, RedirectToks, Redirects, Words, Text, ItemToks, ArgsOf, RedirectsOf, AsItems;
    var rs := Redirects(s, more);
    JoinItems(rs, tail);
    WordHead(Text(s, w), AsItems(rs) + tail);
    WordsJoin(s, args, w);
    RedirectsJoin(s, list, more);
    Assoc(Words(s, args), [Text(s, w)], ArgsOf(tail));
    Assoc(Redirects(s, list), rs, RedirectsOf(tail));
  }

  lemma SameTail(t: Tok, ts: seq<Tok>, u: Tok, us: seq<Tok>)
    requires [t] + ts == [u] + us
    ensures t == u && ts == us
  {
    assert t == ([t] + ts)[0] && u == ([u] + us)[0];
    assert ts == ([t] + ts)[1..] && us == ([u] + us)[1..];
  }

  /** One turn of the loop of parseexec. */
  lemma WordsStep(s: string, p: nat, args: seq<Span>, list: seq<Redirection>)
    requires p <= |s| && IsLine(s)
    ensures var r, ts := ParseWords(s, p, args, list), Toks(s, p);
      if Ends(ts) then r.Parsed? && r.cmd == Wrap(Exec(args), list) && Toks(s, r.pos) == ts
      else if ts[0].Sym? || |args| + 1 >= MAXARGS then r.Panic?
      else
        var w := GetToken(s, p);
        var l := ParseRedirs(s, w.pos);
        && p < w.pos && ts == [Word(Text(s, w.span))] + Toks(s, w.pos)
        && r == if l.Redirs? then ParseWords(s, l.pos, args + [w.span], list + l.list) else Panic
  {
    hide GetToken, Toks;
    PeekEnd(s, p);
    Lexed(s, p);
  }

  /** The first word, the redirections after it, and the rest, which starts with a word if it starts at all. */
  lemma FirstWord(items: seq<Item>, rest: seq<Tok>) returns (rs: seq<Redirect>, tail: seq<Item>)
    requires items != [] && items[0].Arg? && Ends(rest)
    ensures items == [items[0]] + (AsItems(rs) + tail) && |tail| < |items| && (tail == [] || tail[0].Arg?)
    ensures ItemToks(items) + rest == [Word(items[0].word)] + (RedirectToks(rs) + (ItemToks(tail) + rest))
    ensures !StartsRedirect(ItemToks(tail) + rest)
  {
    hide Leading, AsItems, RedirectToks, ArgsOf, RedirectsOf, ItemToks, StartsRedirect;
    var more := items[1..];
    rs := Leading(more);
    tail := more[|rs|..];
    SplitItems(more);
    JoinItems(rs, tail);
    assert items == [items[0]] + more;
    WordHead(items[0].word, more);
    Assoc([Word(items[0].word)], ItemToks(more), rest);
    Assoc(RedirectToks(rs), ItemToks(tail), rest);
    NoRedirect(tail, rest);
  }

  lemma NoRedirect(tail: seq<Item>, rest: seq<Tok>)
    requires (tail == [] || tail[0].Arg?) && Ends(rest)
    ensures !StartsRedirect(ItemToks(tail) + rest)
  {
  }

  lemma {:induction false} WordsRead(s: string, p: nat, args: seq<Span>, list: seq<Redirection>,
      items: seq<Item>, rest: seq<Tok>)
    returns (c: Cmd, q: nat)
    requires p <= |s| && IsLine(s) && Toks(s, p) == ItemToks(items) + rest && Ends(rest)
    requires (items == [] || items[0].Arg?) && |args| + |ArgsOf(items)| < MAXARGS
    ensures ParseWords(s, p, args, list) == Parsed(c, q) && q <= |s| && Toks(s, q) == rest
    ensures ToTree(s, c) == SimpleTree(s, args, list, items)
    decreases |items|
  {
    hide GetToken, Toks, SimpleTree, RedirectToks, ParseWords, ParseRedirs, Wrap, ToTree, AsItems;
    WordsStep(s, p, args, list);
    if items == [] {
      assert ItemToks(items) + rest == rest;
      c, q := Wrap(Exec(args), list), ParseWords(s, p, args, list).pos;
      NoItems(s, args, list);
    } else {
      var w := GetToken(s, p);
      var rs, tail := FirstWord(items, rest);
      var more := ItemToks(tail) + rest;
      SameTail(Word(Text(s, w.span)), Toks(s, w.pos), Word(items[0].word), RedirectToks(rs) + more);
      var l, p1 := RedirectsRead(s, w.pos, rs, more);
      OneWord(s, args, list, w.span, l, tail);
      c, q := WordsRead(s, p1, args + [w.span], list + l, tail, rest);
    }
  }

  lemma {:induction false} WordsMean(s: string, p: nat, args: seq<Span>, list: seq<Redirection>)
    returns (items: seq<Item>)
    requires p <= |s| && IsLine(s) && |args| < MAXARGS && ParseWords(s, p, args, list).Parsed?
    ensures var r := ParseWords(s, p, args, list);
      && Toks(s, p) == ItemToks(items) + Toks(s, r.pos) && |args| + |ArgsOf(items)| < MAXARGS
      && ToTree(s, r.cmd) == SimpleTree(s, args, list, items)
    decreases |s| - p
  {
    hide GetToken, Toks, SimpleTree, RedirectToks, ParseWords, ParseRedirs, Wrap, ToTree;
    WordsStep(s, p, args, list);
    if Ends(Toks(s, p)) {
      items := [];
      NoItems(s, args, list);
      assert ItemToks([]) + Toks(s, p) == Toks(s, p);
    } else {
      var w := GetToken(s, p);
      var r := ParseRedirs(s, w.pos);
      RedirectsMean(s, w.pos);
      var tail := WordsMean(s, r.pos, args + [w.span], list + r.list);
      OneWord(s, args, list, w.span, r.list, tail);
      var word, rs, e := [Word(Text(s, w.span))], RedirectToks(Redirects(s, r.list)), ParseWords(s, p, args, list).pos;
      items := [Arg(Text(s, w.span))] + (AsItems(Redirects(s, r.list)) + tail);
      assert word + (rs + (ItemToks(tail) + Toks(s, e))) == word + (rs + ItemToks(tail)) + Toks(s, e);
    }
  }

  // ----- One call of each function of the parser, by its tokens

  lemma ExecStep(s: string, p: nat)
    requires p <= |s| && IsLine(s)
    ensures var r, ts := ParseExec(s, p), Toks(s, p);
      if Starts(ts, '(') then
        var o := GetToken(s, SkipSpace(s, p)).pos;
        var e := ParseLine(s, o);
        && p < o && Toks(s, o) == ts[1..]
        && (if e.Panic? || !Starts(Toks(s, e.pos), ')') then r.Panic?
            else
              var o1 := GetToken(s, SkipSpace(s, e.pos)).pos;
              Toks(s, o1) == Toks(s, e.pos)[1..] && r == Wrapped(e.cmd, ParseRedirs(s, o1)))
      else
        var e := ParseRedirs(s, p);
        r == if e.RedirPanic? then Panic else ParseWords(s, e.pos, [], e.list)
  {
    hide GetToken, Toks, ParseLine, ParseRedirs, ParseWords, Wrapped;
    SymbolIsRead(s, p, '(');
    if Starts(Toks(s, p), '(') {
      var q := SkipSpace(s, p);
      BlockStep(s, q);
    }
  }

  lemma BlockStep(s: string, q: nat)
    requires q < |s| && s[q] == '(' && IsLine(s)
    ensures var r, e := ParseBlock(s, q), ParseLine(s, GetToken(s, q).pos);
      if e.Panic? || !Starts(Toks(s, e.pos), ')') then r.Panic?
      else
        var o1 := GetToken(s, SkipSpace(s, e.pos)).pos;
        Toks(s, o1) == Toks(s, e.pos)[1..] && r == Wrapped(e.cmd, ParseRedirs(s, o1))
  {
    hide GetToken, Toks, ParseLine, ParseRedirs, Wrapped, At;
    var e := ParseLine(s, GetToken(s, q).pos);
    if e.Parsed? {
      SymbolIsRead(s, e.pos, ')');
    }
  }

  lemma PipeStep(s: string, p: nat)
    requires p <= |s| && IsLine(s)
    ensures var r, e := ParsePipe(s, p), ParseExec(s, p);
      if e.Panic? then r.Panic?
      else if !Starts(Toks(s, e.pos), '|') then
        r.Parsed? && r.cmd == e.cmd && Toks(s, r.pos) == Toks(s, e.pos)
      else
        var o := GetToken(s, SkipSpace(s, e.pos)).pos;
        var d := ParsePipe(s, o);
        && p < o && Toks(s, o) == Toks(s, e.pos)[1..]
        && r == if d.Panic? then Panic else Parsed(Pipe(e.cmd, d.cmd), d.pos)
  {
    hide GetToken, Toks, ParseExec, At;
    var e := ParseExec(s, p);
    if e.Parsed? {
      SymbolIsRead(s, e.pos, '|');
    }
  }

  lemma LineStep(s: string, p: nat)
    requires p <= |s| && IsLine(s)
    ensures var r, e := ParseLine(s, p), ParsePipe(s, p);
      if e.Panic? then r.Panic?
      else
        var b := ParseBacks(s, e.pos, e.cmd);
        if !Starts(Toks(s, b.1), ';') then r == Parsed(b.0, b.1)
        else
          var o := GetToken(s, b.1).pos;
          var d := ParseLine(s, o);
          && p < o && Toks(s, o) == Toks(s, b.1)[1..]
          && r == if d.Panic? then Panic else Parsed(List(b.0, d.cmd), d.pos)
  {
    hide GetToken, Toks, ParsePipe, ParseBacks, At;
    var e := ParsePipe(s, p);
    if e.Parsed? {
      BacksSkip(s, e.pos, e.cmd);
      SymbolIsRead(s, ParseBacks(s, e.pos, e.cmd).1, ';');
    }
  }

  // ----- A derivation is read as what it stands for

  lemma SimpleSplit(items: seq<Item>, rest: seq<Tok>) returns (rs: seq<Redirect>, tail: seq<Item>)
    requires Ends(rest)
    ensures (tail == [] || tail[0].Arg?) && ArgsOf(tail) == ArgsOf(items)
    ensures RedirectsOf(items) == rs + RedirectsOf(tail)
    ensures ItemToks(items) + rest == RedirectToks(rs) + (ItemToks(tail) + rest)
    ensures !Starts(ItemToks(items) + rest, '(') && !StartsRedirect(ItemToks(tail) + rest)
  {
    hide Leading, AsItems, RedirectToks, ArgsOf, RedirectsOf;
    rs := Leading(items);
    tail := items[|rs|..];
    SplitItems(items);
    JoinItems(rs, tail);
    Assoc(RedirectToks(rs), ItemToks(tail), rest);
  }

  lemma SimpleRead(s: string, p: nat, items: seq<Item>, rest: seq<Tok>) returns (c: Cmd, q: nat)
    requires p <= |s| && IsLine(s) && Toks(s, p) == ItemToks(items) + rest && Ends(rest) && |ArgsOf(items)| < MAXARGS
    ensures ParseExec(s, p) == Parsed(c, q) && q <= |s| && Toks(s, q) == rest
    ensures ToTree(s, c) == CommandTree(Simple(items))
  {
    hide GetToken, Toks, ParseWords, ParseRedirs, ParseExec, ItemToks, RedirectToks, RedirectTree, ToTree, ArgsOf,
         RedirectsOf;
    ExecStep(s, p);
    var rs, tail := SimpleSplit(items, rest);
    var l, p1 := RedirectsRead(s, p, rs, ItemToks(tail) + rest);
    c, q := WordsRead(s, p1, [], l, tail, rest);
    assert Words(s, []) + ArgsOf(tail) == ArgsOf(items);
  }

  lemma {:induction false} CommandRead(s: string, p: nat, x: Command, rest: seq<Tok>) returns (c: Cmd, q: nat)
    requires p <= |s| && IsLine(s) && GoodCommand(x) && Toks(s, p) == CommandToks(x) + rest && Ends(rest)
    ensures ParseExec(s, p) == Parsed(c, q) && q <= |s| && Toks(s, q) == rest && ToTree(s, c) == CommandTree(x)
    decreases x
  {
    hide GetToken, Toks, ParseLine, ParseRedirs, ParseExec, RedirectToks, ItemToks, LineToks, RedirectTree, ToTree;
    match x
    case Simple(items) =>
      c, q := SimpleRead(s, p, items, rest);
    case Block(line, redirs) =>
      ExecStep(s, p);
      var after := RedirectToks(redirs) + rest;
      BlockToks(line, redirs, rest);
      var o := GetToken(s, SkipSpace(s, p)).pos;
      var e, p1 := LineRead(s, o, line, [Sym(')')] + after);
      var o1 := GetToken(s, SkipSpace(s, p1)).pos;
      assert ([Sym(')')] + after)[1..] == after;
      var l;
      l, q := RedirectsRead(s, o1, redirs, rest);
      c := Wrap(e, l);
      WrapStandsFor(s, e, l);
  }

  lemma BlockToks(line: Line, redirs: seq<Redirect>, rest: seq<Tok>)
    ensures var ts := CommandToks(Block(line, redirs)) + rest;
      Starts(ts, '(') && ts[1..] == LineToks(line) + ([Sym(')')] + (RedirectToks(redirs) + rest))
  {
    hide LineToks, RedirectToks;
    var inner := LineToks(line) + ([Sym(')')] + RedirectToks(redirs));
    assert CommandToks(Block(line, redirs)) + rest == [Sym('(')] + (inner + rest);
    Assoc(LineToks(line), [Sym(')')] + RedirectToks(redirs), rest);
    Assoc([Sym(')')], RedirectToks(redirs), rest);
  }

  lemma {:induction false} PipeRead(s: string, p: nat, x: Pipeline, rest: seq<Tok>) returns (c: Cmd, q: nat)
    requires p <= |s| && IsLine(s) && GoodPipe(x) && Toks(s, p) == PipeToks(x) + rest && Ends(rest)
    requires !Starts(rest, '|')
    ensures ParsePipe(s, p) == Parsed(c, q) && q <= |s| && Toks(s, q) == rest && ToTree(s, c) == PipeTree(x)
    decreases x
  {
    hide GetToken, Toks, ParsePipe, ParseExec, CommandToks;
    PipeStep(s, p);
    var more := if x.rest.Some? then [Sym('|')] + PipeToks(x.rest.value) else [];
    Assoc(CommandToks(x.cmd), more, rest);
    var p1;
    c, p1 := CommandRead(s, p, x.cmd, more + rest);
    if x.rest.Some? {
      var o := GetToken(s, SkipSpace(s, p1)).pos;
      Assoc([Sym('|')], PipeToks(x.rest.value), rest);
      assert (more + rest)[1..] == PipeToks(x.rest.value) + rest;
      var d;
      d, q := PipeRead(s, o, x.rest.value, rest);
      c := Pipe(c, d);
    } else {
      assert more + rest == rest;
      q := ParsePipe(s, p).pos;
    }
  }

  lemma {:induction false} BacksRead(s: string, p: nat, c: Cmd, n: nat, rest: seq<Tok>)
    requires p <= |s| && IsLine(s) && Toks(s, p) == Amps(n) + rest && !Starts(rest, '&')
    ensures var r := ParseBacks(s, p, c); Toks(s, r.1) == rest && ToTree(s, r.0) == BackTree(ToTree(s, c), n)
    decreases n
  {
    hide GetToken, Toks, At;
    SymbolIsRead(s, p, '&');
    if n == 0 {
      assert Amps(n) + rest == rest;
    } else {
      Assoc([Sym('&')], Amps(n - 1), rest);
      assert (Amps(n) + rest)[1..] == Amps(n - 1) + rest;
      BacksRead(s, GetToken(s, p).pos, Back(c), n - 1, rest);
    }
  }

  lemma {:induction false} LineRead(s: string, p: nat, x: Line, rest: seq<Tok>) returns (c: Cmd, q: nat)
    requires p <= |s| && IsLine(s) && GoodLine(x) && Toks(s, p) == LineToks(x) + rest
    requires rest == [] || Starts(rest, ')')
    ensures ParseLine(s, p) == Parsed(c, q) && q <= |s| && Toks(s, q) == rest && ToTree(s, c) == LineTree(x)
    decreases x
  {
    hide GetToken, Toks, ParsePipe, ParseLine, PipeToks, ParseBacks;
    LineStep(s, p);
    var next := if x.rest.Some? then [Sym(';')] + LineToks(x.rest.value) else [];
    Assoc(PipeToks(x.pipe), Amps(x.backs) + next, rest);
    Assoc(Amps(x.backs), next, rest);
    var e, p1 := PipeRead(s, p, x.pipe, Amps(x.backs) + (next + rest));
    BacksRead(s, p1, e, x.backs, next + rest);
    var b := ParseBacks(s, p1, e);
    if x.rest.Some? {
      var o := GetToken(s, b.1).pos;
      Assoc([Sym(';')], LineToks(x.rest.value), rest);
      assert (next + rest)[1..] == LineToks(x.rest.value) + rest;
      var d;
      d, q := LineRead(s, o, x.rest.value, rest);
      c := List(b.0, d);
    } else {
      assert next + rest == rest;
      c, q := b.0, b.1;
    }
  }

  // ----- What is read has a derivation

  lemma SimpleMean(s: string, p: nat) returns (x: Command)
    requires p <= |s| && IsLine(s) && !Starts(Toks(s, p), '(') && ParseExec(s, p).Parsed?
    ensures var r := ParseExec(s, p);
      GoodCommand(x) && Toks(s, p) == CommandToks(x) + Toks(s, r.pos) && ToTree(s, r.cmd) == CommandTree(x)
  {
    hide GetToken, Toks, ParseWords, ParseRedirs, ParseExec, ItemToks, RedirectToks, RedirectTree, ToTree, ArgsOf,
         RedirectsOf, AsItems;
    ExecStep(s, p);
    RedirectsMean(s, p);
    var l := ParseRedirs(s, p);
    var tail := WordsMean(s, l.pos, [], l.list);
    var rs := Redirects(s, l.list);
    x := Simple(AsItems(rs) + tail);
    JoinItems(rs, tail);
    Assoc(RedirectToks(rs), ItemToks(tail), Toks(s, ParseExec(s, p).pos));
    assert Words(s, []) + ArgsOf(tail) == ArgsOf(x.items);
  }

  lemma {:induction false} CommandMeans(s: string, p: nat) returns (x: Command)
    requires p <= |s| && IsLine(s) && ParseExec(s, p).Parsed?
    ensures var r := ParseExec(s, p);
      GoodCommand(x) && Toks(s, p) == CommandToks(x) + Toks(s, r.pos) && ToTree(s, r.cmd) == CommandTree(x)
    decreases |s| - p, 1
  {
    hide GetToken, Toks, ParseLine, ParseRedirs, ParseExec, RedirectToks, CommandToks, LineToks, RedirectTree, ToTree;
    if Starts(Toks(s, p), '(') {
      ExecStep(s, p);
      var o := GetToken(s, SkipSpace(s, p)).pos;
      var e := ParseLine(s, o);
      var line := LineMeans(s, o);
      var o1 := GetToken(s, SkipSpace(s, e.pos)).pos;
      var l := ParseRedirs(s, o1);
      RedirectsMean(s, o1);
      WrapStandsFor(s, e.cmd, l.list);
      x := Block(line, Redirects(s, l.list));
      BlockToks(line, x.redirs, Toks(s, l.pos));
      HeadAndTail(Toks(s, e.pos), ')');
      HeadAndTail(Toks(s, p), '(');
      HeadAndTail(CommandToks(x) + Toks(s, l.pos), '(');
    } else {
      x := SimpleMean(s, p);
    }
  }

  lemma HeadAndTail(ts: seq<Tok>, c: char)
    requires Starts(ts, c)
    ensures ts == [Sym(c)] + ts[1..]
  {
  }

  lemma {:induction false} PipeMeans(s: string, p: nat) returns (x: Pipeline)
    requires p <= |s| && IsLine(s) && ParsePipe(s, p).Parsed?
    ensures var r := ParsePipe(s, p);
      GoodPipe(x) && Toks(s, p) == PipeToks(x) + Toks(s, r.pos) && ToTree(s, r.cmd) == PipeTree(x)
    decreases |s| - p, 2
  {
    hide GetToken, Toks, ParsePipe, ParseExec, CommandToks;
    PipeStep(s, p);
    var e := ParseExec(s, p);
    var cmd := CommandMeans(s, p);
    if Starts(Toks(s, e.pos), '|') {
      var o := GetToken(s, SkipSpace(s, e.pos)).pos;
      var rest := PipeMeans(s, o);
      x := Pipeline(cmd, Some(rest));
      HeadAndTail(Toks(s, e.pos), '|');
      Assoc([Sym('|')], PipeToks(rest), Toks(s, ParsePipe(s, p).pos));
      Assoc(CommandToks(cmd), [Sym('|')] + PipeToks(rest), Toks(s, ParsePipe(s, p).pos));
    } else {
      x := Pipeline(cmd, None);
      assert CommandToks(cmd) + [] == CommandToks(cmd);
    }
  }

  lemma {:induction false} BacksMean(s: string, p: nat, c: Cmd) returns (n: nat)
    requires p <= |s| && IsLine(s)
    ensures var r := ParseBacks(s, p, c);
      Toks(s, p) == Amps(n) + Toks(s, r.1) && ToTree(s, r.0) == BackTree(ToTree(s, c), n)
    decreases |s| - p
  {
    hide GetToken, Toks, At;
    SymbolIsRead(s, p, '&');
    if Starts(Toks(s, p), '&') {
      var m := BacksMean(s, GetToken(s, p).pos, Back(c));
      n := m + 1;
      HeadAndTail(Toks(s, p), '&');
      Assoc([Sym('&')], Amps(m), Toks(s, ParseBacks(s, p, c).1));
    } else {
      n := 0;
      assert Amps(n) + Toks(s, p) == Toks(s, p);
    }
  }

  lemma {:induction false} LineMeans(s: string, p: nat) returns (x: Line)
    requires p <= |s| && IsLine(s) && ParseLine(s, p).Parsed?
    ensures var r := ParseLine(s, p);
      GoodLine(x) && Toks(s, p) == LineToks(x) + Toks(s, r.pos) && ToTree(s, r.cmd) == LineTree(x)
    decreases |s| - p, 3
  {
    hide GetToken, Toks, ParsePipe, ParseLine, PipeToks, ParseBacks;
    LineStep(s, p);
    var e := ParsePipe(s, p);
    var pipe := PipeMeans(s, p);
    var n := BacksMean(s, e.pos, e.cmd);
    var b := ParseBacks(s, e.pos, e.cmd);
    var end := Toks(s, ParseLine(s, p).pos);
    if Starts(Toks(s, b.1), ';') {
      var rest := LineMeans(s, GetToken(s, b.1).pos);
      x := Line(pipe, n, Some(rest));
      HeadAndTail(Toks(s, b.1), ';');
      var next := [Sym(';')] + LineToks(rest);
      Assoc([Sym(';')], LineToks(rest), end);
      Assoc(Amps(n), next, end);
      Assoc(PipeToks(pipe), Amps(n) + next, end);
    } else {
      x := Line(pipe, n, None);
      assert Amps(n) + [] == Amps(n);
      Assoc(PipeToks(pipe), Amps(n), end);
    }
  }

  // ----- The language

  /** x is a derivation of the line s. */
  predicate Derives(x: Line, s: string) {
    GoodLine(x) && Toks(s, 0) == LineToks(x)
  }

  lemma {:induction false} LineSkips(s: string, p: nat)
    requires p <= |s| && IsLine(s) && ParseLine(s, p).Parsed?
    ensures var q := ParseLine(s, p).pos; SkipSpace(s, q) == q
    decreases |s| - p
  {
    hide GetToken, Toks, ParseLine, ParsePipe, ParseBacks;
    LineStep(s, p);
    var e := ParsePipe(s, p);
    var b := ParseBacks(s, e.pos, e.cmd);
    BacksSkip(s, e.pos, e.cmd);
    if Starts(Toks(s, b.1), ';') {
      LineSkips(s, GetToken(s, b.1).pos);
    }
  }

  /** Every line with a derivation is accepted to its end, as what the derivation stands for. */
  lemma ParseDerived(s: string, x: Line)
    requires IsLine(s) && Derives(x, s)
    ensures var r := ParseCmd(s); r.Parsed? && r.pos == |s| && ToTree(s, r.cmd) == LineTree(x)
  {
    hide Toks, LineToks, ParseLine, LineTree, ToTree;
    assert LineToks(x) + [] == LineToks(x);
    var c, q := LineRead(s, 0, x, []);
    LineSkips(s, 0);
    Lexed(s, q);
  }

  /** The parser accepts exactly the lines that have a derivation. */
  lemma AcceptsLanguage(s: string)
    requires IsLine(s)
    ensures ParseCmd(s).Parsed? <==> exists x :: Derives(x, s)
  {
    hide Toks, LineToks, ParseLine, LineTree, ToTree;
    if ParseCmd(s).Parsed? {
      var x := LineMeans(s, 0);
      var q := ParseLine(s, 0).pos;
      Lexed(s, q);
      AtEnd(s);
      assert LineToks(x) + [] == LineToks(x);
      assert Derives(x, s);
    }
    if x :| Derives(x, s) {
      ParseDerived(s, x);
    }
  }

  /** All derivations of a line stand for the same command. */
  lemma Unambiguous(s: string, x: Line, y: Line)
    requires IsLine(s) && Derives(x, s) && Derives(y, s)
    ensures LineTree(x) == LineTree(y)
  {
    ParseDerived(s, x);
    ParseDerived(s, y);
  }

  lemma AtEnd(s: string)
    ensures Toks(s, |s|) == []
  {
  }

  /** parsecmd: panics, with the buffer as it was, on the lines without a derivation. */
  method Parsecmd(line: string, buf: array<char>) returns (r: Option<Cmd>)
    requires IsLine(line) && buf[..] == line + ['\0']
    modifies buf
    ensures r.Some? <==> exists x :: Derives(x, line)
    ensures r.Some? ==> forall x :: Derives(x, line) ==> ToTree(line, r.value) == LineTree(x)
    ensures r.Some? ==> forall w :: HasSpan(r.value, w) ==> Terminated(line, buf[..], w)
    ensures r.None? ==> buf[..] == old(buf[..])
  {
    hide ParseLine, Derives, ToTree, LineTree, Terminate, HasSpan;
    AcceptsLanguage(line);
    var parser := new Parser(line);
    var e := parser.Parseline();
    if e.Panic? {
      return None;
    }
    var _ := parser.Peek();
    if parser.pos != |line| {
      return None;
    }
    forall x | Derives(x, line) ensures ToTree(line, e.cmd) == LineTree(x) {
      ParseDerived(line, x);
    }
    NulTerminate(e.cmd, buf);
    forall w | HasSpan(e.cmd, w) ensures Terminated(line, buf[..], w) {
      WordsAreTerminated(line, w);
    }
    r := Some(e.cmd);
  }

  /** The word reads as in the line, up to the zero after it. */
  predicate Terminated(line: string, buf: string, w: Span) {
    w.q < w.eq <= |line| && |buf| == |line| + 1 && buf[w.q..w.eq] == line[w.q..w.eq] && buf[w.eq] == '\0'
  }

  // ----- Printing with no more parentheses than the grammar needs

  function Args(ws: seq<string>): seq<Item> {
    if ws == [] then [] else [Arg(ws[0])] + Args(ws[1..])
  }

  function AddRedirect(x: Command, r: Redirect): Command {
    match x
    case Simple(items) => Simple(items + [Redirected(r)])
    case Block(line, redirs) => Block(line, redirs + [r])
  }

  function AsCommand(t: Tree): Command
    decreases t, if t.TExec? || t.TRedir? then 0 else 3
  {
    match t
    case TExec(words) => Simple(Args(words))
    case TRedir(sub, file, mode) => AddRedirect(AsCommand(sub), Redirect(mode, file))
    case _ => Block(AsLine(t), [])
  }

  function AsPipe(t: Tree): Pipeline
    decreases t, if t.TList? || t.TBack? then 4 else 1
  {
    match t
    case TPipe(l, r) => Pipeline(AsCommand(l), Some(AsPipe(r)))
    case _ => Pipeline(AsCommand(t), None)
  }

  function AsLine(t: Tree): Line
    decreases t, 2
  {
    match t
    case TList(l, r) => AsPart(l).(rest := Some(AsLine(r)))
    case TBack(sub) => var x := AsPart(sub); x.(backs := x.backs + 1)
    case _ => Line(AsPipe(t), 0, None)
  }

  /** A line with no ';' outside parentheses. */
  function AsPart(t: Tree): (x: Line)
    decreases t, 3
  {
    if t.TList? then Line(Pipeline(Block(AsLine(t), []), None), 0, None) else AsLine(t)
  }

  function ShowTok(t: Tok): string {
    if t.Word? then t.text else if t.c == '+' then ">>" else [t.c]
  }

  function Show(ts: seq<Tok>): string {
    if ts == [] then "" else ShowTok(ts[0]) + " " + Show(ts[1..])
  }

  function Print(t: Tree): string {
    Show(LineToks(AsLine(t)))
  }

  predicate GoodTok(t: Tok) {
    if t.Word? then IsWord(t.text) else IsSymbol(t.c) || t.c == '+'
  }

  predicate GoodToks(ts: seq<Tok>) {
    forall i :: 0 <= i < |ts| ==> GoodTok(ts[i])
  }

  lemma SpaceIsSkipped(s: string, n: nat)
    requires n < |s| && s[n] == ' '
    ensures Toks(s, n) == Toks(s, n + 1)
  {
  }

  lemma WordIsLexed(s: string, p: nat, w: string)
    requires IsWord(w) && p + |w| < |s| && s[p..p + |w|] == w && s[p + |w|] == ' '
    ensures Toks(s, p) == [Word(w)] + Toks(s, p + |w|)
  {
    var n := p + |w|;
    forall i | p <= i < n ensures IsWordChar(s[i]) {
      assert s[i] == s[p..n][i - p];
    }
    WordStops(s, p, n);
  }

  lemma SymbolIsLexed(s: string, p: nat, c: char)
    requires p + 1 < |s| && s[p] == c && IsSymbol(c) && s[p + 1] == ' '
    ensures Toks(s, p) == [Sym(c)] + Toks(s, p + 1)
  {
  }

  lemma AppendIsLexed(s: string, p: nat)
    requires p + 1 < |s| && s[p] == s[p + 1] == '>'
    ensures Toks(s, p) == [Sym('+')] + Toks(s, p + 2)
  {
  }

  lemma TokIsLexed(s: string, p: nat, t: Tok)
    requires GoodTok(t) && p + |ShowTok(t)| < |s| && s[p..p + |ShowTok(t)|] == ShowTok(t)
    requires s[p + |ShowTok(t)|] == ' '
    ensures Toks(s, p) == [t] + Toks(s, p + |ShowTok(t)| + 1)
  {
    hide Toks, IsWord;
    var n := p + |ShowTok(t)|;
    SpaceIsSkipped(s, n);
    if t.Word? {
      WordIsLexed(s, p, t.text);
    } else if t.c == '+' {
      assert s[p] == s[p..n][0] && s[p + 1] == s[p..n][1];
      AppendIsLexed(s, p);
    } else {
      assert s[p] == s[p..n][0];
      SymbolIsLexed(s, p, t.c);
    }
  }

  /** The tokens of a print are the tokens printed. */
  lemma {:induction false} ShowIsLexed(s: string, p: nat, ts: seq<Tok>)
    requires p <= |s| && GoodToks(ts) && s[p..] == Show(ts)
    ensures Toks(s, p) == ts
    decreases |ts|
  {
    hide Toks, ShowTok, GoodTok;
    if ts == [] {
      assert p == |s|;
      AtEnd(s);
    } else {
      var w := ShowTok(ts[0]);
      var n := p + |w|;
      assert s[p..n] == s[p..][..|w|] == w;
      assert s[n] == s[p..][|w|] == ' ';
      assert s[n + 1..] == s[p..][|w| + 1..] == Show(ts[1..]);
      ShowIsLexed(s, n + 1, ts[1..]);
      TokIsLexed(s, p, ts[0]);
    }
  }

  lemma {:induction false} WordStops(s: string, p: nat, n: nat)
    requires p < n < |s| && !IsWordChar(s[n]) && forall i :: p <= i < n ==> IsWordChar(s[i])
    ensures WordEnd(s, p) == n
    decreases n - p
  {
    if p + 1 < n {
      WordStops(s, p + 1, n);
    }
  }

  lemma {:induction false} ShowIsLine(ts: seq<Tok>)
    requires GoodToks(ts)
    ensures IsLine(Show(ts))
  {
    if ts != [] {
      ShowIsLine(ts[1..]);
    }
  }

  lemma {:induction false} BackOutside(t: Tree, n: nat)
    ensures BackTree(t, n + 1) == TBack(BackTree(t, n))
    decreases n
  {
    if n > 0 {
      BackOutside(TBack(t), n - 1);
    }
  }

  lemma {:induction false} LastRedirect(t: Tree, rs: seq<Redirect>, r: Redirect)
    ensures RedirectTree(t, rs + [r]) == TRedir(RedirectTree(t, rs), r.file, r.mode)
    decreases |rs|
  {
    if rs == [] {
      assert (rs + [r])[1..] == [];
    } else {
      assert (rs + [r])[1..] == rs[1..] + [r];
      LastRedirect(TRedir(t, rs[0].file, rs[0].mode), rs[1..], r);
    }
  }

  lemma LastItem(items: seq<Item>, r: Redirect)
    ensures var all := items + [Redirected(r)];
      && ArgsOf(all) == ArgsOf(items) && RedirectsOf(all) == RedirectsOf(items) + [r]
      && ItemToks(all) == ItemToks(items) + RedirectToks([r])
  {
    var last := AsItems([r]);
    assert last == [Redirected(r)];
    OnlyRedirects([r]);
    ItemToksJoin(items, last);
    ArgsJoin(items, last);
    RedirectsOfJoin(items, last);
    assert ArgsOf(items) + [] == ArgsOf(items);
  }

  lemma {:induction false} ArgsAreGood(ws: seq<string>)
    requires forall i :: 0 <= i < |ws| ==> IsWord(ws[i])
    ensures ArgsOf(Args(ws)) == ws && RedirectsOf(Args(ws)) == [] && GoodToks(ItemToks(Args(ws)))
  {
    if ws != [] {
      ArgsAreGood(ws[1..]);
      assert Args(ws)[1..] == Args(ws[1..]);
    }
  }

  lemma {:induction false} RedirectsJoinToks(rs: seq<Redirect>, r: Redirect)
    ensures RedirectToks(rs + [r]) == RedirectToks(rs) + RedirectToks([r])
  {
    NothingBefore([r]);
    NothingBefore(RedirectToks([r]));
    if rs != [] {
      TailOfJoin(rs, [r]);
      RedirectsJoinToks(rs[1..], r);
      Assoc([Sym(OpChar(rs[0].mode)), Word(rs[0].file)], RedirectToks(rs[1..]), RedirectToks([r]));
    }
  }

  predicate CommandOk(x: Command, t: Tree) {
    GoodCommand(x) && GoodToks(CommandToks(x)) && CommandTree(x) == t
  }

  predicate PipeOk(x: Pipeline, t: Tree) {
    GoodPipe(x) && GoodToks(PipeToks(x)) && PipeTree(x) == t
  }

  predicate LineOk(x: Line, t: Tree) {
    GoodLine(x) && GoodToks(LineToks(x)) && LineTree(x) == t
  }

  lemma GoodJoin(a: seq<Tok>, b: seq<Tok>)
    ensures GoodToks(a + b) <==> GoodToks(a) && GoodToks(b)
  {
    hide GoodTok;
    if GoodToks(a + b) {
      assert forall i :: 0 <= i < |a| ==> a[i] == (a + b)[i];
      assert forall i :: 0 <= i < |b| ==> b[i] == (a + b)[|a| + i];
    }
  }

  lemma GoodSymbol(c: char)
    requires IsSymbol(c)
    ensures GoodToks([Sym(c)])
  {
  }

  lemma GoodRedirect(r: Redirect)
    requires IsWord(r.file)
    ensures GoodToks(RedirectToks([r]))
  {
  }

  lemma AddRedirectOk(x: Command, t: Tree, r: Redirect)
    requires CommandOk(x, t) && IsWord(r.file)
    ensures CommandOk(AddRedirect(x, r), TRedir(t, r.file, r.mode))
  {
    hide GoodLine, LineToks, LineTree, IsWord, ArgsOf, RedirectsOf, ItemToks, RedirectToks, RedirectTree, GoodToks;
    GoodRedirect(r);
    GoodJoin(CommandToks(x), RedirectToks([r]));
    match x
    case Simple(items) =>
      LastItem(items, r);
      LastRedirect(TExec(ArgsOf(items)), RedirectsOf(items), r);
    case Block(line, redirs) =>
      RedirectsJoinToks(redirs, r);
      LastRedirect(LineTree(line), redirs, r);
      var inner := [Sym(')')] + RedirectToks(redirs);
      Assoc([Sym(')')], RedirectToks(redirs), RedirectToks([r]));
      Assoc(LineToks(line), inner, RedirectToks([r]));
      Assoc([Sym('(')], LineToks(line) + inner, RedirectToks([r]));
  }

  lemma BlockOk(x: Line, t: Tree)
    requires LineOk(x, t)
    ensures CommandOk(Block(x, []), t)
  {
    hide GoodLine, LineToks, LineTree;
  }

  lemma {:induction false} AsCommandOk(t: Tree)
    requires Good(t)
    ensures CommandOk(AsCommand(t), t)
    decreases t, if t.TExec? || t.TRedir? then 0 else 3
  {
    hide CommandOk, LineOk, AsLine;
    match t
    case TExec(words) =>
      ArgsAreGood(words);
      WordsOk(words);
    case TRedir(sub, file, mode) =>
      AsCommandOk(sub);
      AddRedirectOk(AsCommand(sub), sub, Redirect(mode, file));
    case _ =>
      AsLineOk(t);
      BlockOk(AsLine(t), t);
  }

  lemma WordsOk(words: seq<string>)
    requires |words| < MAXARGS && forall i :: 0 <= i < |words| ==> IsWord(words[i])
    ensures CommandOk(Simple(Args(words)), TExec(words))
  {
    ArgsAreGood(words);
  }

  lemma {:induction false} AsPipeOk(t: Tree)
    requires Good(t)
    ensures PipeOk(AsPipe(t), t)
    decreases t, if t.TList? || t.TBack? then 4 else 1
  {
    hide AsCommand, CommandToks, GoodCommand, CommandTree;
    if t.TPipe? {
      AsCommandOk(t.left);
      AsPipeOk(t.right);
    } else {
      AsCommandOk(t);
    }
  }

  lemma {:induction false} AsLineOk(t: Tree)
    requires Good(t)
    ensures LineOk(AsLine(t), t) && (!t.TList? ==> AsLine(t).rest.None?)
    decreases t, 2
  {
    hide AsPipe, PipeOk, AsPart, LineOk;
    match t
    case TList(l, r) =>
      AsPartOk(l);
      AsLineOk(r);
      ListOk(AsPart(l), l, AsLine(r), r);
    case TBack(sub) =>
      AsPartOk(sub);
      BackOk(AsPart(sub), sub);
    case _ =>
      AsPipeOk(t);
      NoBacks(AsPipe(t), t);
  }

  lemma ListOk(x: Line, t: Tree, y: Line, u: Tree)
    requires LineOk(x, t) && x.rest.None? && LineOk(y, u)
    ensures LineOk(x.(rest := Some(y)), TList(t, u))
  {
    hide PipeToks, GoodPipe, PipeTree, BackTree, Amps, GoodToks;
    var next := [Sym(';')] + LineToks(y);
    GoodJoin(PipeToks(x.pipe), Amps(x.backs) + []);
    GoodJoin(Amps(x.backs), []);
    GoodSymbol(';');
    GoodJoin([Sym(';')], LineToks(y));
    GoodJoin(Amps(x.backs), next);
    GoodJoin(PipeToks(x.pipe), Amps(x.backs) + next);
  }

  lemma BackOk(x: Line, t: Tree)
    requires LineOk(x, t) && x.rest.None?
    ensures LineOk(x.(backs := x.backs + 1), TBack(t))
  {
    hide PipeToks, GoodPipe, PipeTree, BackTree, GoodToks;
    BackOutside(PipeTree(x.pipe), x.backs);
    GoodJoin(PipeToks(x.pipe), Amps(x.backs) + []);
    GoodJoin(Amps(x.backs), []);
    GoodSymbol('&');
    GoodJoin([Sym('&')], Amps(x.backs));
    GoodJoin(Amps(x.backs + 1), []);
    GoodJoin(PipeToks(x.pipe), Amps(x.backs + 1) + []);
  }

  lemma NoBacks(x: Pipeline, t: Tree)
    requires PipeOk(x, t)
    ensures LineOk(Line(x, 0, None), t)
  {
    hide PipeToks, GoodPipe, PipeTree;
  }

  lemma {:induction false} AsPartOk(t: Tree)
    requires Good(t)
    ensures LineOk(AsPart(t), t) && AsPart(t).rest.None?
    decreases t, 3
  {
    hide LineOk, CommandToks, GoodCommand, CommandTree;
    AsLineOk(t);
    if t.TList? {
      BlockOk(AsLine(t), t);
      NoBacks(Pipeline(Block(AsLine(t), []), None), t);
    }
  }

  /** The round trip: every command within the shell's limits is parsed back from its print. */
  lemma ParsePrint(t: Tree)
    requires Good(t)
    ensures var s := Print(t); var r := ParseCmd(s); r.Parsed? && r.pos == |s| && ToTree(s, r.cmd) == t
  {
    hide LineToks, GoodLine, LineTree, AsLine, Toks, Show, ParseCmd, ToTree;
    var x := AsLine(t);
    AsLineOk(t);
    ShowIsLine(LineToks(x));
    assert Print(t)[0..] == Print(t);
    ShowIsLexed(Print(t), 0, LineToks(x));
    ParseDerived(Print(t), x);
  }
}
