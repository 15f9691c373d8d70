/**
 The parser of user/sh.c.  The command line is s, without its terminating zero;
 positions in it stand for the pointers.  A command tree holds, as in the
 program, the first and one-past-last position of each word.
 */
module Shell {
  const MAXARGS: nat := 10

  datatype Span = Span(q: nat, eq: nat)

  datatype Mode = In | Out | Append

  datatype Cmd =
    | Exec(args: seq<Span>)
    | Redir(sub: Cmd, file: Span, mode: Mode)
    | Pipe(left: Cmd, right: Cmd)
    | List(left: Cmd, right: Cmd)
    | Back(sub: Cmd)

  /** A redirection before it is wrapped around its command. */
  datatype Redirection = Redirection(file: Span, mode: Mode)

  datatype Parsed = Parsed(cmd: Cmd, pos: nat) | Panic

  datatype Redirs = Redirs(list: seq<Redirection>, pos: nat) | RedirPanic

  predicate IsSpace(c: char) {
    c == ' ' || c == '\t' || c == '\r' || c == '\n' || c == '\U{000B}'
  }

  predicate IsSymbol(c: char) {
    c == '<' || c == '|' || c == '>' || c == '&' || c == ';' || c == '(' || c == ')'
  }

  predicate IsWordChar(c: char) {
    !IsSpace(c) && !IsSymbol(c)
  }

  predicate IsRedir(c: char) {
    c == '<' || c == '>'
  }

  // ----- Tokens

  function SkipSpace(s: string, p: nat): (r: nat)
    requires p <= |s|
    ensures p <= r <= |s| && (r < |s| ==> !IsSpace(s[r]))
    ensures p < |s| && !IsSpace(s[p]) ==> r == p
    ensures p == |s| ==> r == p
    decreases |s| - p
  {
    if p < |s| && IsSpace(s[p]) then SkipSpace(s, p + 1) else p
  }

  function SkipWord(s: string, p: nat): (r: nat)
    requires p <= |s|
    ensures p <= r <= |s| && (r < |s| ==> !IsWordChar(s[r])) && forall i :: p <= i < r ==> IsWordChar(s[i])
    decreases |s| - p
  {
    if p < |s| && IsWordChar(s[p]) then SkipWord(s, p + 1) else p
  }

  /** The character peek looks at; '\0' at the end. */
  function At(s: string, p: nat): char {
    if p < |s| then s[p] else '\0'
  }

  /** What gettoken returns, with the token's span and the position after it. */
  datatype Token = Token(kind: char, span: Span, pos: nat)

  function Kind(s: string, q: nat): char {
    var c := At(s, q);
    if c == '>' && At(s, q + 1) == '>' then '+' else if c == '\0' || IsSymbol(c) then c else 'a'
  }

  function End(s: string, q: nat): nat
    requires q <= |s|
  {
    match Kind(s, q)
    case '\0' => q
    case '+' => q + 2
    case 'a' => SkipWord(s, q)
    case _ => q + 1
  }

  function GetToken(s: string, p: nat): (t: Token)
    requires p <= |s|
    ensures p <= t.span.q <= t.span.eq <= t.pos <= |s|
    ensures t.kind != '\0' ==> t.span.q < t.span.eq
    ensures t.kind == 'a' ==> IsToken(s, t.span)
  {
    var q := SkipSpace(s, p);
    Token(Kind(s, q), Span(q, End(s, q)), SkipSpace(s, End(s, q)))
  }

  /** A whole word: nothing but word characters, and none right after it. */
  ghost predicate IsToken(s: string, w: Span) {
    && w.q < w.eq <= |s| && (forall i :: w.q <= i < w.eq ==> IsWordChar(s[i]))
    && (w.eq < |s| ==> !IsWordChar(s[w.eq]))
  }

  // ----- The grammar

  function ModeOf(kind: char): Mode {
    if kind == '<' then In else if kind == '>' then Out else Append
  }

  /** parseredirs: the redirections from p on. */
  function ParseRedirs(s: string, p: nat): (r: Redirs)
    requires p <= |s|
    ensures r.Redirs? ==> p <= r.pos <= |s|
    decreases |s| - p
  {
    var c := At(s, SkipSpace(s, p));
    if IsRedir(c) then
      var op := GetToken(s, p);
      var file := GetToken(s, op.pos);
      if file.kind != 'a' then RedirPanic
      else
        match ParseRedirs(s, file.pos)
        case RedirPanic => RedirPanic
        case Redirs(list, pos) => Redirs([Redirection(file.span, ModeOf(op.kind))] + list, pos)
    else Redirs([], SkipSpace(s, p))
  }

  /** Each redirection is wrapped around the command in turn. */
  function Wrap(c: Cmd, rs: seq<Redirection>): Cmd
    decreases |rs|
  {
    if rs == [] then c else Wrap(Redir(c, rs[0].file, rs[0].mode), rs[1..])
  }

  function Wrapped(c: Cmd, r: Redirs): Parsed {
    if r.RedirPanic? then Panic else Parsed(Wrap(c, r.list), r.pos)
  }

  /** The loop of parseexec: words and redirections, with those found so far. */
  function ParseWords(s: string, p: nat, args: seq<Span>, rs: seq<Redirection>): (r: Parsed)
    requires p <= |s|
    ensures r.Parsed? ==> p <= r.pos <= |s|
    decreases |s| - p
  {
    var c := At(s, SkipSpace(s, p));
    var t := GetToken(s, p);
    if c == '|' || c == ')' || c == '&' || c == ';' then Parsed(Wrap(Exec(args), rs), SkipSpace(s, p))
    else if t.kind == '\0' then Parsed(Wrap(Exec(args), rs), t.pos)
    else if t.kind != 'a' || |args| + 1 >= MAXARGS then Panic
    else
      match ParseRedirs(s, t.pos)
      case RedirPanic => Panic
      case Redirs(list, pos) => ParseWords(s, pos, args + [t.span], rs + list)
  }

  function ParseExec(s: string, p: nat): (r: Parsed)
    requires p <= |s|
    ensures r.Parsed? ==> p <= r.pos <= |s|
    decreases |s| - p, 1
  {
    if At(s, SkipSpace(s, p)) == '(' then ParseBlock(s, SkipSpace(s, p))
    else
      match ParseRedirs(s, p)
      case RedirPanic => Panic
      case Redirs(list, pos) => ParseWords(s, pos, [], list)
  }

  function ParseBlock(s: string, p: nat): (r: Parsed)
    requires p < |s| && s[p] == '('
    ensures r.Parsed? ==> p <= r.pos <= |s|
    decreases |s| - p, 0
  {
    match ParseLine(s, GetToken(s, p).pos)
    case Panic => Panic
    case Parsed(c, p1) =>
      var p2 := SkipSpace(s, p1);
      if At(s, p2) != ')' then Panic
      else Wrapped(c, ParseRedirs(s, GetToken(s, p2).pos))
  }

  function ParsePipe(s: string, p: nat): (r: Parsed)
    requires p <= |s|
    ensures r.Parsed? ==> p <= r.pos <= |s|
    decreases |s| - p, 2
  {
    match ParseExec(s, p)
    case Panic => Panic
    case Parsed(c, p1) =>
      var p2 := SkipSpace(s, p1);
      if At(s, p2) != '|' then Parsed(c, p2)
      else
        match ParsePipe(s, GetToken(s, p2).pos)
        case Panic => Panic
        case Parsed(d, p3) => Parsed(Pipe(c, d), p3)
  }

  /** The loop of parseline: one Back for each '&'. */
  function ParseBacks(s: string, p: nat, c: Cmd): (r: (Cmd, nat))
    requires p <= |s|
    ensures p <= r.1 <= |s|
    decreases |s| - p
  {
    if At(s, SkipSpace(s, p)) == '&' then ParseBacks(s, GetToken(s, p).pos, Back(c)) else (c, SkipSpace(s, p))
  }

  function ParseLine(s: string, p: nat): (r: Parsed)
    requires p <= |s|
    ensures r.Parsed? ==> p <= r.pos <= |s|
    decreases |s| - p, 3
  {
    match ParsePipe(s, p)
    case Panic => Panic
    case Parsed(c, p1) =>
      var (d, p2) := ParseBacks(s, p1, c);
      if At(s, p2) != ';' then Parsed(d, p2)
      else
        match ParseLine(s, GetToken(s, p2).pos)
        case Panic => Panic
        case Parsed(e, p3) => Parsed(List(d, e), p3)
  }

  /** parsecmd, before nulterminate */
  function ParseCmd(s: string): (r: Parsed) {
    match ParseLine(s, 0)
    case Panic => Panic
    case Parsed(c, p) => if SkipSpace(s, p) != |s| then Panic else Parsed(c, p)
  }

  // ----- Commands without positions

  /** A command with its words written out. */
  datatype Tree =
    | TExec(words: seq<string>)
    | TRedir(sub: Tree, file: string, mode: Mode)
    | TPipe(left: Tree, right: Tree)
    | TList(left: Tree, right: Tree)
    | TBack(sub: Tree)

  function Text(s: string, w: Span): string {
    if w.q <= w.eq <= |s| then s[w.q..w.eq] else ""
  }

  function Words(s: string, args: seq<Span>): (r: seq<string>)
    ensures |r| == |args| && forall i :: 0 <= i < |args| ==> r[i] == Text(s, args[i])
  {
    if args == [] then [] else [Text(s, args[0])] + Words(s, args[1..])
  }

  function ToTree(s: string, c: Cmd): Tree {
    match c
    case Exec(args) => TExec(Words(s, args))
    case Redir(sub, file, mode) => TRedir(ToTree(s, sub), Text(s, file), mode)
    case Pipe(l, r) => TPipe(ToTree(s, l), ToTree(s, r))
    case List(l, r) => TList(ToTree(s, l), ToTree(s, r))
    case Back(sub) => TBack(ToTree(s, sub))
  }

  predicate IsWord(w: string) {
    w != [] && forall i :: 0 <= i < |w| ==> IsWordChar(w[i]) && w[i] != '\0'
  }

  /** What the shell's own limits allow: words that are words, and at most nine of them. */
  predicate Good(t: Tree) {
    match t
    case TExec(words) => |words| < MAXARGS && forall i :: 0 <= i < |words| ==> IsWord(words[i])
    case TRedir(sub, file, _) => Good(sub) && IsWord(file)
    case TPipe(l, r) => Good(l) && Good(r)
    case TList(l, r) => Good(l) && Good(r)
    case TBack(sub) => Good(sub)
  }

  // ----- nulterminate

  predicate HasSpan(c: Cmd, w: Span) {
    match c
    case Exec(args) => w in args
    case Redir(sub, file, _) => w == file || HasSpan(sub, w)
    case Pipe(l, r) => HasSpan(l, w) || HasSpan(r, w)
    case List(l, r) => HasSpan(l, w) || HasSpan(r, w)
    case Back(sub) => HasSpan(sub, w)
  }

  ghost predicate AllTokens(s: string, c: Cmd) {
    forall w :: HasSpan(c, w) ==> IsToken(s, w)
  }

  ghost predicate RedirTokens(s: string, rs: seq<Redirection>) {
    forall i :: 0 <= i < |rs| ==> IsToken(s, rs[i].file)
  }

  lemma {:induction false} RedirsAreTokens(s: string, p: nat)
    requires p <= |s|
    ensures var r := ParseRedirs(s, p); r.Redirs? ==> RedirTokens(s, r.list)
    decreases |s| - p
  {
    if IsRedir(At(s, SkipSpace(s, p))) {
      var file := GetToken(s, GetToken(s, p).pos);
      if file.kind == 'a' {
        RedirsAreTokens(s, file.pos);
      }
    }
  }

  lemma {:induction false} WrapTokens(s: string, c: Cmd, rs: seq<Redirection>)
    requires AllTokens(s, c) && RedirTokens(s, rs)
    ensures AllTokens(s, Wrap(c, rs))
    decreases |rs|
  {
    if rs != [] {
      WrapTokens(s, Redir(c, rs[0].file, rs[0].mode), rs[1..]);
    }
  }

  lemma {:induction false} WordsAreTokens(s: string, p: nat, args: seq<Span>, rs: seq<Redirection>)
    requires p <= |s| && AllTokens(s, Exec(args)) && RedirTokens(s, rs)
    ensures var r := ParseWords(s, p, args, rs); r.Parsed? ==> AllTokens(s, r.cmd)
    decreases |s| - p
  {
    var t := GetToken(s, p);
    WrapTokens(s, Exec(args), rs);
    if t.kind == 'a' {
      RedirsAreTokens(s, t.pos);
      var r := ParseRedirs(s, t.pos);
      if r.Redirs? {
        assert forall w :: w in args + [t.span] ==> w in args || w == t.span;
        WordsAreTokens(s, r.pos, args + [t.span], rs + r.list);
      }
    }
  }

  lemma {:induction false} ExecIsTokens(s: string, p: nat)
    requires p <= |s|
    ensures var r := ParseExec(s, p); r.Parsed? ==> AllTokens(s, r.cmd)
    decreases |s| - p, 1
  {
    var q := SkipSpace(s, p);
    RedirsAreTokens(s, p);
    if At(s, q) == '(' {
      LineIsTokens(s, GetToken(s, q).pos);
      var r := ParseLine(s, GetToken(s, q).pos);
      if r.Parsed? && At(s, SkipSpace(s, r.pos)) == ')' {
        var e := GetToken(s, SkipSpace(s, r.pos)).pos;
        RedirsAreTokens(s, e);
        if ParseRedirs(s, e).Redirs? {
          WrapTokens(s, r.cmd, ParseRedirs(s, e).list);
        }
      }
    } else if ParseRedirs(s, p).Redirs? {
      WordsAreTokens(s, ParseRedirs(s, p).pos, [], ParseRedirs(s, p).list);
    }
  }

  lemma {:induction false} PipeIsTokens(s: string, p: nat)
    requires p <= |s|
    ensures var r := ParsePipe(s, p); r.Parsed? ==> AllTokens(s, r.cmd)
    decreases |s| - p, 2
  {
    hide ParseExec;
    ExecIsTokens(s, p);
    var r := ParseExec(s, p);
    if r.Parsed? && At(s, SkipSpace(s, r.pos)) == '|' {
      PipeIsTokens(s, GetToken(s, SkipSpace(s, r.pos)).pos);
    }
  }

  lemma {:induction false} BacksAreTokens(s: string, p: nat, c: Cmd)
    requires p <= |s| && AllTokens(s, c)
    ensures AllTokens(s, ParseBacks(s, p, c).0)
    decreases |s| - p
  {
    if At(s, SkipSpace(s, p)) == '&' {
      BacksAreTokens(s, GetToken(s, p).pos, Back(c));
    }
  }

  /** Every word the parser stores is a whole token of the line. */
  lemma {:induction false} LineIsTokens(s: string, p: nat)
    requires p <= |s|
    ensures var r := ParseLine(s, p); r.Parsed? ==> AllTokens(s, r.cmd)
    decreases |s| - p, 3
  {
    hide ParsePipe;
    PipeIsTokens(s, p);
    var r := ParsePipe(s, p);
    if r.Parsed? {
      BacksAreTokens(s, r.pos, r.cmd);
      var b := ParseBacks(s, r.pos, r.cmd);
      if At(s, b.1) == ';' {
        LineIsTokens(s, GetToken(s, b.1).pos);
      }
    }
  }

  function TerminateAll(buf: string, args: seq<Span>): (r: string)
    ensures |r| == |buf|
  {
    if args == [] then buf
    else
      var t := TerminateAll(buf, args[..|args| - 1]);
      var e := args[|args| - 1].eq;
      if e < |buf| then t[e := '\0'] else t
  }

  /** The buffer after nulterminate. */
  function Terminate(buf: string, c: Cmd): (r: string)
    ensures |r| == |buf|
    decreases c
  {
    match c
    case Exec(args) => TerminateAll(buf, args)
    case Redir(sub, file, _) =>
      var t := Terminate(buf, sub);
      if file.eq < |buf| then t[file.eq := '\0'] else t
    case Pipe(l, r) => Terminate(Terminate(buf, l), r)
    case List(l, r) => Terminate(Terminate(buf, l), r)
    case Back(sub) => Terminate(buf, sub)
  }

  ghost predicate EndsAt(c: Cmd, i: nat) {
    exists w :: HasSpan(c, w) && w.eq == i
  }

  lemma {:induction false} TerminateAllAt(buf: string, args: seq<Span>, i: nat)
    requires i < |buf|
    ensures TerminateAll(buf, args)[i] == if EndsAt(Exec(args), i) then '\0' else buf[i]
    decreases |args|
  {
    if args != [] {
      var front, w := args[..|args| - 1], args[|args| - 1];
      TerminateAllAt(buf, front, i);
      assert args == front + [w] && HasSpan(Exec(args), w);
      if EndsAt(Exec(front), i) {
        var v :| HasSpan(Exec(front), v) && v.eq == i;
        assert HasSpan(Exec(args), v);
      }
      if EndsAt(Exec(args), i) && w.eq != i {
        var v :| HasSpan(Exec(args), v) && v.eq == i;
        assert HasSpan(Exec(front), v);
      }
    }
  }

  lemma EndsAtParts(c: Cmd, i: nat)
    ensures c.Redir? ==> (EndsAt(c, i) <==> c.file.eq == i || EndsAt(c.sub, i))
    ensures c.Back? ==> (EndsAt(c, i) <==> EndsAt(c.sub, i))
    ensures c.Pipe? || c.List? ==> (EndsAt(c, i) <==> EndsAt(c.left, i) || EndsAt(c.right, i))
  {
    assert c.Redir? ==> HasSpan(c, c.file);
    assert c.Redir? || c.Back? ==> forall w :: HasSpan(c.sub, w) ==> HasSpan(c, w);
    assert c.Pipe? || c.List? ==> forall w :: HasSpan(c.left, w) || HasSpan(c.right, w) ==> HasSpan(c, w);
  }

  /** nulterminate writes a zero right after each stored word, and nowhere else. */
  lemma {:induction false} TerminateAt(buf: string, c: Cmd, i: nat)
    requires i < |buf|
    ensures Terminate(buf, c)[i] == if EndsAt(c, i) then '\0' else buf[i]
    decreases c
  {
    EndsAtParts(c, i);
    match c
    case Exec(args) => TerminateAllAt(buf, args, i);
    case Redir(sub, _, _) => TerminateAt(buf, sub, i);
    case Pipe(l, r) =>
      TerminateAt(buf, l, i);
      TerminateAt(Terminate(buf, l), r, i);
    case List(l, r) =>
      TerminateAt(buf, l, i);
      TerminateAt(Terminate(buf, l), r, i);
    case Back(sub) => TerminateAt(buf, sub, i);
  }

  /** After parsecmd every stored word is exactly its token: untouched, with a zero right after it. */
  lemma WordsAreTerminated(s: string, w: Span)
    requires ParseCmd(s).Parsed? && HasSpan(ParseCmd(s).cmd, w)
    ensures IsToken(s, w)
    ensures var t := Terminate(s + ['\0'], ParseCmd(s).cmd); t[w.q..w.eq] == s[w.q..w.eq] && t[w.eq] == '\0'
  {
    hide ParseLine;
    LineIsTokens(s, 0);
    var c := ParseCmd(s).cmd;
    var buf := s + ['\0'];
    TerminateAt(buf, c, w.eq);
    forall i | w.q <= i < w.eq ensures Terminate(buf, c)[i] == s[i] {
      TerminateAt(buf, c, i);
      assert IsToken(s, w);
    }
  }

  // ----- The program

  function Joined(rs: seq<Redirection>, r: Redirs): Redirs {
    if r.RedirPanic? then RedirPanic else Redirs(rs + r.list, r.pos)
  }

  lemma JoinedNone(r: Redirs)
    ensures Joined([], r) == r
  {
    if r.Redirs? {
      assert [] + r.list == r.list;
    }
  }

  /** One turn of parseredirs' loop, with rs found before it. */
  lemma RedirsStep(s: string, p: nat, rs: seq<Redirection>)
    requires p <= |s|
    ensures var op := GetToken(s, p); var file := GetToken(s, op.pos);
      Joined(rs, ParseRedirs(s, p)) ==
        if !IsRedir(At(s, SkipSpace(s, p))) then Redirs(rs, SkipSpace(s, p))
        else if file.kind != 'a' then RedirPanic
        else Joined(rs + [Redirection(file.span, ModeOf(op.kind))], ParseRedirs(s, file.pos))
  {
    var op := GetToken(s, p);
    var file := GetToken(s, op.pos);
    var one := Redirection(file.span, ModeOf(op.kind));
    assert rs + [] == rs;
    if file.kind == 'a' && ParseRedirs(s, file.pos).Redirs? {
      assert rs + ([one] + ParseRedirs(s, file.pos).list) == rs + [one] + ParseRedirs(s, file.pos).list;
    }
  }

  class Parser {
    const s: string
    /** *ps */
    var pos: nat

    constructor (line: string)
      ensures s == line && pos == 0
    {
      s, pos := line, 0;
    }

    /** The loop over whitespace that peek and gettoken share. */
    method Skip()
      requires pos <= |s|
      modifies this`pos
      ensures pos == SkipSpace(s, old(pos))
    {
      while pos < |s| && IsSpace(s[pos])
        invariant old(pos) <= pos <= |s| && SkipSpace(s, pos) == SkipSpace(s, old(pos))
      {
        pos := pos + 1;
      }
    }

    /** peek, returning the character it found */
    method Peek() returns (c: char)
      requires pos <= |s|
      modifies this`pos
      ensures pos == SkipSpace(s, old(pos)) && c == At(s, pos)
    {
      Skip();
      c := if pos < |s| then s[pos] else '\0';
    }

    method Gettoken() returns (kind: char, span: Span)
      requires pos <= |s|
      modifies this`pos
      ensures Token(kind, span, pos) == GetToken(s, old(pos))
    {
      Skip();
      var q := pos;
      kind := At(s, q);
      if kind == '\0' {
      } else if kind == '>' {
        pos := pos + 1;
        if At(s, pos) == '>' {
          kind, pos := '+', pos + 1;
        }
      } else if IsSymbol(kind) {
        pos := pos + 1;
      } else {
        kind := 'a';
        while pos < |s| && IsWordChar(s[pos])
          invariant q <= pos <= |s| && SkipWord(s, pos) == SkipWord(s, q)
        {
          pos := pos + 1;
        }
      }
      span := Span(q, pos);
      Skip();
    }

    /** parseredirs; ok is false for its panic */
    method Parseredirs() returns (ok: bool, rs: seq<Redirection>)
      requires pos <= |s|
      modifies this`pos
      ensures var r := ParseRedirs(s, old(pos)); ok == r.Redirs? && (ok ==> rs == r.list && pos == r.pos)
      ensures pos <= |s|
    {
      hide ParseRedirs;
      rs := [];
      ghost var all := ParseRedirs(s, pos);
      JoinedNone(all);
      while true
        invariant pos <= |s| && all == Joined(rs, ParseRedirs(s, pos))
        decreases |s| - pos
      {
        ghost var p := pos;
        RedirsStep(s, p, rs);
        var c := Peek();
        SkipTwice(s, p);
        if !IsRedir(c) {
          return true, rs;
        }
        var kind, _ := Gettoken();
        var word, file := Gettoken();
        if word != 'a' {
          return false, rs;
        }
        rs := rs + [Redirection(file, ModeOf(kind))];
      }
    }

    method Parseexec() returns (r: Parsed)
      requires pos <= |s|
      modifies this`pos
      ensures r == ParseExec(s, old(pos)) && pos <= |s| && (r.Parsed? ==> pos == r.pos)
      decreases |s| - pos, 1
    {
      var c := Peek();
      SkipTwice(s, old(pos));
      if c == '(' {
        r := Parseblock();
        return;
      }
      var ok, rs := Parseredirs();
      if !ok {
        return Panic;
      }
      r := Parsewords(rs);
    }

    /** The loop of parseexec. */
    method Parsewords(rs0: seq<Redirection>) returns (r: Parsed)
      requires pos <= |s|
      modifies this`pos
      ensures r == ParseWords(s, old(pos), [], rs0) && pos <= |s| && (r.Parsed? ==> pos == r.pos)
    {
      var args, rs := [], rs0;
      while true
        invariant old(pos) <= pos <= |s| && ParseWords(s, pos, args, rs) == ParseWords(s, old(pos), [], rs0)
        decreases |s| - pos
      {
        ghost var p := pos;
        var c := Peek();
        SkipTwice(s, p);
        if c == '|' || c == ')' || c == '&' || c == ';' {
          return Parsed(Wrap(Exec(args), rs), pos);
        }
        var kind, span := Gettoken();
        if kind == '\0' {
          return Parsed(Wrap(Exec(args), rs), pos);
        }
        if kind != 'a' {
          return Panic;
        }
        args := args + [span];
        if |args| >= MAXARGS {
          return Panic;
        }
        var ok, more := Parseredirs();
        if !ok {
          return Panic;
        }
        rs := rs + more;
      }
    }

    method Parseblock() returns (r: Parsed)
      requires pos < |s| && s[pos] == '('
      modifies this`pos
      ensures r == ParseBlock(s, old(pos)) && pos <= |s| && (r.Parsed? ==> pos == r.pos)
      decreases |s| - pos, 0
    {
      var _, _ := Gettoken();
      r := Parseline();
      if r.Panic? {
        return;
      }
      var cmd := r.cmd;
      var c := Peek();
      if c != ')' {
        return Panic;
      }
      var _, _ := Gettoken();
      var ok, rs := Parseredirs();
      r := if ok then Parsed(Wrap(cmd, rs), pos) else Panic;
    }

    method Parsepipe() returns (r: Parsed)
      requires pos <= |s|
      modifies this`pos
      ensures r == ParsePipe(s, old(pos)) && pos <= |s| && (r.Parsed? ==> pos == r.pos)
      decreases |s| - pos, 2
    {
      r := Parseexec();
      if r.Panic? {
        return;
      }
      var cmd := r.cmd;
      var c := Peek();
      r := Parsed(cmd, pos);
      if c == '|' {
        var _, _ := Gettoken();
        r := Parsepipe();
        r := if r.Panic? then Panic else Parsed(Pipe(cmd, r.cmd), pos);
      }
    }

    method Parseline() returns (r: Parsed)
      requires pos <= |s|
      modifies this`pos
      ensures r == ParseLine(s, old(pos)) && pos <= |s| && (r.Parsed? ==> pos == r.pos)
      decreases |s| - pos, 3
    {
      r := Parsepipe();
      if r.Panic? {
        return;
      }
      BacksSkip(s, pos, r.cmd);
      var cmd := Parsebacks(r.cmd);
      var c := Peek();
      r := Parsed(cmd, pos);
      if c == ';' {
        var _, _ := Gettoken();
        r := Parseline();
        r := if r.Panic? then Panic else Parsed(List(cmd, r.cmd), pos);
      }
    }

    /** The loop of parseline over '&'. */
    method Parsebacks(c0: Cmd) returns (cmd: Cmd)
      requires pos <= |s|
      modifies this`pos
      ensures (cmd, pos) == ParseBacks(s, old(pos), c0) && old(pos) <= pos <= |s|
    {
      cmd := c0;
      while true
        invariant old(pos) <= pos <= |s| && ParseBacks(s, pos, cmd) == ParseBacks(s, old(pos), c0)
        decreases |s| - pos
      {
        ghost var p := pos;
        var c := Peek();
        SkipTwice(s, p);
        if c != '&' {
          return;
        }
        var _, _ := Gettoken();
        cmd := Back(cmd);
      }
    }
  }

  lemma SkipTwice(s: string, p: nat)
    requires p <= |s|
    ensures SkipSpace(s, SkipSpace(s, p)) == SkipSpace(s, p) && GetToken(s, SkipSpace(s, p)) == GetToken(s, p)
  {
  }

  lemma {:induction false} BacksSkip(s: string, p: nat, c: Cmd)
    requires p <= |s|
    ensures SkipSpace(s, ParseBacks(s, p, c).1) == ParseBacks(s, p, c).1
    decreases |s| - p
  {
    SkipTwice(s, p);
    if At(s, SkipSpace(s, p)) == '&' {
      BacksSkip(s, GetToken(s, p).pos, Back(c));
    }
  }

  /** nulterminate, in place. */
  method NulTerminate(c: Cmd, buf: array<char>)
    modifies buf
    ensures buf[..] == Terminate(old(buf[..]), c)
    decreases c
  {
    match c
    case Exec(args) =>
      for i := 0 to |args|
        invariant buf[..] == TerminateAll(old(buf[..]), args[..i])
      {
        assert args[..i + 1][..i] == args[..i];
        if args[i].eq < buf.Length {
          buf[args[i].eq] := '\0';
        }
      }
      assert args[..|args|] == args;
    case Redir(sub, file, _) =>
      NulTerminate(sub, buf);
      if file.eq < buf.Length {
        buf[file.eq] := '\0';
      }
    case Pipe(l, r) =>
      NulTerminate(l, buf);
      NulTerminate(r, buf);
    case List(l, r) =>
      NulTerminate(l, buf);
      NulTerminate(r, buf);
    case Back(sub) =>
      NulTerminate(sub, buf);
  }
}
