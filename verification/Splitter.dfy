/** Splitting a migration's text into statements. */
module Splitter {
  import opened Options

  predicate Quote(c: char) {
    c == '\'' || c == '"' || c == '`'
  }

  /** What Python's `strip` removes. */
  predicate Space(c: char) {
    var n := c as int;
    || 9 <= n <= 13 || 28 <= n <= 32 || n == 0x85 || n == 0xA0 || n == 0x1680 || 0x2000 <= n <= 0x200A
    || n == 0x2028 || n == 0x2029 || n == 0x202F || n == 0x205F || n == 0x3000
  }

  // ---------- the lexer ----------

  /** The rest of a line comment: through the first newline, or everything. */
  function LineRest(s: string): (n: nat)
    ensures n <= |s|
    ensures forall k :: 0 <= k < n - 1 ==> s[k] != '\n'
    ensures n == |s| || (n > 0 && s[n - 1] == '\n')
  {
    if s == "" then 0 else if s[0] == '\n' then 1 else 1 + LineRest(s[1..])
  }

  predicate StarSlash(s: string, k: int) {
    0 <= k < |s| - 1 && s[k] == '*' && s[k + 1] == '/'
  }

  /** The rest of a block comment after its slash: through the first star and slash, or everything. */
  function BlockRest(s: string): (n: nat)
    ensures n <= |s|
    ensures forall k :: 0 <= k < n - 2 ==> !StarSlash(s, k)
    ensures (n >= 2 && StarSlash(s, n - 2)) || (n == |s| && forall k :: !StarSlash(s, k))
  {
    if s == "" then 0
    else if StarSlash(s, 0) then 2
    else
      assert forall k :: 0 < k ==> StarSlash(s, k) == StarSlash(s[1..], k - 1);
      1 + BlockRest(s[1..])
  }

  /** The rest of a quoted text: a doubled quote and a backslash with its successor do not end it. */
  function QuoteRest(s: string, quote: char): (n: nat)
    ensures n <= |s|
    ensures n == |s| || (n > 0 && s[n - 1] == quote)
  {
    if s == "" then 0
    else if s[0] == quote then if |s| > 1 && s[1] == quote then 2 + QuoteRest(s[2..], quote) else 1
    else if s[0] == '\\' && |s| > 1 then 2 + QuoteRest(s[2..], quote)
    else 1 + QuoteRest(s[1..], quote)
  }

  /** The length of the first token: a quoted text, a comment, or a single character. */
  function Token(s: string): (n: nat)
    requires s != ""
    ensures 0 < n <= |s|
  {
    if Quote(s[0]) then 1 + QuoteRest(s[1..], s[0])
    else if |s| > 1 && s[0] == '-' && s[1] == '-' then 1 + LineRest(s[1..])
    else if |s| > 1 && s[0] == '/' && s[1] == '*' then 1 + BlockRest(s[1..])
    else 1
  }

  /** `text` in front of the first piece. */
  function Onto(text: string, pieces: seq<string>): (r: seq<string>)
    requires pieces != []
    ensures |r| == |pieces|
  {
    [text + pieces[0]] + pieces[1..]
  }

  /** The text cut at its semicolon tokens. */
  function Pieces(s: string): (pieces: seq<string>)
    ensures pieces != []
  {
    if s == "" then [""]
    else if s[0] == ';' then [""] + Pieces(s[1..])
    else Onto(s[..Token(s)], Pieces(s[Token(s)..]))
  }

  function DropSpaces(s: string): (r: string)
    ensures |r| <= |s| && r == s[|s| - |r|..]
    ensures r == "" || !Space(r[0])
  {
    if s != "" && Space(s[0]) then DropSpaces(s[1..]) else s
  }

  function DropTrailing(s: string): (r: string)
    ensures r <= s
    ensures r == "" || !Space(r[|r| - 1])
  {
    if s != "" && Space(s[|s| - 1]) then DropTrailing(s[..|s| - 1]) else s
  }

  function Strip(s: string): string {
    DropTrailing(DropSpaces(s))
  }

  /** The statements: the pieces without surrounding space, empty ones left out. */
  function Statements(pieces: seq<string>): seq<string> {
    if pieces == [] then []
    else
      var text := Strip(pieces[|pieces| - 1]);
      Statements(pieces[..|pieces| - 1]) + if text == "" then [] else [text]
  }

  lemma StatementsPush(pieces: seq<string>, last: string)
    ensures Statements(pieces + [last]) == Statements(pieces) + if Strip(last) == "" then [] else [Strip(last)]
  {
    assert (pieces + [last])[..|pieces|] == pieces;
  }

  // ---------- the loop ----------

  datatype Mode = Code | Line | Block | Quoted(quote: char)

  /** How far the token reaches that the loop is inside of. */
  function Run(mode: Mode, s: string): (n: nat)
    ensures n <= |s|
  {
    match mode
    case Code => 0
    case Line => LineRest(s)
    case Block => BlockRest(s)
    case Quoted(q) => QuoteRest(s, q)
  }

  /** What is still to come when the loop is in the given mode. */
  function Coming(mode: Mode, s: string): (pieces: seq<string>)
    ensures pieces != []
  {
    Onto(s[..Run(mode, s)], Pieces(s[Run(mode, s)..]))
  }

  lemma OntoOnto(a: string, b: string, pieces: seq<string>)
    requires pieces != []
    ensures Onto(a, Onto(b, pieces)) == Onto(a + b, pieces)
  {
    assert (a + b) + pieces[0] == a + (b + pieces[0]);
  }

  lemma OntoNothing(pieces: seq<string>)
    requires pieces != []
    ensures Onto("", pieces) == pieces
  {
    assert "" + pieces[0] == pieces[0];
  }

  /** The flags of the loop, in the order it tests them. */
  function ModeOf(quote: Option<char>, lineComment: bool, blockComment: bool): Mode {
    if lineComment then Line
    else if blockComment then Block
    else if quote.Some? then Quoted(quote.value)
    else Code
  }

  /** What the next step of the loop makes of the text: the mode after it, and how much it moves over. */
  function Step(mode: Mode, s: string): (step: (Mode, nat))
    requires s != ""
    ensures 0 < step.1 <= |s|
  {
    var next := if |s| > 1 then [s[1]] else "";
    match mode
    case Line => (if s[0] == '\n' then Code else Line, 1)
    case Block => if s[0] == '*' && next == "/" then (Code, 2) else (Block, 1)
    case Quoted(q) =>
      if s[0] == q then if next == [q] then (mode, 2) else (Code, 1)
      else if s[0] == '\\' && next != "" then (mode, 2)
      else (mode, 1)
    case Code =>
      if Quote(s[0]) then (Quoted(s[0]), 1)
      else if s[0] == '-' && next == "-" then (Line, 1)
      else if s[0] == '/' && next == "*" then (Block, 1)
      else (Code, 1)
  }

  /** Moving over `n` characters of a run of `m`. */
  lemma Advance(s: string, n: nat, m: nat)
    requires 0 < n <= m <= |s|
    ensures Onto(s[..m], Pieces(s[m..])) == Onto(s[..n], Onto(s[n..][..m - n], Pieces(s[n..][m - n..])))
  {
    assert s[n..][m - n..] == s[m..] && s[..n] + s[n..][..m - n] == s[..m];
    OntoOnto(s[..n], s[n..][..m - n], Pieces(s[m..]));
  }

  lemma StepRuns(mode: Mode, s: string)
    requires s != ""
    ensures
      var (after, n) := Step(mode, s);
      (if mode == Code then Token(s) else Run(mode, s)) == n + Run(after, s[n..])
  {
  }

  /** Every step but a cut leaves what is still to come in front of the same pieces. */
  lemma StepKeeps(mode: Mode, s: string)
    requires s != "" && !(mode == Code && s[0] == ';')
    ensures
      var (after, n) := Step(mode, s);
      Coming(mode, s) == Onto(s[..n], Coming(after, s[n..]))
  {
    hide Pieces, Step, Run, Token, Onto;
    var (after, n) := Step(mode, s);
    StepRuns(mode, s);
    var m := if mode == Code then Token(s) else Run(mode, s);
    if mode == Code {
      UnfoldPieces(s);
      CodeRuns(s);
      assert s[0..] == s && s[..0] == "";
      OntoNothing(Pieces(s));
    }
    Advance(s, n, m);
  }

  lemma CodeRuns(s: string)
    ensures Run(Code, s) == 0
  {
  }

  lemma UnfoldPieces(s: string)
    requires s != ""
    ensures Pieces(s) == if s[0] == ';' then [""] + Pieces(s[1..]) else Onto(s[..Token(s)], Pieces(s[Token(s)..]))
  {
  }

  lemma Start(sql: string)
    ensures Pieces(sql) == [] + Onto("", Coming(Code, sql[0..])) && Statements([]) == []
  {
    assert sql[0..] == sql;
    OntoNothing(Pieces(sql));
  }

  lemma CutHere(s: string, current: string)
    requires s != "" && s[0] == ';'
    ensures Onto(current, Coming(Code, s)) == [current] + Onto("", Coming(Code, s[1..]))
  {
    assert s[..0] == "" && s[0..] == s && s[1..][..0] == "" && s[1..][0..] == s[1..];
    OntoNothing(Pieces(s));
    OntoNothing(Pieces(s[1..]));
    assert Pieces(s)[0] == "" && current + "" == current;
  }

  lemma Finish(mode: Mode, current: string)
    ensures Onto(current, Coming(mode, "")) == [current]
  {
    assert Run(mode, "") == 0 && ""[..0] == "" && ""[0..] == "";
    OntoNothing(Pieces(""));
    assert current + "" == current;
  }

  /** The loop: a character or two at a time, cutting at the semicolons met outside quotes and comments. */
  method SplitStatements(sql: string) returns (statements: seq<string>)
    ensures statements == Statements(Pieces(sql))
  {
    hide Pieces, Coming, Statements, Strip;
    statements := [];
    var current := "";
    var quote: Option<char> := None;
    var lineComment, blockComment := false, false;
    var index := 0;
    ghost var done: seq<string> := [];
    Start(sql);
    while index < |sql|
      invariant index <= |sql|
      invariant !(lineComment && blockComment) && (lineComment || blockComment ==> quote.None?)
      invariant statements == Statements(done)
      invariant Pieces(sql) == done + Onto(current, Coming(ModeOf(quote, lineComment, blockComment), sql[index..]))
    {
      var c := sql[index];
      var next := if index + 1 < |sql| then [sql[index + 1]] else "";
      ghost var mode, rest := ModeOf(quote, lineComment, blockComment), sql[index..];
      ghost var step, before := Step(mode, rest), current;
      assert rest[0] == c && sql[index + 1..] == rest[1..] && (|rest| > 1 ==> sql[index + 2..] == rest[2..]);
      if mode == Code && c == ';' {
        CutHere(rest, current);
        StatementsPush(done, current);
      } else {
        StepKeeps(mode, rest);
        OntoOnto(current, rest[..step.1], Coming(step.0, rest[step.1..]));
      }
      if lineComment {
        current := current + [c];
        if c == '\n' {
          lineComment := false;
        }
        index := index + 1;
      } else if blockComment {
        current := current + [c];
        if c == '*' && next == "/" {
          current := current + next;
          blockComment := false;
          index := index + 2;
        } else {
          index := index + 1;
        }
      } else if quote.Some? {
        current := current + [c];
        if c == quote.value {
          if next == [quote.value] {
            current := current + next;
            index := index + 2;
          } else {
            quote := None;
            index := index + 1;
          }
        } else if c == '\\' && next != "" {
          current := current + next;
          index := index + 2;
        } else {
          index := index + 1;
        }
      } else if c == ';' {
        var text := Strip(current);
        if text != "" {
          statements := statements + [text];
        }
        done := done + [current];
        current := "";
        index := index + 1;
      } else {
        if Quote(c) {
          quote := Some(c);
        } else if c == '-' && next == "-" {
          lineComment := true;
        } else if c == '/' && next == "*" {
          blockComment := true;
        }
        current := current + [c];
        index := index + 1;
      }
      assert !(mode == Code && c == ';') ==>
        && current == before + rest[..step.1] && sql[index..] == rest[step.1..]
        && ModeOf(quote, lineComment, blockComment) == step.0;
    }
    assert sql[index..] == "";
    Finish(ModeOf(quote, lineComment, blockComment), current);
    StatementsPush(done, current);
    var text := Strip(current);
    if text != "" {
      statements := statements + [text];
    }
  }

  // ---------- what the pieces are ----------

  /** The pieces with semicolons between them. */
  function Join(pieces: seq<string>): string
    requires pieces != []
  {
    if |pieces| == 1 then pieces[0] else pieces[0] + ";" + Join(pieces[1..])
  }

  lemma JoinOnto(text: string, pieces: seq<string>)
    requires pieces != []
    ensures Join(Onto(text, pieces)) == text + Join(pieces)
  {
    if |pieces| > 1 {
      assert (text + pieces[0]) + ";" + Join(pieces[1..]) == text + (pieces[0] + ";" + Join(pieces[1..]));
    }
  }

  /** Nothing is lost but the cuts. */
  lemma {:induction false} JoinPieces(s: string)
    ensures Join(Pieces(s)) == s
  {
    if s == "" {
    } else if s[0] == ';' {
      JoinPieces(s[1..]);
      assert ([""] + Pieces(s[1..]))[1..] == Pieces(s[1..]);
      assert s == ";" + s[1..];
    } else {
      var n := Token(s);
      JoinPieces(s[n..]);
      JoinOnto(s[..n], Pieces(s[n..]));
    }
  }

  /** Position `i` holds a semicolon that is a token of its own. */
  predicate OpenSemicolon(s: string, i: int) {
    s != "" && if i < Token(s) then i == 0 && s[0] == ';' else OpenSemicolon(s[Token(s)..], i - Token(s))
  }

  /** Where the semicolon after piece `k` was. */
  function Cut(pieces: seq<string>, k: nat): nat
    requires k < |pieces|
  {
    if k == 0 then |pieces[0]| else |pieces[0]| + 1 + Cut(pieces[1..], k - 1)
  }

  /** The text is cut at position `i`. */
  predicate CutAt(pieces: seq<string>, i: int) {
    exists k :: 0 <= k < |pieces| - 1 && Cut(pieces, k) == i
  }

  lemma CutOnto(text: string, pieces: seq<string>, i: int)
    requires pieces != []
    ensures CutAt(Onto(text, pieces), i) <==> CutAt(pieces, i - |text|)
  {
    var longer := Onto(text, pieces);
    assert longer[1..] == pieces[1..];
    forall k | 0 <= k < |pieces| ensures Cut(longer, k) == Cut(pieces, k) + |text| {
    }
  }

  lemma CutFirst(pieces: seq<string>, i: int)
    requires pieces != []
    ensures CutAt([""] + pieces, i) <==> i == 0 || CutAt(pieces, i - 1)
  {
    var longer := [""] + pieces;
    assert longer[1..] == pieces;
    assert Cut(longer, 0) == 0;
    forall k | 0 <= k < |pieces| ensures Cut(longer, k + 1) == 1 + Cut(pieces, k) {
    }
    if CutAt(longer, i) {
      var k :| 0 <= k < |longer| - 1 && Cut(longer, k) == i;
      assert k > 0 ==> Cut(pieces, k - 1) == i - 1;
    }
    if CutAt(pieces, i - 1) {
      var k :| 0 <= k < |pieces| - 1 && Cut(pieces, k) == i - 1;
      assert Cut(longer, k + 1) == i;
    }
  }

  /** The cuts are exactly the semicolons outside quotes and comments. */
  lemma {:induction false} CutsAreOpenSemicolons(s: string, i: int)
    ensures CutAt(Pieces(s), i) <==> i >= 0 && OpenSemicolon(s, i)
    decreases |s|
  {
    if s != "" {
      var n := Token(s);
      CutsAreOpenSemicolons(s[n..], i - n);
      if s[0] == ';' {
        CutFirst(Pieces(s[1..]), i);
      } else {
        CutOnto(s[..n], Pieces(s[n..]), i);
      }
    }
  }

  // ---------- splitting a statement again ----------

  /** The text is one piece: it holds no semicolon token. */
  predicate Whole(s: string) {
    s == "" || (s[0] != ';' && Whole(s[Token(s)..]))
  }

  lemma {:induction false} WholeIsOnePiece(s: string)
    requires Whole(s)
    ensures Pieces(s) == [s]
  {
    if s != "" {
      var n := Token(s);
      WholeIsOnePiece(s[n..]);
      assert s[..n] + s[n..] == s;
    }
  }

  lemma {:induction false} LineRestPrefix(s: string, p: string)
    requires p <= s && (LineRest(s) <= |p|)
    ensures LineRest(p) == LineRest(s)
  {
    if p != "" && s[0] != '\n' {
      LineRestPrefix(s[1..], p[1..]);
    }
  }

  lemma {:induction false} BlockRestPrefix(s: string, p: string)
    requires p <= s && BlockRest(s) <= |p|
    ensures BlockRest(p) == BlockRest(s)
  {
    if p != "" && !StarSlash(s, 0) {
      BlockRestPrefix(s[1..], p[1..]);
    }
  }

  lemma {:induction false} QuoteRestPrefix(s: string, quote: char, p: string)
    requires p <= s && QuoteRest(s, quote) <= |p|
    ensures QuoteRest(p, quote) == QuoteRest(s, quote)
    decreases |s|
  {
    if p != "" {
      if s[0] == quote {
        if |s| > 1 && s[1] == quote {
          QuoteRestPrefix(s[2..], quote, p[2..]);
        }
      } else if s[0] == '\\' && |s| > 1 {
        QuoteRestPrefix(s[2..], quote, p[2..]);
      } else {
        QuoteRestPrefix(s[1..], quote, p[1..]);
      }
    }
  }

  /** What follows a token does not change it. */
  lemma TokenPrefix(s: string, p: string)
    requires p <= s && p != "" && Token(s) <= |p|
    ensures Token(p) == Token(s)
  {
    if Quote(s[0]) {
      QuoteRestPrefix(s[1..], s[0], p[1..]);
    } else if |s| > 1 && s[0] == '-' && s[1] == '-' {
      LineRestPrefix(s[1..], p[1..]);
    } else if |s| > 1 && s[0] == '/' && s[1] == '*' {
      BlockRestPrefix(s[1..], p[1..]);
    }
  }

  /** Every piece is whole. */
  lemma {:induction false} PiecesAreWhole(s: string)
    ensures forall p :: p in Pieces(s) ==> Whole(p)
    ensures Pieces(s)[0] <= s
    decreases |s|
  {
    if s != "" {
      var n := Token(s);
      PiecesAreWhole(s[n..]);
      if s[0] != ';' {
        var first := Pieces(s[n..])[0];
        var p := s[..n] + first;
        assert s == s[..n] + s[n..] && p <= s;
        TokenPrefix(s, p);
        assert p[n..] == first && Whole(p);
      }
    }
  }

  lemma {:induction false} DropSpacesKeepsWhole(s: string)
    requires Whole(s)
    ensures Whole(DropSpaces(s))
  {
    if s != "" && Space(s[0]) {
      assert Token(s) == 1;
      DropSpacesKeepsWhole(s[1..]);
    }
  }

  lemma {:induction false} LineRestShort(s: string)
    requires s != "" && LineRest(s) == |s|
    ensures LineRest(s[..|s| - 1]) == |s| - 1
  {
    if |s| > 1 {
      var p := s[..|s| - 1];
      assert p[1..] == s[1..][..|s| - 2];
      if s[0] != '\n' {
        LineRestShort(s[1..]);
      }
    }
  }

  lemma {:induction false} BlockRestShort(s: string)
    requires s != "" && s[|s| - 1] != '/' && BlockRest(s) == |s|
    ensures BlockRest(s[..|s| - 1]) == |s| - 1
  {
    if |s| > 1 {
      var p := s[..|s| - 1];
      assert p[1..] == s[1..][..|s| - 2];
      BlockRestShort(s[1..]);
    }
  }

  lemma {:induction false} QuoteRestShort(s: string, quote: char)
    requires s != "" && s[|s| - 1] != quote && quote != '\\' && QuoteRest(s, quote) == |s|
    ensures QuoteRest(s[..|s| - 1], quote) == |s| - 1
    decreases |s|
  {
    if |s| > 1 {
      var p := s[..|s| - 1];
      if (s[0] == quote && s[1] == quote) || s[0] == '\\' {
        if |s| > 2 {
          assert p[2..] == s[2..][..|s| - 3];
          QuoteRestShort(s[2..], quote);
        }
      } else {
        assert p[1..] == s[1..][..|s| - 2];
        QuoteRestShort(s[1..], quote);
      }
    }
  }

  /** A token that ends in a space, and is more than that space, was never closed but by a newline: it stays one token. */
  lemma TokenShort(s: string)
    requires |s| > 1 && Space(s[|s| - 1]) && Token(s) == |s|
    ensures Token(s[..|s| - 1]) == |s| - 1
  {
    var tail := s[1..];
    assert s[..|s| - 1][1..] == tail[..|tail| - 1];
    if Quote(s[0]) {
      QuoteRestShort(tail, s[0]);
    } else if s[0] == '-' && s[1] == '-' {
      LineRestShort(tail);
    } else {
      BlockRestShort(tail);
    }
  }

  lemma WholeUnfold(s: string)
    requires s != ""
    ensures Whole(s) <==> s[0] != ';' && Whole(s[Token(s)..])
  {
  }

  lemma {:induction false} ShortIsWhole(s: string)
    requires Whole(s) && s != "" && Space(s[|s| - 1])
    ensures Whole(s[..|s| - 1])
  {
    var n, p := Token(s), s[..|s| - 1];
    if p != "" {
      WholeUnfold(s);
      WholeUnfold(p);
      if n == |s| {
        TokenShort(s);
        assert p[|p|..] == "";
      } else {
        hide Token, Whole;
        TokenPrefix(s, p);
        ShortIsWhole(s[n..]);
        assert p[n..] == s[n..][..|s| - n - 1];
      }
    }
  }

  lemma {:induction false} DropTrailingKeepsWhole(s: string)
    requires Whole(s)
    ensures Whole(DropTrailing(s))
  {
    if s != "" && Space(s[|s| - 1]) {
      ShortIsWhole(s);
      DropTrailingKeepsWhole(s[..|s| - 1]);
    }
  }

  lemma StripIs(s: string)
    ensures Strip(s) == DropTrailing(DropSpaces(s))
  {
  }

  lemma NoStatements()
    ensures Statements([]) == []
  {
  }

  lemma StripTwice(s: string)
    ensures Strip(Strip(s)) == Strip(s)
  {
    var t := DropSpaces(s);
    var u := DropTrailing(t);
    assert u != "" ==> u[0] == t[0];
  }

  lemma {:induction false} StatementOrigin(pieces: seq<string>, text: string)
    requires text in Statements(pieces)
    ensures text != "" && exists p :: p in pieces && text == Strip(p)
  {
    var rest, last := pieces[..|pieces| - 1], pieces[|pieces| - 1];
    if text in Statements(rest) {
      StatementOrigin(rest, text);
    } else {
      assert last in pieces;
    }
  }

  /** Splitting any statement again gives just that statement. */
  lemma StatementIsAtomic(sql: string, text: string)
    requires text in Statements(Pieces(sql))
    ensures Statements(Pieces(text)) == [text]
  {
    hide Pieces, Strip, Statements, Whole;
    StatementOrigin(Pieces(sql), text);
    var p :| p in Pieces(sql) && text == Strip(p);
    PiecesAreWhole(sql);
    DropSpacesKeepsWhole(p);
    DropTrailingKeepsWhole(DropSpaces(p));
    StripIs(p);
    WholeIsOnePiece(text);
    StripTwice(p);
    StatementsPush([], text);
    NoStatements();
    assert [] + [text] == [text];
  }

  // ---------- what does not cut ----------

  /** A text that stays inside these quotes: they occur in it doubled, or after a backslash. */
  predicate Inside(body: string, quote: char) {
    || body == ""
    || (if body[0] == quote then |body| > 1 && body[1] == quote && Inside(body[2..], quote)
        else if body[0] == '\\' then |body| > 1 && Inside(body[2..], quote)
        else Inside(body[1..], quote))
  }

  lemma {:induction false} QuoteCloses(body: string, quote: char, rest: string)
    requires Inside(body, quote) && quote != '\\' && (rest != "" ==> rest[0] != quote)
    ensures QuoteRest(body + [quote] + rest, quote) == |body| + 1
  {
    var s := body + [quote] + rest;
    if body != "" {
      if body[0] == quote || body[0] == '\\' {
        assert s[2..] == body[2..] + [quote] + rest;
        QuoteCloses(body[2..], quote, rest);
      } else {
        assert s[1..] == body[1..] + [quote] + rest;
        QuoteCloses(body[1..], quote, rest);
      }
    }
  }

  /** No semicolon between single quotes, double quotes or backticks cuts. */
  lemma QuotedIsKept(body: string, quote: char, rest: string)
    requires quote in "'\"`" && Inside(body, quote) && (rest != "" ==> rest[0] != quote)
    ensures
      var quoted := [quote] + body + [quote];
      Pieces(quoted + rest) == Onto(quoted, Pieces(rest))
  {
    hide BlockRest, LineRest, QuoteRest, Inside;
    var quoted := [quote] + body + [quote];
    var s := quoted + rest;
    QuoteCloses(body, quote, rest);
    assert s[1..] == body + [quote] + rest;
    assert s[..|quoted|] == quoted && s[|quoted|..] == rest;
  }

  lemma {:induction false} LineCloses(body: string, rest: string)
    requires '\n' !in body
    ensures LineRest(body + "\n" + rest) == |body| + 1
  {
    var s := body + "\n" + rest;
    if body != "" {
      assert body[0] in body;
      assert s[1..] == body[1..] + "\n" + rest;
      LineCloses(body[1..], rest);
    }
  }

  /** No semicolon between two dashes and the end of the line cuts. */
  lemma LineCommentIsKept(body: string, rest: string)
    requires '\n' !in body
    ensures
      var comment := "--" + body + "\n";
      Pieces(comment + rest) == Onto(comment, Pieces(rest))
  {
    var comment := "--" + body + "\n";
    var s := comment + rest;
    LineCloses("-" + body, rest);
    assert s[1..] == "-" + body + "\n" + rest;
    assert s[..|comment|] == comment && s[|comment|..] == rest;
  }

  lemma {:induction false} BlockCloses(body: string, rest: string)
    requires forall k :: 0 <= k < |body| ==> !StarSlash(body + "*/", k)
    ensures BlockRest(body + "*/" + rest) == |body| + 2
  {
    var s := body + "*/" + rest;
    if body != "" {
      assert StarSlash(body + "*/", 0) == StarSlash(s, 0);
      assert s[1..] == body[1..] + "*/" + rest;
      forall k | 0 <= k < |body[1..]| ensures !StarSlash(body[1..] + "*/", k) {
        assert StarSlash(body + "*/", k + 1) == StarSlash(body[1..] + "*/", k);
      }
      BlockCloses(body[1..], rest);
    }
  }

  /** No semicolon inside a block comment cuts; the star that opens it may already close it. */
  lemma BlockCommentIsKept(body: string, rest: string)
    requires forall k :: 0 <= k <= |body| ==> !StarSlash("*" + body + "*/", k)
    ensures
      var comment := "/*" + body + "*/";
      Pieces(comment + rest) == Onto(comment, Pieces(rest))
  {
    hide BlockRest, StarSlash, LineRest, QuoteRest;
    var comment := "/*" + body + "*/";
    var s := comment + rest;
    BlockCloses("*" + body, rest);
    assert s[1..] == "*" + body + "*/" + rest;
    assert s[..|comment|] == comment && s[|comment|..] == rest;
  }

  /** Anywhere else a semicolon cuts, and every other character belongs to its piece. */
  lemma CodeIsCut(c: char, rest: string)
    requires c !in "'\"`" && (rest != "" ==> !(c == '-' && rest[0] == '-') && !(c == '/' && rest[0] == '*'))
    ensures Pieces([c] + rest) == if c == ';' then [""] + Pieces(rest) else Onto([c], Pieces(rest))
  {
    var s := [c] + rest;
    assert s[1..] == rest && s[..1] == [c];
  }

  ghost predicate AllSpace(s: string) {
    forall c :: c in s ==> Space(c)
  }

  lemma {:induction false} DropSpacesAll(a: string, t: string)
    requires AllSpace(a) && (t == "" || !Space(t[0]))
    ensures DropSpaces(a + t) == t
  {
    if a == "" {
      assert a + t == t;
    } else {
      assert (a + t)[1..] == a[1..] + t && a[0] in a;
      DropSpacesAll(a[1..], t);
    }
  }

  lemma {:induction false} DropTrailingAll(t: string, b: string)
    requires AllSpace(b) && (t == "" || !Space(t[|t| - 1]))
    ensures DropTrailing(t + b) == t
  {
    if b == "" {
      assert t + b == t;
    } else {
      var n := |b| - 1;
      assert (t + b)[..|t + b| - 1] == t + b[..n] && b[n] in b;
      DropTrailingAll(t, b[..n]);
    }
  }

  /** A statement is its text without the space around it, whatever space is inside. */
  lemma StripIsExact(a: string, t: string, b: string)
    requires AllSpace(a) && AllSpace(b) && (t == "" || (!Space(t[0]) && !Space(t[|t| - 1])))
    ensures t != "" ==> Strip(a + t + b) == t
    ensures t == "" ==> Strip(a + b) == ""
  {
    hide Space, DropSpaces, DropTrailing;
    if t != "" {
      assert a + t + b == a + (t + b);
      DropSpacesAll(a, t + b);
      DropTrailingAll(t, b);
    } else {
      assert (a + b) + "" == a + b;
      DropSpacesAll(a + b, "");
    }
  }

  /** Of ASCII, space is none of what can be seen, and all that ends a word or a line. */
  lemma SpaceIsUnseen(c: char)
    ensures '!' <= c <= '~' ==> !Space(c)
    ensures c in " \t\n\r" ==> Space(c)
  {
  }
}
