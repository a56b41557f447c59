/**
  * strip_sql_noise: every comment and every quoted region of an SQL text becomes one space.
  */
module SqlNoise {

  // ---- SQL text as a stream of tokens ----

  datatype Token =
    | Code(c: char)
    | Line(body: string)                             // -- to the end of the line
    | Block(body: string, closed: bool)              // /* ... */
    | Quoted(open: char, body: string, closed: bool) // '...' "..." `...` [...]

  predicate IsQuote(c: char) {
    c == '\'' || c == '"' || c == '`' || c == '['
  }

  function CloseOf(open: char): char {
    if open == '[' then ']' else open
  }

  predicate Doubles(open: char) {
    open != '['
  }

  function Text(t: Token): string {
    match t
    case Code(c) => [c]
    case Line(body) => "--" + body
    case Block(body, closed) => "/*" + body + if closed then "*/" else ""
    case Quoted(open, body, closed) => [open] + body + if closed then [CloseOf(open)] else ""
  }

  function Render(ts: seq<Token>): string {
    if ts == [] then "" else Text(ts[0]) + Render(ts[1..])
  }

  /** Code characters as they are, one space for anything else. */
  function Blank(ts: seq<Token>): string {
    if ts == [] then ""
    else [if ts[0].Code? then ts[0].c else ' '] + Blank(ts[1..])
  }

  /** Inside quotes the closing character appears only doubled, if at all. */
  predicate QuotedBody(open: char, body: string)
    decreases |body|
  {
    || body == ""
    || (body[0] != CloseOf(open) && QuotedBody(open, body[1..]))
    || (Doubles(open) && |body| >= 2 && body[0] == body[1] == CloseOf(open) && QuotedBody(open, body[2..]))
  }

  predicate NoBlockEnd(body: string) {
    forall i :: 0 <= i < |body| - 1 ==> !(body[i] == '*' && body[i + 1] == '/')
  }

  predicate StartsWith(s: string, c: char) {
    s != "" && s[0] == c
  }

  /** `t` is one token when followed by `rest`; only the last token may be unterminated. */
  predicate TokenOk(t: Token, rest: string) {
    match t
    case Code(c) =>
      !IsQuote(c) && !(c == '-' && StartsWith(rest, '-')) && !(c == '/' && StartsWith(rest, '*'))
    case Line(body) => '\n' !in body && (rest == "" || rest[0] == '\n')
    case Block(body, closed) => NoBlockEnd(body) && (closed || rest == "")
    case Quoted(open, body, closed) =>
      && IsQuote(open) && QuotedBody(open, body)
      && if closed then Doubles(open) ==> !StartsWith(rest, CloseOf(open)) else rest == ""
  }

  predicate StreamOk(ts: seq<Token>) {
    ts == [] || (TokenOk(ts[0], Render(ts[1..])) && StreamOk(ts[1..]))
  }

  // ---- how far a region reaches ----

  function LineLength(s: string): (n: nat)
    ensures n <= |s|
  {
    if s == "" || s[0] == '\n' then 0 else 1 + LineLength(s[1..])
  }

  /** The rest of a block comment, with its end. */
  function BlockLength(s: string): (n: nat)
    ensures n <= |s|
  {
    if |s| < 2 then |s| else if s[0] == '*' && s[1] == '/' then 2 else 1 + BlockLength(s[1..])
  }

  /** The rest of a quoted region, with its closing character. */
  function QuoteLength(open: char, s: string): (n: nat)
    ensures n <= |s|
    decreases |s|
  {
    if s == "" then 0
    else if s[0] != CloseOf(open) then 1 + QuoteLength(open, s[1..])
    else if Doubles(open) && |s| >= 2 && s[1] == CloseOf(open) then 2 + QuoteLength(open, s[2..])
    else 1
  }

  predicate OpensLine(s: string) {
    |s| >= 2 && s[0] == '-' && s[1] == '-'
  }

  predicate OpensBlock(s: string) {
    |s| >= 2 && s[0] == '/' && s[1] == '*'
  }

  function RegionLength(s: string): (n: nat)
    requires s != ""
    ensures 1 <= n <= |s|
  {
    if OpensLine(s) then LineSplit(s); LineLength(s)
    else if OpensBlock(s) then 2 + BlockLength(s[2..])
    else if IsQuote(s[0]) then 1 + QuoteLength(s[0], s[1..])
    else 1
  }

  lemma LineSplit(s: string)
    requires OpensLine(s)
    ensures LineLength(s) == 2 + LineLength(s[2..])
  {
    assert s[1..][1..] == s[2..];
  }

  predicate IsCode(s: string)
    requires s != ""
  {
    !OpensLine(s) && !OpensBlock(s) && !IsQuote(s[0])
  }

  function Strip(s: string): string {
    if s == "" then "" else [if IsCode(s) then s[0] else ' '] + Strip(s[RegionLength(s)..])
  }

  // ---- a token reaches as far as its text ----

  lemma {:induction false} LineReach(body: string, rest: string)
    requires '\n' !in body && (rest == "" || rest[0] == '\n')
    ensures LineLength(body + rest) == |body|
  {
    if body == "" {
      assert body + rest == rest;
    } else {
      assert body[0] in body;
      assert (body + rest)[1..] == body[1..] + rest;
      LineReach(body[1..], rest);
    }
  }

  lemma {:induction false} BlockReach(body: string, rest: string)
    requires NoBlockEnd(body)
    ensures BlockLength(body + "*/" + rest) == |body| + 2
    ensures BlockLength(body) == |body|
  {
    var s := body + "*/" + rest;
    if body == "" {
      assert s[0] == '*' && s[1] == '/';
    } else {
      forall i | 0 <= i < |body[1..]| - 1 ensures !(body[1..][i] == '*' && body[1..][i + 1] == '/') {
        assert body[1..][i] == body[i + 1] && body[1..][i + 1] == body[i + 2];
      }
      BlockReach(body[1..], rest);
      assert s[1..] == body[1..] + "*/" + rest;
      assert !(s[0] == '*' && s[1] == '/');
    }
  }

  lemma {:induction false} QuoteReach(open: char, body: string, rest: string)
    requires QuotedBody(open, body) && (Doubles(open) ==> !StartsWith(rest, CloseOf(open)))
    ensures QuoteLength(open, body + [CloseOf(open)] + rest) == |body| + 1
    ensures QuoteLength(open, body) == |body|
    decreases |body|
  {
    var s := body + [CloseOf(open)] + rest;
    if body == "" {
      assert s == [CloseOf(open)] + rest;
    } else if body[0] != CloseOf(open) {
      QuoteReach(open, body[1..], rest);
      assert s[1..] == body[1..] + [CloseOf(open)] + rest;
    } else {
      QuoteReach(open, body[2..], rest);
      assert s[2..] == body[2..] + [CloseOf(open)] + rest;
    }
  }

  /** `t` is what a scan of `s` meets first. */
  predicate Meets(s: string, t: Token) {
    s != "" && RegionLength(s) == |Text(t)| && IsCode(s) == t.Code? && (t.Code? ==> s[0] == t.c)
  }

  lemma LineMeets(body: string, rest: string)
    requires TokenOk(Line(body), rest)
    ensures Meets(Text(Line(body)) + rest, Line(body))
  {
    var s := "--" + body + rest;
    assert s == Text(Line(body)) + rest;
    assert s[2..] == body + rest;
    LineReach(body, rest);
    LineSplit(s);
  }

  lemma BlockMeets(body: string, closed: bool, rest: string)
    requires TokenOk(Block(body, closed), rest)
    ensures Meets(Text(Block(body, closed)) + rest, Block(body, closed))
  {
    var s := Text(Block(body, closed)) + rest;
    BlockReach(body, rest);
    if closed { assert s[2..] == body + "*/" + rest; } else { assert s[2..] == body; }
  }

  lemma QuoteMeets(open: char, body: string, closed: bool, rest: string)
    requires TokenOk(Quoted(open, body, closed), rest)
    ensures Meets(Text(Quoted(open, body, closed)) + rest, Quoted(open, body, closed))
  {
    var s := Text(Quoted(open, body, closed)) + rest;
    QuoteReach(open, body, rest);
    if closed { assert s[1..] == body + [CloseOf(open)] + rest; } else { assert s[1..] == body; }
    assert s[0] == open;
  }

  lemma TokenMeets(t: Token, rest: string)
    requires TokenOk(t, rest)
    ensures Meets(Text(t) + rest, t)
  {
    match t
    case Code(c) => assert (Text(t) + rest)[0] == c;
    case Line(body) => LineMeets(body, rest);
    case Block(body, closed) => BlockMeets(body, closed, rest);
    case Quoted(open, body, closed) => QuoteMeets(open, body, closed, rest);
  }

  /** Every well-formed stream is reduced to its code characters, with one space for each
      comment and each quoted region. */
  lemma {:induction false} StripIsBlank(ts: seq<Token>)
    requires StreamOk(ts)
    ensures Strip(Render(ts)) == Blank(ts)
  {
    if ts != [] {
      var rest := Render(ts[1..]);
      TokenMeets(ts[0], rest);
      assert (Text(ts[0]) + rest)[|Text(ts[0])|..] == rest;
      StripIsBlank(ts[1..]);
    }
  }

  // ---- every text is such a stream ----

  predicate BlockCloses(s: string)
    decreases |s|
  {
    |s| >= 2 && ((s[0] == '*' && s[1] == '/') || BlockCloses(s[1..]))
  }

  predicate QuoteCloses(open: char, s: string)
    decreases |s|
  {
    s != "" &&
    if s[0] != CloseOf(open) then QuoteCloses(open, s[1..])
    else if Doubles(open) && |s| >= 2 && s[1] == CloseOf(open) then QuoteCloses(open, s[2..])
    else true
  }

  lemma {:induction false} LineBody(s: string)
    ensures var n := LineLength(s); '\n' !in s[..n] && (s[n..] == "" || s[n..][0] == '\n')
  {
    if s != "" && s[0] != '\n' {
      LineBody(s[1..]);
      var n := LineLength(s[1..]);
      assert s[..n + 1] == [s[0]] + s[1..][..n];
      assert s[n + 1..] == s[1..][n..];
    }
  }

  lemma {:induction false} BlockBody(s: string)
    ensures var n := BlockLength(s);
            if BlockCloses(s) then n >= 2 && s[n - 2] == '*' && s[n - 1] == '/' && NoBlockEnd(s[..n - 2])
            else n == |s| && NoBlockEnd(s)
  {
    if |s| >= 2 && !(s[0] == '*' && s[1] == '/') {
      BlockBody(s[1..]);
      var n := BlockLength(s[1..]);
      if BlockCloses(s[1..]) {
        BlockBodyNext(s, n - 1);
      } else {
        assert s[..|s|] == s;
        BlockBodyNext(s, |s|);
      }
    }
  }

  lemma BlockBodyNext(s: string, m: nat)
    requires 1 <= m <= |s| && NoBlockEnd(s[1..][..m - 1])
    requires |s| >= 2 && !(s[0] == '*' && s[1] == '/')
    ensures NoBlockEnd(s[..m])
  {
    forall i | 0 <= i < m - 1 ensures !(s[..m][i] == '*' && s[..m][i + 1] == '/') {
      if i > 0 {
        assert s[1..][..m - 1][i - 1] == s[i] && s[1..][..m - 1][i] == s[i + 1];
      }
    }
  }

  lemma {:induction false} QuoteBody(open: char, s: string)
    ensures var n := QuoteLength(open, s);
            if QuoteCloses(open, s) then
              && n >= 1 && s[n - 1] == CloseOf(open) && QuotedBody(open, s[..n - 1])
              && (Doubles(open) ==> !StartsWith(s[n..], CloseOf(open)))
            else n == |s| && QuotedBody(open, s)
    decreases |s|
  {
    if s != "" {
      if s[0] != CloseOf(open) {
        QuoteBody(open, s[1..]);
        var n := QuoteLength(open, s[1..]);
        assert s[1..][n..] == s[n + 1..];
        if QuoteCloses(open, s[1..]) { assert s[..n][1..] == s[1..][..n - 1]; }
      } else if Doubles(open) && |s| >= 2 && s[1] == CloseOf(open) {
        QuoteBody(open, s[2..]);
        var n := QuoteLength(open, s[2..]);
        assert s[2..][n..] == s[n + 2..];
        if QuoteCloses(open, s[2..]) { assert s[..n + 1][2..] == s[2..][..n - 1]; }
      }
    }
  }

  /** `t` covers the first region of `s`, and is a token where it stands. */
  predicate Covers(s: string, t: Token)
    requires s != ""
  {
    var n := RegionLength(s);
    Text(t) == s[..n] && TokenOk(t, s[n..])
  }

  /** `a + b` cut at `|a| + n`. */
  lemma CutJoin(a: string, b: string, n: nat)
    requires n <= |b|
    ensures (a + b)[..|a| + n] == a + b[..n] && (a + b)[|a| + n..] == b[n..]
  {}

  lemma LineCovers(r: string) returns (t: Token)
    ensures Covers("--" + r, t)
  {
    var s, m := "--" + r, LineLength(r);
    assert s[2..] == r;
    LineSplit(s);
    LineBody(r);
    CutJoin("--", r, m);
    t := Line(r[..m]);
  }

  lemma BlockCovers(r: string) returns (t: Token)
    ensures Covers("/*" + r, t)
  {
    var s, m := "/*" + r, BlockLength(r);
    assert s[2..] == r;
    BlockBody(r);
    CutJoin("/*", r, m);
    if BlockCloses(r) {
      assert r[..m] == r[..m - 2] + "*/";
      t := Block(r[..m - 2], true);
      assert Text(t) == "/*" + r[..m];
    } else {
      assert r[..m] == r;
      t := Block(r, false);
    }
  }

  lemma QuoteCovers(open: char, r: string) returns (t: Token)
    requires IsQuote(open)
    ensures Covers([open] + r, t)
  {
    var s, m := [open] + r, QuoteLength(open, r);
    assert s[1..] == r;
    QuoteBody(open, r);
    CutJoin([open], r, m);
    if QuoteCloses(open, r) {
      assert r[..m] == r[..m - 1] + [CloseOf(open)];
      t := Quoted(open, r[..m - 1], true);
      assert Text(t) == [open] + r[..m];
    } else {
      assert r[..m] == r;
      t := Quoted(open, r, false);
    }
  }

  lemma TextCovers(s: string) returns (t: Token)
    requires s != ""
    ensures Covers(s, t)
  {
    if OpensLine(s) {
      assert s == "--" + s[2..];
      t := LineCovers(s[2..]);
    } else if OpensBlock(s) {
      assert s == "/*" + s[2..];
      t := BlockCovers(s[2..]);
    } else if IsQuote(s[0]) {
      assert s == [s[0]] + s[1..];
      t := QuoteCovers(s[0], s[1..]);
    } else {
      t := Code(s[0]);
    }
  }

  lemma StreamCons(t: Token, ts: seq<Token>)
    requires StreamOk(ts) && TokenOk(t, Render(ts))
    ensures StreamOk([t] + ts) && Render([t] + ts) == Text(t) + Render(ts)
  {
    assert ([t] + ts)[1..] == ts;
  }

  /** Every text, terminated or not, is the rendering of a well-formed stream. */
  lemma {:induction false} EveryTextIsAStream(s: string) returns (ts: seq<Token>)
    ensures StreamOk(ts) && Render(ts) == s
  {
    if s == "" {
      ts := [];
    } else {
      var n := RegionLength(s);
      var t := TextCovers(s);
      var rest := EveryTextIsAStream(s[n..]);
      StreamCons(t, rest);
      assert s == s[..n] + s[n..];
      ts := [t] + rest;
    }
  }

  // ---- consequences ----

  function AsCode(s: string): seq<Token> {
    if s == "" then [] else [Code(s[0])] + AsCode(s[1..])
  }

  lemma {:induction false} CodeRenders(s: string)
    ensures Render(AsCode(s)) == s && Blank(AsCode(s)) == s
  {
    if s != "" {
      CodeRenders(s[1..]);
      assert AsCode(s)[1..] == AsCode(s[1..]);
    }
  }

  /** What is left of a stream is code and nothing else. */
  lemma {:induction false} BlankIsCode(ts: seq<Token>)
    requires StreamOk(ts)
    ensures StreamOk(AsCode(Blank(ts)))
  {
    if ts != [] {
      var rest := Blank(ts[1..]);
      BlankIsCode(ts[1..]);
      CodeRenders(rest);
      assert Blank(ts)[1..] == rest;
      assert AsCode(Blank(ts))[1..] == AsCode(rest);
      if ts[1..] != [] && ts[0].Code? { BlankFirst(ts[1..]); }
    }
  }

  /** The first character of what is left is a space or the first character of the text. */
  lemma BlankFirst(ts: seq<Token>)
    requires ts != []
    ensures Blank(ts)[0] == ' ' || (Render(ts) != "" && Blank(ts)[0] == Render(ts)[0])
  {}

  lemma {:induction false} StripIsIdempotent(s: string)
    ensures Strip(Strip(s)) == Strip(s)
  {
    var ts := EveryTextIsAStream(s);
    StripIsBlank(ts);
    BlankIsCode(ts);
    CodeRenders(Blank(ts));
    StripIsBlank(AsCode(Blank(ts)));
  }

  /** Two streams that differ only in what their comments and quoted regions contain. */
  predicate SameCode(ts: seq<Token>, us: seq<Token>) {
    && |ts| == |us|
    && forall i :: 0 <= i < |ts| ==> (ts[i].Code? || us[i].Code? ==> ts[i] == us[i])
  }

  lemma {:induction false} SameCodeSameBlank(ts: seq<Token>, us: seq<Token>)
    requires SameCode(ts, us)
    ensures Blank(ts) == Blank(us)
  {
    if ts != [] {
      assert ts[0].Code? || us[0].Code? ==> ts[0] == us[0];
      SameCodeSameBlank(ts[1..], us[1..]);
    }
  }

  /** What comments and quoted regions contain does not show in the result. */
  lemma BodiesDoNotShow(ts: seq<Token>, us: seq<Token>)
    requires StreamOk(ts) && StreamOk(us) && SameCode(ts, us)
    ensures Strip(Render(ts)) == Strip(Render(us))
  {
    StripIsBlank(ts);
    StripIsBlank(us);
    SameCodeSameBlank(ts, us);
  }

  // ---- the scanner ----

  method SkipLine(sql: string, from: nat) returns (i: nat)
    requires from <= |sql|
    ensures i == from + LineLength(sql[from..]) <= |sql|
  {
    i := from;
    while i < |sql| && sql[i] != '\n'
      invariant from <= i <= |sql| && i + LineLength(sql[i..]) == from + LineLength(sql[from..])
    {
      assert sql[i..][1..] == sql[i + 1..];
      i := i + 1;
    }
  }

  method SkipBlock(sql: string, from: nat) returns (i: nat)
    requires from <= |sql|
    ensures i == from + BlockLength(sql[from..]) <= |sql|
  {
    i := from;
    while i + 1 < |sql| && !(sql[i] == '*' && sql[i + 1] == '/')
      invariant from <= i <= |sql| && i + BlockLength(sql[i..]) == from + BlockLength(sql[from..])
    {
      assert sql[i..][1..] == sql[i + 1..];
      i := i + 1;
    }
    i := if i + 1 < |sql| then i + 2 else |sql|;
  }

  method SkipQuote(sql: string, open: char, from: nat) returns (i: nat)
    requires from <= |sql|
    ensures i == from + QuoteLength(open, sql[from..]) <= |sql|
  {
    i := from;
    while i < |sql|
      invariant from <= i <= |sql| && i + QuoteLength(open, sql[i..]) == from + QuoteLength(open, sql[from..])
    {
      if sql[i] == CloseOf(open) {
        if Doubles(open) && i + 1 < |sql| && sql[i + 1] == CloseOf(open) {
          assert sql[i..][2..] == sql[i + 2..];
          i := i + 2;
          continue;
        }
        return i + 1;
      }
      assert sql[i..][1..] == sql[i + 1..];
      i := i + 1;
    }
  }

  /** The next region of the text, and what it leaves. */
  method Region(sql: string, from: nat) returns (i: nat, c: char)
    requires from < |sql|
    ensures i == from + RegionLength(sql[from..]) <= |sql|
    ensures c == if IsCode(sql[from..]) then sql[from] else ' '
  {
    i, c := from + 1, sql[from];
    if c == '-' && i < |sql| && sql[i] == '-' {
      i := SkipLine(sql, from);
      c := ' ';
    } else if c == '/' && i < |sql| && sql[i] == '*' {
      assert sql[from..][2..] == sql[from + 2..];
      i := SkipBlock(sql, from + 2);
      c := ' ';
    } else if IsQuote(c) {
      assert sql[from..][1..] == sql[from + 1..];
      i := SkipQuote(sql, c, from + 1);
      c := ' ';
    }
  }

  method StripSqlNoise(sql: string) returns (out: string)
    ensures out == Strip(sql)
  {
    out := "";
    var i: nat := 0;
    ghost var rest, left := sql, Strip(sql);
    while i < |sql|
      invariant i <= |sql| && rest == sql[i..]
      invariant left == Strip(rest) && out + left == Strip(sql)
    {
      var next, c := Region(sql, i);
      StripNext(rest, c);
      assert rest[RegionLength(rest)..] == sql[next..];
      rest := rest[RegionLength(rest)..];
      AppendChar(out, c, Strip(rest));
      left := Strip(rest);
      out, i := out + [c], next;
    }
    assert rest == "" && left == "";
    assert out + "" == out;
  }

  lemma AppendChar(a: string, c: char, b: string)
    ensures a + ([c] + b) == (a + [c]) + b
  {}

  lemma StripNext(s: string, c: char)
    requires s != "" && c == if IsCode(s) then s[0] else ' '
    ensures Strip(s) == [c] + Strip(s[RegionLength(s)..])
  {}
}
