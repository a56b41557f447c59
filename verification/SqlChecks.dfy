/**
  * check_expressions: the bodies of the CHECK constraints of a stripped CREATE TABLE, and the
  * verdict that is drawn from them.
  */
module SqlChecks {
  import opened SqlNoise

  function LowerChar(c: char): char {
    if 'A' <= c <= 'Z' then c - 'A' + 'a' else c
  }

  function Lower(s: string): (r: string)
    ensures |r| == |s|
    ensures forall i :: 0 <= i < |s| ==> r[i] == LowerChar(s[i])
  {
    seq(|s|, i requires 0 <= i < |s| => LowerChar(s[i]))
  }

  predicate IsIdent(c: char) {
    'a' <= c <= 'z' || 'A' <= c <= 'Z' || '0' <= c <= '9' || c == '_' || c == '$'
  }

  predicate IsBlank(c: char) {
    c == ' ' || c == '\t' || c == '\n' || c == '\r'
  }

  /** Without any white space, vertical tab and form feed included. */
  function Collapse(s: string): string {
    if s == "" then ""
    else if IsBlank(s[0]) || s[0] == '\U{000B}' || s[0] == '\U{000C}' then Collapse(s[1..])
    else [s[0]] + Collapse(s[1..])
  }

  // ---- what a CHECK constraint is ----

  const WORD := "check"

  predicate WordAt(s: string, at: nat) {
    at + 5 <= |s| && s[at..at + 5] == WORD
  }

  /** CHECK as a token of its own. */
  predicate WholeWord(s: string, at: nat) {
    && WordAt(s, at)
    && (at == 0 || !IsIdent(s[at - 1]))
    && (at + 5 == |s| || !IsIdent(s[at + 5]))
  }

  function SkipBlanks(s: string, i: nat): (j: nat)
    requires i <= |s|
    ensures i <= j <= |s| && (j < |s| ==> !IsBlank(s[j]))
    ensures forall k :: i <= k < j ==> IsBlank(s[k])
    decreases |s| - i
  {
    if i < |s| && IsBlank(s[i]) then SkipBlanks(s, i + 1) else i
  }

  /** Opening minus closing parentheses in s[from..to]. */
  function Depth(s: string, from: nat, to: nat): int
    requires from <= to <= |s|
  {
    if from == to then 0
    else Depth(s, from, to - 1) + if s[to - 1] == '(' then 1 else if s[to - 1] == ')' then -1 else 0
  }

  /** s[open..end] is a parenthesis together with the one that closes it. */
  predicate Balanced(s: string, open: nat, end: nat) {
    && open < end <= |s| && s[open] == '('
    && Depth(s, open, end) == 0
    && forall q :: open < q < end ==> Depth(s, open, q) > 0
  }

  datatype Span = Span(at: nat, open: nat, end: nat)

  /** A whole-token CHECK followed by a balanced parenthesis. */
  predicate IsCheck(s: string, c: Span) {
    && WholeWord(s, c.at)
    && c.open == SkipBlanks(s, c.at + 5)
    && Balanced(s, c.open, c.end)
  }

  // ---- the scan ----

  datatype Found = Nothing | At(end: nat)

  /** The end of the parenthesis at `open`, looking on from `p`. */
  function Close(s: string, open: nat, p: nat): Found
    requires open <= p <= |s|
    decreases |s| - p
  {
    if p == |s| then Nothing
    else if Depth(s, open, p + 1) == 0 then At(p + 1)
    else Close(s, open, p + 1)
  }

  function BodyEnd(s: string, at: nat): Found
    requires at + 5 <= |s|
  {
    var open := SkipBlanks(s, at + 5);
    if open < |s| && s[open] == '(' then Close(s, open, open) else Nothing
  }

  /** The constraints from position `i` on; the inside of one is not searched again. */
  function Spans(s: string, i: nat): seq<Span>
    decreases |s| - i
  {
    if i + 5 > |s| then []
    else if !WholeWord(s, i) || BodyEnd(s, i).Nothing? then Spans(s, i + 1)
    else
      CloseIsBalanced(s, SkipBlanks(s, i + 5), SkipBlanks(s, i + 5));
      [Span(i, SkipBlanks(s, i + 5), BodyEnd(s, i).end)] + Spans(s, BodyEnd(s, i).end)
  }

  lemma {:induction false} CloseIsBalanced(s: string, open: nat, p: nat)
    requires open <= p <= |s| && (p == open ==> p < |s|) && open < |s| && s[open] == '('
    requires forall q :: open < q <= p ==> Depth(s, open, q) > 0
    ensures match Close(s, open, p)
            case At(end) => Balanced(s, open, end)
            case Nothing => forall q :: open < q <= |s| ==> Depth(s, open, q) > 0
    decreases |s| - p
  {
    if p < |s| && Depth(s, open, p + 1) != 0 {
      assert Depth(s, open, open) == 0;
      assert Depth(s, open, p + 1) >= Depth(s, open, p) - 1;
      CloseIsBalanced(s, open, p + 1);
    }
  }

  lemma BodyEndIs(s: string, at: nat)
    requires at + 5 <= |s|
    ensures var open := SkipBlanks(s, at + 5);
            match BodyEnd(s, at)
            case At(end) => Balanced(s, open, end)
            case Nothing => forall end :: !Balanced(s, open, end)
  {
    var open := SkipBlanks(s, at + 5);
    if open < |s| && s[open] == '(' { CloseIsBalanced(s, open, open); }
  }

  lemma BalancedOnce(s: string, open: nat, end: nat, end': nat)
    requires Balanced(s, open, end) && Balanced(s, open, end')
    ensures end == end'
  {}

  // ---- sound, in order, complete ----

  lemma {:induction false} SpansAreChecks(s: string, i: nat)
    ensures forall c :: c in Spans(s, i) ==> IsCheck(s, c) && i <= c.at
    decreases |s| - i
  {
    if i + 5 <= |s| {
      BodyEndIs(s, i);
      if !WholeWord(s, i) || BodyEnd(s, i).Nothing? { SpansAreChecks(s, i + 1); }
      else { SpansAreChecks(s, BodyEnd(s, i).end); }
    }
  }

  predicate Separate(cs: seq<Span>) {
    forall j, k :: 0 <= j < k < |cs| ==> cs[j].end <= cs[k].at
  }

  lemma {:induction false} SpansAreSeparate(s: string, i: nat)
    ensures Separate(Spans(s, i))
    decreases |s| - i
  {
    if i + 5 <= |s| {
      BodyEndIs(s, i);
      if !WholeWord(s, i) || BodyEnd(s, i).Nothing? {
        SpansAreSeparate(s, i + 1);
      } else {
        var rest := Spans(s, BodyEnd(s, i).end);
        SpansAreSeparate(s, BodyEnd(s, i).end);
        SpansAreChecks(s, BodyEnd(s, i).end);
        forall k | 0 <= k < |rest| ensures BodyEnd(s, i).end <= rest[k].at { assert rest[k] in rest; }
      }
    }
  }

  /** `c` lies inside the body of one of `cs`. */
  predicate Inside(c: Span, cs: seq<Span>) {
    exists k :: 0 <= k < |cs| && cs[k].at < c.at < cs[k].end
  }

  lemma {:induction false} SpansAreAll(s: string, i: nat, c: Span)
    requires IsCheck(s, c) && i <= c.at
    ensures c in Spans(s, i) || Inside(c, Spans(s, i))
    decreases |s| - i
  {
    BodyEndIs(s, i);
    if !WholeWord(s, i) || BodyEnd(s, i).Nothing? {
      SpansAreAll(s, i + 1, c);
    } else {
      var end := BodyEnd(s, i).end;
      var cs := Spans(s, i);
      assert cs[0] == Span(i, SkipBlanks(s, i + 5), end);
      assert cs[1..] == Spans(s, end);
      if c.at == i {
        BalancedOnce(s, c.open, c.end, end);
      } else if c.at >= end {
        SpansAreAll(s, end, c);
        if c !in Spans(s, end) {
          var k :| 0 <= k < |cs[1..]| && cs[1..][k].at < c.at < cs[1..][k].end;
          assert cs[k + 1] == cs[1..][k];
        }
      }
    }
  }

  // ---- the scanner ----

  /** The expression between the parentheses, free of white space. */
  function BodyText(s: string, c: Span): string {
    if c.open + 2 <= c.end <= |s| then Collapse(s[c.open + 1..c.end - 1]) else ""
  }

  function Bodies(s: string, cs: seq<Span>): (r: seq<string>)
    ensures |r| == |cs|
    ensures forall k :: 0 <= k < |cs| ==> r[k] == BodyText(s, cs[k])
  {
    seq(|cs|, k requires 0 <= k < |cs| => BodyText(s, cs[k]))
  }

  lemma BodyIsInside(s: string, c: Span)
    requires IsCheck(s, c)
    ensures c.open + 2 <= c.end <= |s| && s[c.end - 1] == ')'
  {
    assert Depth(s, c.open, c.open) == 0;
    if c.end - 1 > c.open { assert Depth(s, c.open, c.end - 1) > 0; }
  }

  function Expressions(s: string): seq<string> {
    Bodies(s, Spans(s, 0))
  }

  /** Every expression is the balanced body of a whole-token CHECK, and every such CHECK that
      does not lie inside another one's body is among them. */
  lemma ExpressionsAreBodies(s: string)
    ensures forall e :: e in Expressions(s) ==>
              exists c :: IsCheck(s, c) && c in Spans(s, 0) && e == BodyText(s, c)
    ensures forall c :: IsCheck(s, c) ==> BodyText(s, c) in Expressions(s) || Inside(c, Spans(s, 0))
  {
    var cs := Spans(s, 0);
    forall e | e in Expressions(s) ensures exists c :: IsCheck(s, c) && c in cs && e == BodyText(s, c) {
      var k :| 0 <= k < |cs| && Bodies(s, cs)[k] == e;
      SpansAreChecks(s, 0);
      assert IsCheck(s, cs[k]) && cs[k] in cs && e == BodyText(s, cs[k]);
    }
    forall c | IsCheck(s, c) ensures BodyText(s, c) in Expressions(s) || Inside(c, cs) {
      SpansAreAll(s, 0, c);
      if c in cs {
        var k :| 0 <= k < |cs| && cs[k] == c;
        assert Bodies(s, cs)[k] == BodyText(s, c);
      }
    }
  }

  method FindWord(s: string, from: nat) returns (found: bool, at: nat)
    requires from <= |s|
    ensures found ==> from <= at && WordAt(s, at)
    ensures forall k :: from <= k && (found ==> k < at) ==> !WordAt(s, k)
  {
    at := from;
    while at + 5 <= |s|
      invariant from <= at && forall k :: from <= k < at ==> !WordAt(s, k)
    {
      if s[at..at + 5] == WORD { return true, at; }
      at := at + 1;
    }
    found := false;
  }

  /** No word, nothing found. */
  lemma {:induction false} NoWords(s: string, i: nat, j: nat)
    requires i <= j && forall k :: i <= k < j ==> !WordAt(s, k)
    ensures Spans(s, i) == Spans(s, j)
    decreases j - i
  {
    if i < j {
      assert !WordAt(s, i);
      NoWords(s, i + 1, j);
    }
  }

  lemma WordChars(s: string, k: nat)
    ensures WordAt(s, k) ==>
              s[k] == 'c' && s[k + 1] == 'h' && s[k + 2] == 'e' && s[k + 3] == 'c' && s[k + 4] == 'k'
  {
    if WordAt(s, k) {
      var w := s[k..k + 5];
      assert w[0] == s[k] && w[1] == s[k + 1] && w[2] == s[k + 2] && w[3] == s[k + 3] && w[4] == s[k + 4];
    }
  }

  /** The word does not overlap itself. */
  lemma NoOverlap(s: string, at: nat)
    requires WordAt(s, at)
    ensures forall k :: at < k < at + 5 ==> !WordAt(s, k)
  {
    WordChars(s, at);
    forall k | at < k < at + 5 ensures !WordAt(s, k) { WordChars(s, k); }
  }

  /** A word that is no constraint is passed over whole. */
  lemma WordPassed(s: string, at: nat)
    requires WordAt(s, at) && (!WholeWord(s, at) || BodyEnd(s, at).Nothing?)
    ensures Spans(s, at) == Spans(s, at + 5)
  {
    NoOverlap(s, at);
    NoWords(s, at + 1, at + 5);
  }

  method SkipSpace(s: string, from: nat) returns (p: nat)
    requires from <= |s|
    ensures p == SkipBlanks(s, from)
  {
    p := from;
    while p < |s| && IsBlank(s[p])
      invariant from <= p <= |s| && SkipBlanks(s, p) == SkipBlanks(s, from)
    {
      p := p + 1;
    }
  }

  method FindClose(s: string, open: nat) returns (found: bool, p: nat)
    requires open < |s|
    ensures match Close(s, open, open)
            case At(end) => found && p == end
            case Nothing => !found
  {
    var depth := 0;
    p := open;
    while p < |s|
      invariant open <= p <= |s| && depth == Depth(s, open, p) && Close(s, open, p) == Close(s, open, open)
    {
      depth := depth + if s[p] == '(' then 1 else if s[p] == ')' then -1 else 0;
      p := p + 1;
      if depth == 0 { return true, p; }
    }
    found := false;
  }

  lemma BodiesNext(s: string, cs: seq<Span>, c: Span)
    ensures Bodies(s, cs + [c]) == Bodies(s, cs) + [BodyText(s, c)]
  {}

  lemma SpansNext(done: seq<Span>, c: Span, rest: seq<Span>)
    ensures done + ([c] + rest) == (done + [c]) + rest
  {}

  /** One occurrence of the word, as the loop of the scanner treats it. */
  method TakeWord(s: string, at: nat) returns (taken: bool, next: nat, c: Span)
    requires WordAt(s, at)
    ensures at + 5 <= next <= |s|
    ensures taken ==> IsCheck(s, c) && next == c.end && Spans(s, at) == [c] + Spans(s, next)
    ensures !taken ==> Spans(s, at) == Spans(s, next)
  {
    next, taken, c := at + 5, false, Span(at, at, at);
    if (at > 0 && IsIdent(s[at - 1])) || (next < |s| && IsIdent(s[next])) {
      WordPassed(s, at);
      return;
    }
    BodyEndIs(s, at);
    var p := SkipSpace(s, next);
    if p >= |s| || s[p] != '(' {
      WordPassed(s, at);
      return;
    }
    var closed, end := FindClose(s, p);
    if !closed {
      WordPassed(s, at);
      return;
    }
    c := Span(at, p, end);
    taken, next := true, end;
  }

  method CheckExpressions(ddl: string) returns (found: seq<string>)
    ensures found == Expressions(Lower(ddl))
  {
    var s := Lower(ddl);
    var i: nat := 0;
    found := [];
    ghost var done: seq<Span>, rest, all := [], Spans(s, 0), Spans(s, 0);
    while true
      invariant i <= |s| && rest == Spans(s, i)
      invariant done + rest == all && found == Bodies(s, done)
      decreases |s| - i
    {
      var more, at := FindWord(s, i);
      if !more {
        NoWords(s, i, |s|);
        assert done == all;
        return;
      }
      NoWords(s, i, at);
      var taken, next, c := TakeWord(s, at);
      if taken {
        BodyIsInside(s, c);
        BodiesNext(s, done, c);
        rest := Spans(s, next);
        SpansNext(done, c, rest);
        found := found + [Collapse(s[c.open + 1..c.end - 1])];
        done := done + [c];
      }
      i := next;
    }
  }

  // ---- the verdict ----

  /** The constraint that event_id is not empty, in one of its two spellings. */
  predicate Required(expression: string) {
    expression == "length(event_id)>0" || expression == "0<length(event_id)"
  }

  /** The stripped text carries the constraint. */
  predicate Satisfied(ddl: string) {
    exists e :: e in Expressions(Lower(ddl)) && Required(e)
  }

  method ValidateEventsCheck(sql: string) returns (ok: bool)
    ensures ok <==> Satisfied(Strip(sql))
  {
    var ddl := StripSqlNoise(sql);
    var checks := CheckExpressions(ddl);
    ok := AnyRequired(checks);
  }

  method AnyRequired(checks: seq<string>) returns (ok: bool)
    ensures ok <==> exists e :: e in checks && Required(e)
  {
    for k := 0 to |checks|
      invariant forall j :: 0 <= j < k ==> !Required(checks[j])
    {
      if Required(checks[k]) { return true; }
    }
    ok := false;
  }

  /** What comments and quoted regions contain cannot change the verdict. */
  lemma VerdictIgnoresBodies(ts: seq<Token>, us: seq<Token>)
    requires StreamOk(ts) && StreamOk(us) && SameCode(ts, us)
    ensures Satisfied(Strip(Render(ts))) <==> Satisfied(Strip(Render(us)))
  {
    BodiesDoNotShow(ts, us);
  }

  lemma {:induction false} BlankAt(ts: seq<Token>, k: nat)
    requires k < |ts|
    ensures |Blank(ts)| == |ts| && Blank(ts)[k] == if ts[k].Code? then ts[k].c else ' '
  {
    if k > 0 { BlankAt(ts[1..], k - 1); } else if |ts| > 1 { BlankAt(ts[1..], 0); }
  }

  lemma BlankAll(ts: seq<Token>)
    ensures |Blank(ts)| == |ts|
    ensures forall k :: 0 <= k < |ts| ==> Blank(ts)[k] == if ts[k].Code? then ts[k].c else ' '
  {
    if ts != [] { BlankAt(ts, 0); }
    forall k | 0 <= k < |ts| ensures Blank(ts)[k] == if ts[k].Code? then ts[k].c else ' ' { BlankAt(ts, k); }
  }

  /** `t` is the code character `c`, in either case. */
  predicate IsLetter(t: Token, c: char) {
    t.Code? && LowerChar(t.c) == c
  }

  predicate SpellsCheck(ts: seq<Token>, at: nat) {
    && at + 5 <= |ts|
    && IsLetter(ts[at], 'c') && IsLetter(ts[at + 1], 'h') && IsLetter(ts[at + 2], 'e')
    && IsLetter(ts[at + 3], 'c') && IsLetter(ts[at + 4], 'k')
  }

  lemma LetterIsCode(ts: seq<Token>, ddl: string, k: nat, c: char)
    requires k < |ts| == |ddl| && ddl[k] == (if ts[k].Code? then ts[k].c else ' ')
    requires c != ' ' && Lower(ddl)[k] == c
    ensures IsLetter(ts[k], c)
  {}

  lemma WordIsCode(ts: seq<Token>, ddl: string, at: nat)
    requires |ts| == |ddl| && forall k :: 0 <= k < |ts| ==> ddl[k] == if ts[k].Code? then ts[k].c else ' '
    requires WordAt(Lower(ddl), at)
    ensures SpellsCheck(ts, at)
  {
    WordChars(Lower(ddl), at);
    LetterIsCode(ts, ddl, at, 'c');
    LetterIsCode(ts, ddl, at + 1, 'h');
    LetterIsCode(ts, ddl, at + 2, 'e');
    LetterIsCode(ts, ddl, at + 3, 'c');
    LetterIsCode(ts, ddl, at + 4, 'k');
  }

  lemma FindRequired(s: string) returns (c: Span)
    requires exists e :: e in Expressions(s) && Required(e)
    ensures IsCheck(s, c) && Required(BodyText(s, c))
  {
    ExpressionsAreBodies(s);
    var e :| e in Expressions(s) && Required(e);
    c :| IsCheck(s, c) && c in Spans(s, 0) && e == BodyText(s, c);
  }

  /** A constraint is only ever found where the word CHECK stands in the code itself, never in
      a comment, a literal or a quoted name. */
  lemma ConstraintIsCode(ts: seq<Token>) returns (c: Span)
    requires StreamOk(ts) && Satisfied(Strip(Render(ts)))
    ensures SpellsCheck(ts, c.at)
    ensures IsCheck(Lower(Blank(ts)), c) && Required(BodyText(Lower(Blank(ts)), c))
  {
    StripIsBlank(ts);
    c := FindRequired(Lower(Blank(ts)));
    BlankAll(ts);
    WordIsCode(ts, Blank(ts), c.at);
  }
}
