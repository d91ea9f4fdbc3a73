/** Actor paths: token sequences parsed from and printed as slash-separated
    strings. Ancestry is decided on the printed strings.
 */
module Paths {

  /** Unicode white space, as `trim` removes it. */
  predicate IsWhitespace(c: char) {
    || '\U{9}' <= c <= '\U{D}' || c == ' ' || c == '\U{85}' || c == '\U{A0}' || c == '\U{1680}'
    || '\U{2000}' <= c <= '\U{200A}' || c == '\U{2028}' || c == '\U{2029}' || c == '\U{202F}'
    || c == '\U{205F}' || c == '\U{3000}'
  }

  /** `trim().is_empty()` */
  predicate IsBlank(s: string) {
    forall c | c in s :: IsWhitespace(c)
  }

  /** `split('/')` */
  function Split(s: string): (r: seq<string>)
    ensures |r| > 0
  {
    if s == [] then [[]]
    else
      var r := Split(s[1..]);
      if s[0] == '/' then [[]] + r else [[s[0]] + r[0]] + r[1..]
  }

  /** `filter(|x| !x.trim().is_empty())` */
  function NonBlank(ts: seq<string>): seq<string> {
    if ts == [] then [] else (if IsBlank(ts[0]) then [] else [ts[0]]) + NonBlank(ts[1..])
  }

  function TokensOf(s: string): seq<string> { NonBlank(Split(s)) }

  /** `join("/")` */
  function Join(ts: seq<string>): string {
    if ts == [] then [] else if |ts| == 1 then ts[0] else Join(ts[..|ts| - 1]) + "/" + ts[|ts| - 1]
  }

  datatype ActorPath = ActorPath(tokens: seq<string>) {

    static function Parse(s: string): ActorPath { ActorPath(TokensOf(s)) }

    /** `path / name` */
    function Div(rhs: string): ActorPath { ActorPath(tokens + TokensOf(rhs)) }

    function Display(): string {
      if |tokens| < 1 then "/" else if |tokens| == 1 then "/" + tokens[0] else "/" + Join(tokens)
    }

    function Level(): nat { |tokens| }

    function Root(): ActorPath {
      if |tokens| == 1 then this else if tokens != [] then ActorPath(tokens[..1]) else ActorPath([])
    }

    function Parent(): ActorPath {
      if |tokens| > 1 then ActorPath(tokens[..|tokens| - 1]) else ActorPath([])
    }

    function Key(): string {
      if tokens == [] then [] else tokens[|tokens| - 1]
    }

    function AtLevel(level: nat): ActorPath {
      if level < 1 || level >= Level() then this
      else if level == Level() - 1 then Parent()
      else ActorPath(tokens[..level])
    }

    predicate IsAncestorOf(other: ActorPath) { Display() + "/" <= other.Display() }

    predicate IsDescendantOf(other: ActorPath) { other.Display() + "/" <= Display() }

    predicate IsParentOf(other: ActorPath) { this == other.Parent() }

    predicate IsChildOf(other: ActorPath) { Parent() == other }

    /** Every token is printable between slashes and survives the parser. */
    ghost predicate WellFormed() { forall t | t in tokens :: IsToken(t) }
  }

  predicate IsToken(t: string) { '/' !in t && !IsBlank(t) }

  // ---------- splitting ----------

  lemma TailConcat<T>(a: seq<T>, b: seq<T>)
    requires a != []
    ensures (a + b)[0] == a[0] && (a + b)[1..] == a[1..] + b
  {
  }

  lemma Associative<T>(a: seq<T>, b: seq<T>, c: seq<T>)
    ensures a + (b + c) == (a + b) + c
  {
  }

  lemma {:induction false} SplitConcat(s: string, t: string)
    ensures Split(s + "/" + t) == Split(s) + Split(t)
  {
    var all := s + ("/" + t);
    Associative(s, "/", t);
    if s == [] {
      assert all[1..] == t;
    } else {
      SplitConcat(s[1..], t);
      TailConcat(s, "/" + t);
      Associative(s[1..], "/", t);
      var r, u := Split(s[1..]), Split(t);
      TailConcat(r, u);
      if s[0] == '/' {
        Associative([[]], r, u);
      } else {
        Associative([[s[0]] + r[0]], r[1..], u);
      }
    }
  }

  lemma {:induction false} NonBlankConcat(a: seq<string>, b: seq<string>)
    ensures NonBlank(a + b) == NonBlank(a) + NonBlank(b)
  {
    hide IsBlank;
    if a == [] {
      assert a + b == b;
    } else {
      NonBlankConcat(a[1..], b);
      TailConcat(a, b);
      Associative(if IsBlank(a[0]) then [] else [a[0]], NonBlank(a[1..]), NonBlank(b));
    }
  }

  lemma TokensConcat(s: string, t: string)
    ensures TokensOf(s + "/" + t) == TokensOf(s) + TokensOf(t)
  {
    SplitConcat(s, t);
    NonBlankConcat(Split(s), Split(t));
  }

  lemma {:induction false} SplitPieces(s: string)
    ensures forall t | t in Split(s) :: '/' !in t
  {
    if s != [] {
      SplitPieces(s[1..]);
      assert Split(s[1..])[0] in Split(s[1..]);
    }
  }

  lemma {:induction false} NonBlankTokens(ts: seq<string>)
    requires forall t | t in ts :: '/' !in t
    ensures forall t | t in NonBlank(ts) :: IsToken(t)
  {
    if ts != [] {
      NonBlankTokens(ts[1..]);
    }
  }

  lemma TokensAreTokens(s: string)
    ensures forall t | t in TokensOf(s) :: IsToken(t)
  {
    SplitPieces(s);
    NonBlankTokens(Split(s));
  }

  lemma {:induction false} SplitToken(t: string)
    requires '/' !in t
    ensures Split(t) == [t]
  {
    if t != [] {
      SplitToken(t[1..]);
      assert t == [t[0]] + t[1..];
    }
  }

  lemma TokenParses(t: string)
    requires IsToken(t)
    ensures TokensOf(t) == [t]
  {
    SplitToken(t);
    assert NonBlank([t]) == [t] + NonBlank([t][1..]);
  }

  lemma BlankParses(s: string)
    requires IsBlank(s)
    ensures TokensOf(s) == []
  {
    assert '/' !in s;
    SplitToken(s);
    assert [s][1..] == [];
  }

  // ---------- printing ----------

  /** The printed form of a non-empty path: a slash before every token. */
  function Render(ts: seq<string>): string {
    if ts == [] then [] else Render(ts[..|ts| - 1]) + "/" + ts[|ts| - 1]
  }

  lemma {:induction false} JoinIsRender(ts: seq<string>)
    requires ts != []
    ensures "/" + Join(ts) == Render(ts)
  {
    if |ts| > 1 {
      JoinIsRender(ts[..|ts| - 1]);
    } else {
      assert ts[..0] == [];
    }
  }

  lemma DisplayIsRender(p: ActorPath)
    ensures p.Display() == if p.tokens == [] then "/" else Render(p.tokens)
  {
    if p.tokens != [] {
      JoinIsRender(p.tokens);
    }
  }

  lemma {:induction false} RenderConcat(a: seq<string>, b: seq<string>)
    ensures Render(a + b) == Render(a) + Render(b)
  {
    if b == [] {
      assert a + b == a;
    } else {
      RenderConcat(a, b[..|b| - 1]);
      assert (a + b)[..|a + b| - 1] == a + b[..|b| - 1];
    }
  }

  lemma {:induction false} RenderParses(ts: seq<string>)
    requires forall t | t in ts :: IsToken(t)
    ensures TokensOf(Render(ts)) == ts
  {
    if ts == [] {
      BlankParses([]);
    } else {
      var front, last := ts[..|ts| - 1], ts[|ts| - 1];
      RenderParses(front);
      TokensConcat(Render(front), last);
      TokenParses(last);
    }
  }

  // ---------- round trips ----------

  /** Every operation that builds a path builds a well-formed one. */
  lemma BuildersWellFormed(s: string, p: ActorPath, name: string, level: nat)
    requires p.WellFormed()
    ensures ActorPath.Parse(s).WellFormed() && p.Div(name).WellFormed()
    ensures p.Root().WellFormed() && p.Parent().WellFormed() && p.AtLevel(level).WellFormed()
  {
    TokensAreTokens(s);
    TokensAreTokens(name);
  }

  /** Parsing the printed form gives the path back. */
  lemma ParseDisplay(p: ActorPath)
    requires p.WellFormed()
    ensures ActorPath.Parse(p.Display()) == p
  {
    DisplayIsRender(p);
    RenderParses(p.tokens);
    if p.tokens == [] {
      TokensConcat([], []);
      BlankParses([]);
      assert [] + "/" + [] == "/";
    }
  }

  /** Printing a parsed string is a normal form of it. */
  lemma NormalForm(s: string)
    ensures var n := ActorPath.Parse(s).Display();
            ActorPath.Parse(n) == ActorPath.Parse(s) && ActorPath.Parse(n).Display() == n
  {
    TokensAreTokens(s);
    ParseDisplay(ActorPath.Parse(s));
  }

  /** Two well-formed paths print alike only if they are equal. */
  lemma DisplayInjective(p: ActorPath, q: ActorPath)
    requires p.WellFormed() && q.WellFormed()
    ensures p.Display() == q.Display() <==> p == q
  {
    ParseDisplay(p);
    ParseDisplay(q);
  }

  /** Dividing is parsing the strings joined by a slash. */
  lemma DivIsConcat(s: string, t: string)
    ensures ActorPath.Parse(s).Div(t) == ActorPath.Parse(s + "/" + t)
  {
    TokensConcat(s, t);
  }

  /** A name makes a direct child exactly when it is a single token. */
  lemma ChildExact(p: ActorPath, name: string)
    requires p.tokens != []
    ensures p.IsParentOf(p.Div(name)) <==> |TokensOf(name)| == 1
    ensures p.Div(name).IsChildOf(p) <==> |TokensOf(name)| == 1
    ensures |TokensOf(name)| == 1 ==> p.Div(p.Div(name).Key()) == p.Div(name)
  {
    hide TokensOf, IsToken;
    var q := p.Div(name);
    var ts := TokensOf(name);
    if |ts| == 1 {
      assert q.tokens[..|q.tokens| - 1] == p.tokens;
      TokensAreTokens(name);
      TokenParses(ts[0]);
    }
  }

  // ---------- what the operations mean ----------

  /** A slash, or a character with the White_Space property of Unicode. */
  predicate SlashOrSpace(c: char) {
    c as int in {0x2F, 0x9, 0xA, 0xB, 0xC, 0xD, 0x20, 0x85, 0xA0, 0x1680, 0x2000, 0x2001, 0x2002, 0x2003, 0x2004,
                 0x2005, 0x2006, 0x2007, 0x2008, 0x2009, 0x200A, 0x2028, 0x2029, 0x202F, 0x205F, 0x3000}
  }

  /** A string denotes the empty path exactly when it consists of slashes and white
      space. */
  lemma {:induction false} EmptyExact(s: string)
    ensures ActorPath.Parse(s) == ActorPath([]) <==> forall c | c in s :: SlashOrSpace(c)
    decreases |s|
  {
    if i :| 0 <= i < |s| && s[i] == '/' {
      assert s == s[..i] + "/" + s[i + 1..];
      TokensConcat(s[..i], s[i + 1..]);
      EmptyExact(s[..i]);
      EmptyExact(s[i + 1..]);
      assert SlashOrSpace('/');
      forall c ensures c in s <==> c in s[..i] || c == '/' || c in s[i + 1..] {
      }
    } else {
      SplitToken(s);
      assert NonBlank([s]) == (if IsBlank(s) then [] else [s]) + NonBlank([s][1..]);
      forall c | c in s ensures SlashOrSpace(c) <==> IsWhitespace(c) {
      }
    }
  }

  /** What is printed grows by a slash and the name with each child. */
  lemma DisplayChild(p: ActorPath, name: string)
    requires IsToken(name)
    ensures ActorPath([]).Display() == "/" && ActorPath([]).Div(name).Display() == "/" + name
    ensures p.tokens != [] ==> p.Div(name).Display() == p.Display() + "/" + name
  {
    TokenParses(name);
    DisplayIsRender(p);
    DisplayIsRender(p.Div(name));
    assert [name] == [] + [name];
    assert p.Div(name).tokens[..|p.tokens|] == p.tokens;
  }

  /** A path is its parent divided by its key, and a parent is what a child's last
      token is added to; the empty path counts as its own parent. */
  lemma ParentExact(p: ActorPath, q: ActorPath)
    requires q.WellFormed()
    ensures q.tokens != [] ==> q.Parent().Div(q.Key()) == q && IsToken(q.Key())
    ensures p.IsParentOf(q) <==> q.IsChildOf(p)
    ensures p.IsParentOf(q) <==>
            (exists name :: IsToken(name) && q.tokens == p.tokens + [name]) || (p == q && p.tokens == [])
  {
    hide IsToken, TokensOf;
    if q.tokens != [] {
      assert q.Key() in q.tokens;
      TokenParses(q.Key());
      assert q.tokens == q.Parent().tokens + [q.Key()];
    }
    if name :| IsToken(name) && q.tokens == p.tokens + [name] {
      assert q.tokens[..|q.tokens| - 1] == p.tokens;
    }
  }

  /** The ancestor at a level is the only one there, and at any other level the
      path answers itself; the root is the one at level one. */
  lemma AtLevelExact(p: ActorPath, level: nat, a: ActorPath)
    requires p.WellFormed() && a.WellFormed()
    ensures 1 <= level < p.Level() ==> p.AtLevel(level).IsAncestorOf(p) && p.AtLevel(level).Level() == level
    ensures a.IsAncestorOf(p) && a.Level() == level ==> p.AtLevel(level) == a
    ensures level < 1 || level >= p.Level() ==> p.AtLevel(level) == p
    ensures p.tokens == [] ==> p.Root() == p
    ensures p.tokens != [] ==> p.Root().Level() == 1 && (p.Root() == p || p.Root().IsAncestorOf(p))
  {
    BuildersWellFormed([], p, [], level);
    AncestorExact(a, p);
    AncestorExact(p.AtLevel(level), p);
    AncestorExact(p.Root(), p);
  }

  // ---------- ancestry ----------

  /** One path's tokens are a proper prefix of the other's. */
  predicate ProperPrefix(a: ActorPath, b: ActorPath) {
    |a.tokens| < |b.tokens| && a.tokens == b.tokens[..|a.tokens|]
  }

  /** A non-empty rendering is a slash, the first token, and the rest. */
  lemma RenderHead(ts: seq<string>)
    requires ts != []
    ensures Render(ts) == "/" + (ts[0] + Render(ts[1..]))
  {
    assert ts == ts[..1] + ts[1..];
    RenderConcat(ts[..1], ts[1..]);
    assert ts[..1][..0] == [];
    assert Render(ts[..1]) == "/" + ts[0];
  }

  lemma RenderExtends(a: seq<string>, b: seq<string>)
    requires |a| < |b| && a == b[..|a|]
    ensures Render(a) + "/" <= Render(b)
  {
    hide Render;
    var rest := b[|a|..];
    assert b == a + rest;
    RenderConcat(a, rest);
    RenderHead(rest);
    Regroup(Render(a), rest[0] + Render(rest[1..]));
  }

  lemma Regroup(s: string, t: string)
    ensures s + "/" <= s + ("/" + t)
  {
  }

  lemma Remainder(s: string, t: string) returns (x: string)
    requires s <= t
    ensures t == s + x
  {
    x := t[|s|..];
  }

  lemma ExtendsRender(a: seq<string>, b: seq<string>)
    requires forall t | t in a :: IsToken(t)
    requires forall t | t in b :: IsToken(t)
    requires Render(a) + "/" <= Render(b)
    ensures |a| < |b| && a == b[..|a|]
  {
    hide Render, TokensOf, IsToken;
    var x := Remainder(Render(a) + "/", Render(b));
    TokensConcat(Render(a), x);
    RenderParses(a);
    RenderParses(b);
    assert b == a + TokensOf(x);
    assert |Render(b)| > |Render(a)|;
    assert b != a;
  }

  lemma NoDoubleSlash(b: seq<string>)
    requires b != [] && forall t | t in b :: IsToken(t)
    ensures !("//" <= Render(b))
  {
    hide Render;
    RenderHead(b);
    assert IsToken(b[0]) && b[0] != [];
    assert Render(b)[1] == b[0][0];
    assert b[0][0] in b[0];
  }

  /** Ancestry by strings is ancestry by tokens, for all well-formed paths; the
      empty path, printed as a lone slash, is an ancestor of none. */
  lemma AncestorExact(a: ActorPath, b: ActorPath)
    requires a.WellFormed() && b.WellFormed()
    ensures a.IsAncestorOf(b) <==> a.tokens != [] && ProperPrefix(a, b)
    ensures a.IsAncestorOf(b) <==> b.IsDescendantOf(a)
    ensures a.tokens != [] ==> (a.IsAncestorOf(b) <==> a.Level() < b.Level() && b.AtLevel(a.Level()) == a)
  {
    DisplayIsRender(a);
    DisplayIsRender(b);
    if a.tokens == [] {
      assert a.Display() + "/" == "//";
      if b.tokens != [] {
        NoDoubleSlash(b.tokens);
      }
    } else if b.tokens == [] {
      NonEmptyRender(a.tokens);
    } else {
      if ProperPrefix(a, b) {
        RenderExtends(a.tokens, b.tokens);
      }
      if a.IsAncestorOf(b) {
        ExtendsRender(a.tokens, b.tokens);
      }
    }
  }

  lemma NonEmptyRender(a: seq<string>)
    requires a != []
    ensures |Render(a)| >= 1
  {
  }

  /** A parent is an ancestor, and ancestors of ancestors are ancestors. */
  lemma AncestorOrder(a: ActorPath, b: ActorPath, c: ActorPath)
    requires a.WellFormed() && b.WellFormed() && c.WellFormed()
    ensures a.IsAncestorOf(b) && b.IsAncestorOf(c) ==> a.IsAncestorOf(c)
    ensures a.tokens != [] && b.tokens != [] && a.IsParentOf(b) ==> a.IsAncestorOf(b)
    ensures a.IsAncestorOf(c) && b.IsAncestorOf(c) ==> a == b || a.IsAncestorOf(b) || b.IsAncestorOf(a)
  {
    AncestorExact(a, b);
    AncestorExact(b, c);
    AncestorExact(a, c);
    AncestorExact(b, a);
    if |a.tokens| <= |b.tokens| <= |c.tokens| && b.tokens == c.tokens[..|b.tokens|] {
      assert c.tokens[..|b.tokens|][..|a.tokens|] == c.tokens[..|a.tokens|];
    }
    if |b.tokens| <= |a.tokens| <= |c.tokens| && a.tokens == c.tokens[..|a.tokens|] {
      assert c.tokens[..|a.tokens|][..|b.tokens|] == c.tokens[..|b.tokens|];
    }
  }
}
