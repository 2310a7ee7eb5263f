/** The Nginx configuration reader: tokenizer, scope parser, a printer they undo, and the managed upstream file. */
module Nginx {
  import opened Limits
  import opened Sequences
  import opened Wrappers

  /** A directive, or a scope with its header. */
  datatype Node = Directive(header: seq<string>) | Block(header: seq<string>, children: seq<Node>)

  const STRUCTURAL: set<string> := {"{", "}", ";"}

  // ---------------------------------------------------------------- tokens

  /** `str.isspace` of one character. */
  predicate IsSpace(c: char) {
    || '\t' <= c <= '\r' || '\U{1c}' <= c <= ' ' || c == '\U{85}' || c == '\U{a0}' || c == '\U{1680}'
    || '\U{2000}' <= c <= '\U{200a}' || c == '\U{2028}' || c == '\U{2029}' || c == '\U{202f}' || c == '\U{205f}' || c == '\U{3000}'
  }

  /** The variables of the scan. */
  datatype Lexer = Lexer(tokens: seq<string>, current: string, quote: Option<char>, escaped: bool, comment: bool)

  const START := Lexer([], "", None, false, false)

  function Flush(l: Lexer): Lexer {
    if l.current == "" then l else l.(tokens := l.tokens + [l.current], current := "")
  }

  /** One character of the scan. */
  function Step(l: Lexer, c: char): Lexer {
    if l.comment then if c == '\r' || c == '\n' then l.(comment := false) else l
    else if l.escaped then l.(current := l.current + [c], escaped := false)
    else if c == '\\' then l.(escaped := true)
    else if l.quote.Some? then if c == l.quote.value then l.(quote := None) else l.(current := l.current + [c])
    else if c == '"' || c == '\'' then l.(quote := Some(c))
    else if c == '#' then Flush(l).(comment := true)
    else if IsSpace(c) then Flush(l)
    else if c == '{' || c == '}' || c == ';' then var f := Flush(l); f.(tokens := f.tokens + [[c]])
    else l.(current := l.current + [c])
  }

  function Run(l: Lexer, text: string): Lexer
    decreases |text|
  {
    if text == [] then l else Run(Step(l, text[0]), text[1..])
  }

  function Tokens(text: string): Result<seq<string>> {
    var l := Run(START, text);
    if l.quote.Some? || l.escaped then Err else Ok(Flush(l).tokens)
  }

  lemma {:induction false} RunAppend(l: Lexer, a: string, b: string)
    ensures Run(l, a + b) == Run(Run(l, a), b)
    decreases |a|
  {
    if a == [] {
      assert a + b == b;
    } else {
      assert (a + b)[1..] == a[1..] + b;
      RunAppend(Step(l, a[0]), a[1..], b);
    }
  }

  lemma RunOne(l: Lexer, c: char)
    ensures Run(l, [c]) == Step(l, c)
  {
    assert [c][1..] == [];
  }

  /** `_tokenize_nginx_configuration` */
  method Tokenize(text: string) returns (r: Result<seq<string>>)
    ensures r == Tokens(text)
  {
    var tokens: seq<string>, current: string, quote: Option<char>, escaped, comment := [], "", None, false, false;
    var i := 0;
    while i < |text|
      invariant 0 <= i <= |text|
      invariant Lexer(tokens, current, quote, escaped, comment) == Run(START, text[..i])
    {
      var c := text[i];
      assert text[..i + 1] == text[..i] + [c];
      RunAppend(START, text[..i], [c]);
      RunOne(Run(START, text[..i]), c);
      i := i + 1;
      if comment {
        if c == '\r' || c == '\n' { comment := false; }
        continue;
      }
      if escaped {
        current, escaped := current + [c], false;
        continue;
      }
      if c == '\\' {
        escaped := true;
        continue;
      }
      if quote.Some? {
        if c == quote.value { quote := None; } else { current := current + [c]; }
        continue;
      }
      if c == '"' || c == '\'' {
        quote := Some(c);
        continue;
      }
      if c == '#' || IsSpace(c) || c == '{' || c == '}' || c == ';' {
        if current != "" { tokens, current := tokens + [current], ""; }
        if c == '#' { comment := true; } else if !IsSpace(c) { tokens := tokens + [[c]]; }
        continue;
      }
      current := current + [c];
    }
    assert text[..i] == text;
    if quote.Some? || escaped { return Err; }
    if current != "" { tokens := tokens + [current]; }
    return Ok(tokens);
  }

  // ---------------------------------------------------------------- scopes

  datatype Parsed = Parsed(nodes: seq<Node>, rest: seq<string>)

  /** What a scope reads, given the nodes and the header words read so far. */
  function Scope(tokens: seq<string>, nodes: seq<Node>, header: seq<string>, nested: bool): (r: Result<Parsed>)
    ensures r.Ok? ==> |r.value.rest| <= |tokens| && (nested ==> |r.value.rest| < |tokens|)
    decreases |tokens|
  {
    if tokens == [] then if nested then Err else Ok(Parsed(nodes, []))
    else if tokens[0] == ";" then
      Scope(tokens[1..], if header == [] then nodes else nodes + [Directive(header)], [], nested)
    else if tokens[0] == "{" then
      if header == [] then Err
      else
        var inner := Scope(tokens[1..], [], [], true);
        if inner.Err? then Err
        else Scope(inner.value.rest, nodes + [Block(header, inner.value.nodes)], [], nested)
    else if tokens[0] == "}" then
      if !nested || header != [] then Err else Ok(Parsed(nodes, tokens[1..]))
    else Scope(tokens[1..], nodes, header + [tokens[0]], nested)
  }

  function Parse(text: string): Result<seq<Node>> {
    var tokens := Tokens(text);
    if tokens.Err? then Err
    else
      var r := Scope(tokens.value, [], [], false);
      if r.Err? then Err else Ok(r.value.nodes)
  }

  /** `parse_scope` */
  method ParseScope(tokens: seq<string>, start: nat, nested: bool) returns (r: Result<(seq<Node>, nat)>)
    requires start <= |tokens|
    ensures r.Ok? <==> Scope(tokens[start..], [], [], nested).Ok?
    ensures r.Ok? ==> start <= r.value.1 <= |tokens| && Scope(tokens[start..], [], [], nested).value == Parsed(r.value.0, tokens[r.value.1..])
    decreases |tokens| - start
  {
    var nodes: seq<Node>, header: seq<string>, index := [], [], start;
    while index < |tokens|
      invariant start <= index <= |tokens|
      invariant Scope(tokens[start..], [], [], nested) == Scope(tokens[index..], nodes, header, nested)
      decreases |tokens| - index
    {
      var token := tokens[index];
      assert tokens[index..][0] == token && tokens[index..][1..] == tokens[index + 1..];
      index := index + 1;
      if token == ";" {
        if header != [] { nodes, header := nodes + [Directive(header)], []; }
      } else if token == "{" {
        if header == [] { return Err; }
        var inner := ParseScope(tokens, index, true);
        if inner.Err? { return Err; }
        nodes, header, index := nodes + [Block(header, inner.value.0)], [], inner.value.1;
      } else if token == "}" {
        if !nested || header != [] { return Err; }
        return Ok((nodes, index));
      } else {
        header := header + [token];
      }
    }
    if nested { return Err; }
    return Ok((nodes, index));
  }

  /** `_parse_nginx_configuration` */
  method ParseConfiguration(text: string) returns (r: Result<seq<Node>>)
    ensures r == Parse(text)
  {
    var tokens := Tokenize(text);
    if tokens.Err? { return Err; }
    assert tokens.value[0..] == tokens.value;
    var parsed := ParseScope(tokens.value, 0, false);
    if parsed.Err? { return Err; }
    return Ok(parsed.value.0);
  }

  // ---------------------------------------------------------------- acceptance

  /** Scopes balance, none is anonymous, and none ends inside a directive: one pass with a depth counter. */
  predicate Balanced(tokens: seq<string>, depth: nat, bare: bool)
    decreases |tokens|
  {
    if tokens == [] then depth == 0
    else if tokens[0] == ";" then Balanced(tokens[1..], depth, true)
    else if tokens[0] == "{" then !bare && Balanced(tokens[1..], depth + 1, true)
    else if tokens[0] == "}" then depth > 0 && bare && Balanced(tokens[1..], depth - 1, true)
    else Balanced(tokens[1..], depth, false)
  }

  /** A nested scope reads one level: what follows it balances one level higher. */
  lemma {:induction false} NestedBalance(tokens: seq<string>, nodes: seq<Node>, header: seq<string>, depth: nat)
    ensures var r := Scope(tokens, nodes, header, true);
            Balanced(tokens, depth + 1, header == []) <==> r.Ok? && Balanced(r.value.rest, depth, true)
    decreases |tokens|
  {
    if tokens == [] {
    } else if tokens[0] == ";" {
      NestedBalance(tokens[1..], if header == [] then nodes else nodes + [Directive(header)], [], depth);
    } else if tokens[0] == "{" {
      if header != [] {
        NestedBalance(tokens[1..], [], [], depth + 1);
        var inner := Scope(tokens[1..], [], [], true);
        if inner.Ok? { NestedBalance(inner.value.rest, nodes + [Block(header, inner.value.nodes)], [], depth); }
      }
    } else if tokens[0] != "}" {
      NestedBalance(tokens[1..], nodes, header + [tokens[0]], depth);
    }
  }

  /** The parser accepts exactly the balanced configurations. */
  lemma {:induction false} AcceptsBalanced(tokens: seq<string>, nodes: seq<Node>, header: seq<string>)
    ensures Scope(tokens, nodes, header, false).Ok? <==> Balanced(tokens, 0, header == [])
    decreases |tokens|
  {
    if tokens == [] {
    } else if tokens[0] == ";" {
      AcceptsBalanced(tokens[1..], if header == [] then nodes else nodes + [Directive(header)], []);
    } else if tokens[0] == "{" {
      if header != [] {
        NestedBalance(tokens[1..], [], [], 0);
        var inner := Scope(tokens[1..], [], [], true);
        if inner.Ok? { AcceptsBalanced(inner.value.rest, nodes + [Block(header, inner.value.nodes)], []); }
      }
    } else if tokens[0] != "}" {
      AcceptsBalanced(tokens[1..], nodes, header + [tokens[0]]);
    }
  }

  // ---------------------------------------------------------------- the printer

  /** A word the parser can give back: not empty, and not spelled like a structural token. */
  predicate Word(w: string) {
    w != "" && w !in STRUCTURAL
  }

  predicate Plain(nodes: seq<Node>)
    decreases nodes
  {
    nodes != [] ==>
      && nodes[0].header != [] && (forall w :: w in nodes[0].header ==> Word(w))
      && (nodes[0].Block? ==> Plain(nodes[0].children)) && Plain(nodes[1..])
  }

  function Escape(w: string): string {
    if w == [] then [] else ['\\', w[0]] + Escape(w[1..])
  }

  function PrintHeader(header: seq<string>): string {
    if header == [] then [] else Escape(header[0]) + " " + PrintHeader(header[1..])
  }

  function Print(nodes: seq<Node>): string
    decreases nodes
  {
    if nodes == [] then []
    else
      PrintHeader(nodes[0].header)
      + (if nodes[0].Directive? then ";" else "{" + Print(nodes[0].children) + "}")
      + Print(nodes[1..])
  }

  /** The tokens of a tree. */
  function Flat(nodes: seq<Node>): seq<string>
    decreases nodes
  {
    if nodes == [] then []
    else
      nodes[0].header
      + (if nodes[0].Directive? then [";"] else ["{"] + Flat(nodes[0].children) + ["}"])
      + Flat(nodes[1..])
  }

  /** Between tokens, outside quotes and comments. */
  predicate Idle(l: Lexer) {
    l.current == "" && l.quote.None? && !l.escaped && !l.comment
  }

  lemma {:induction false} LexEscaped(l: Lexer, w: string)
    requires l.quote.None? && !l.escaped && !l.comment
    ensures Run(l, Escape(w)) == l.(current := l.current + w)
    decreases |w|
  {
    if w == [] {
      assert l.current + w == l.current;
    } else {
      var next := l.(current := l.current + [w[0]]);
      RunAppend(l, ['\\', w[0]], Escape(w[1..]));
      assert ['\\', w[0]] == ['\\'] + [w[0]];
      RunAppend(l, ['\\'], [w[0]]);
      RunOne(l, '\\');
      RunOne(l.(escaped := true), w[0]);
      LexEscaped(next, w[1..]);
      assert next.current + w[1..] == l.current + w;
    }
  }

  lemma LexWord(l: Lexer, w: string)
    requires Idle(l) && w != ""
    ensures Run(l, Escape(w) + " ") == l.(tokens := l.tokens + [w])
  {
    LexEscaped(l, w);
    assert l.current + w == w;
    RunAppend(l, Escape(w), " ");
    RunOne(l.(current := w), ' ');
  }

  lemma {:induction false} LexHeader(l: Lexer, header: seq<string>)
    requires Idle(l) && forall w :: w in header ==> w != ""
    ensures Run(l, PrintHeader(header)) == l.(tokens := l.tokens + header)
    decreases |header|
  {
    if header == [] {
      assert l.tokens + header == l.tokens;
    } else {
      var next := l.(tokens := l.tokens + [header[0]]);
      assert header[0] in header;
      LexWord(l, header[0]);
      RunAppend(l, Escape(header[0]) + " ", PrintHeader(header[1..]));
      assert forall x :: x in header[1..] ==> x in header;
      LexHeader(next, header[1..]);
      assert next.tokens + header[1..] == l.tokens + header;
    }
  }

  lemma LexStructural(l: Lexer, c: char)
    requires Idle(l) && c in {'{', '}', ';'}
    ensures Run(l, [c]) == l.(tokens := l.tokens + [[c]])
  {
    RunOne(l, c);
  }

  /** The printed form and the tokens of one node. */
  function PrintTail(n: Node): string {
    if n.Directive? then ";" else "{" + Print(n.children) + "}"
  }

  function FlatTail(n: Node): seq<string> {
    if n.Directive? then [";"] else ["{"] + Flat(n.children) + ["}"]
  }

  lemma Unfold(nodes: seq<Node>)
    requires nodes != []
    ensures Print(nodes) == (PrintHeader(nodes[0].header) + PrintTail(nodes[0])) + Print(nodes[1..])
    ensures Flat(nodes) == (nodes[0].header + FlatTail(nodes[0])) + Flat(nodes[1..])
    ensures Plain(nodes) ==>
              && Plain(nodes[1..]) && nodes[0].header != [] && (forall w :: w in nodes[0].header ==> Word(w))
              && (nodes[0].Block? ==> Plain(nodes[0].children))
  {
  }

  lemma {:induction false} LexNodes(l: Lexer, nodes: seq<Node>)
    requires Idle(l) && Plain(nodes)
    ensures Run(l, Print(nodes)) == l.(tokens := l.tokens + Flat(nodes))
    decreases nodes, 0
  {
    if nodes == [] {
      assert l.tokens + [] == l.tokens;
    } else {
      LexMore(l, nodes);
    }
  }

  lemma LexMore(l: Lexer, nodes: seq<Node>)
    requires Idle(l) && Plain(nodes) && nodes != []
    ensures Run(l, Print(nodes)) == l.(tokens := l.tokens + Flat(nodes))
    decreases nodes, 0, 0
  {
    hide Run, Print, Flat, Plain, PrintHeader, PrintTail, FlatTail;
    Unfold(nodes);
    var n, more := nodes[0], nodes[1..];
    var l1 := l.(tokens := l.tokens + n.header);
    var l2 := l1.(tokens := l1.tokens + FlatTail(n));
    LexHeader(l, n.header);
    LexTail(l1, n);
    RunAppend(l, PrintHeader(n.header), PrintTail(n));
    RunAppend(l, PrintHeader(n.header) + PrintTail(n), Print(more));
    LexNodes(l2, more);
    assert l2.tokens + Flat(more) == l.tokens + Flat(nodes);
  }

  lemma LexTail(l: Lexer, n: Node)
    requires Idle(l) && (n.Block? ==> Plain(n.children))
    ensures Run(l, PrintTail(n)) == l.(tokens := l.tokens + FlatTail(n))
    decreases n
  {
    if n.Directive? { LexStructural(l, ';'); } else { LexBlock(l, n.children); }
  }

  lemma {:induction false} LexBlock(l: Lexer, children: seq<Node>)
    requires Idle(l) && Plain(children)
    ensures Run(l, "{" + Print(children) + "}") == l.(tokens := l.tokens + (["{"] + Flat(children) + ["}"]))
    decreases children, 1
  {
    var l1 := l.(tokens := l.tokens + ["{"]);
    var l2 := l1.(tokens := l1.tokens + Flat(children));
    LexStructural(l, '{');
    LexNodes(l1, children);
    LexStructural(l2, '}');
    RunAppend(l, "{", Print(children));
    RunAppend(l, "{" + Print(children), "}");
    assert l2.tokens + ["}"] == l.tokens + (["{"] + Flat(children) + ["}"]);
  }

  lemma {:induction false} ScopeHeader(words: seq<string>, rest: seq<string>, nodes: seq<Node>, header: seq<string>, nested: bool)
    requires forall w :: w in words ==> w !in STRUCTURAL
    ensures Scope(words + rest, nodes, header, nested) == Scope(rest, nodes, header + words, nested)
    decreases |words|
  {
    if words == [] {
      assert words + rest == rest && header + words == header;
    } else {
      assert words[0] in words && (words + rest)[1..] == words[1..] + rest;
      assert forall w :: w in words[1..] ==> w in words;
      ScopeHeader(words[1..], rest, nodes, header + [words[0]], nested);
      assert header + [words[0]] + words[1..] == header + words;
    }
  }

  lemma {:induction false} ScopeNodes(nodes: seq<Node>, rest: seq<string>, before: seq<Node>, nested: bool)
    requires Plain(nodes)
    ensures Scope(Flat(nodes) + rest, before, [], nested) == Scope(rest, before + nodes, [], nested)
    decreases nodes
  {
    if nodes == [] {
      assert Flat(nodes) + rest == rest && before + nodes == before;
    } else {
      ScopeMore(nodes, rest, before, nested);
    }
  }

  lemma ScopeMore(nodes: seq<Node>, rest: seq<string>, before: seq<Node>, nested: bool)
    requires Plain(nodes) && nodes != []
    ensures Scope(Flat(nodes) + rest, before, [], nested) == Scope(rest, before + nodes, [], nested)
    decreases nodes, 0
  {
    hide Scope, Flat, Plain, FlatTail, STRUCTURAL;
    var n, more := nodes[0], nodes[1..];
    var after := Flat(more) + rest;
    Unfold(nodes);
    RegroupRight(n.header, FlatTail(n), Flat(more), rest);
    ScopeHeader(n.header, FlatTail(n) + after, before, [], nested);
    assert [] + n.header == n.header;
    if n.Block? { ScopeNodes(n.children, ["}"] + after, [], true); }
    ScopeTail(n, after, before, nested);
    ScopeNodes(more, rest, before + [n], nested);
    Rejoin(before, nodes);
  }

  lemma RegroupRight<T>(a: seq<T>, b: seq<T>, c: seq<T>, d: seq<T>)
    ensures ((a + b) + c) + d == a + (b + (c + d))
  {
  }

  lemma Rejoin<T>(a: seq<T>, b: seq<T>)
    requires b != []
    ensures (a + [b[0]]) + b[1..] == a + b
  {
  }

  /** After its header, a node is completed by its tail. */
  lemma ScopeTail(n: Node, after: seq<string>, before: seq<Node>, nested: bool)
    requires n.header != []
    requires n.Block? ==> Scope(Flat(n.children) + (["}"] + after), [], [], true) == Scope(["}"] + after, [] + n.children, [], true)
    ensures Scope(FlatTail(n) + after, before, n.header, nested) == Scope(after, before + [n], [], nested)
  {
    if n.Directive? {
      assert (FlatTail(n) + after)[1..] == after;
    } else {
      assert (FlatTail(n) + after)[1..] == Flat(n.children) + (["}"] + after);
      assert [] + n.children == n.children && (["}"] + after)[1..] == after;
    }
  }

  /** Parsing undoes printing for every tree of plain words. */
  lemma ParsePrint(nodes: seq<Node>)
    requires Plain(nodes)
    ensures Parse(Print(nodes)) == Ok(nodes)
  {
    LexNodes(START, nodes);
    assert [] + Flat(nodes) == Flat(nodes) + [];
    ScopeNodes(nodes, [], [], false);
    assert [] + nodes == nodes;
  }

  lemma PlainAppend(nodes: seq<Node>, n: Node)
    requires Plain(nodes) && Plain([n])
    ensures Plain(nodes + [n])
    decreases |nodes|
  {
    if nodes == [] {
      assert nodes + [n] == [n];
    } else {
      assert (nodes + [n])[1..] == nodes[1..] + [n];
      PlainAppend(nodes[1..], n);
    }
  }

  lemma {:induction false} ScopePlain(tokens: seq<string>, nodes: seq<Node>, header: seq<string>, nested: bool)
    requires (forall t :: t in tokens ==> t != "") && Plain(nodes) && forall w :: w in header ==> Word(w)
    ensures var r := Scope(tokens, nodes, header, nested);
            r.Ok? ==> Plain(r.value.nodes) && forall t :: t in r.value.rest ==> t != ""
    decreases |tokens|
  {
    if tokens != [] {
      var more := tokens[1..];
      assert forall t :: t in more ==> t in tokens;
      if tokens[0] == ";" {
        if header != [] { PlainAppend(nodes, Directive(header)); }
        ScopePlain(more, if header == [] then nodes else nodes + [Directive(header)], [], nested);
      } else if tokens[0] == "{" {
        if header != [] {
          ScopePlain(more, [], [], true);
          var inner := Scope(more, [], [], true);
          if inner.Ok? {
            PlainAppend(nodes, Block(header, inner.value.nodes));
            ScopePlain(inner.value.rest, nodes + [Block(header, inner.value.nodes)], [], nested);
          }
        }
      } else if tokens[0] != "}" {
        assert tokens[0] in tokens && Word(tokens[0]);
        ScopePlain(more, nodes, header + [tokens[0]], nested);
      }
    }
  }

  lemma {:induction false} RunWords(l: Lexer, text: string)
    requires (forall t :: t in l.tokens ==> t != "") && (l.comment ==> l.current == "")
    ensures var r := Run(l, text); (forall t :: t in r.tokens ==> t != "") && (r.comment ==> r.current == "")
    decreases |text|
  {
    if text != [] { RunWords(Step(l, text[0]), text[1..]); }
  }

  /** Whatever is parsed has plain words only: quoting cannot make a word out of a brace or a semicolon. */
  lemma ParsedPlain(text: string)
    ensures Parse(text).Ok? ==> Plain(Parse(text).value)
  {
    RunWords(START, text);
    var tokens := Tokens(text);
    if tokens.Ok? { ScopePlain(tokens.value, [], [], false); }
  }

  /** The printer is undone exactly on trees of plain words. */
  lemma RoundTrip(nodes: seq<Node>)
    ensures Parse(Print(nodes)) == Ok(nodes) <==> Plain(nodes)
  {
    if Plain(nodes) { ParsePrint(nodes); }
    ParsedPlain(Print(nodes));
  }

  // ---------------------------------------------------------------- trailing words

  lemma {:induction false} ScopeExtend(tokens: seq<string>, extra: seq<string>, nodes: seq<Node>, header: seq<string>)
    requires Scope(tokens, nodes, header, true).Ok?
    ensures var r := Scope(tokens, nodes, header, true).value;
            Scope(tokens + extra, nodes, header, true) == Ok(Parsed(r.nodes, r.rest + extra))
    decreases |tokens|
  {
    var more := tokens[1..];
    assert (tokens + extra)[1..] == more + extra;
    if tokens[0] == ";" {
      ScopeExtend(more, extra, if header == [] then nodes else nodes + [Directive(header)], []);
    } else if tokens[0] == "{" {
      var inner := Scope(more, [], [], true).value;
      ScopeExtend(more, extra, [], []);
      ScopeExtend(inner.rest, extra, nodes + [Block(header, inner.nodes)], []);
    } else if tokens[0] != "}" {
      ScopeExtend(more, extra, nodes, header + [tokens[0]]);
    }
  }

  lemma {:induction false} ScopeTrailing(tokens: seq<string>, words: seq<string>, nodes: seq<Node>, header: seq<string>)
    requires Scope(tokens, nodes, header, false).Ok? && forall w :: w in words ==> w !in STRUCTURAL
    ensures Scope(tokens + words, nodes, header, false).Ok?
    ensures Scope(tokens + words, nodes, header, false).value.nodes == Scope(tokens, nodes, header, false).value.nodes
    decreases |tokens|
  {
    if tokens == [] {
      assert tokens + words == words + [];
      ScopeHeader(words, [], nodes, header, false);
    } else {
      var more := tokens[1..];
      assert (tokens + words)[1..] == more + words;
      if tokens[0] == ";" {
        ScopeTrailing(more, words, if header == [] then nodes else nodes + [Directive(header)], []);
      } else if tokens[0] == "{" {
        var inner := Scope(more, [], [], true).value;
        ScopeExtend(more, words, [], []);
        ScopeTrailing(inner.rest, words, nodes + [Block(header, inner.nodes)], []);
      } else if tokens[0] != "}" {
        ScopeTrailing(more, words, nodes, header + [tokens[0]]);
      }
    }
  }

  /** Words after the last directive, such as a success message, change nothing. */
  lemma TrailingWords(text: string, words: seq<string>)
    requires Parse(text).Ok? && forall w :: w in words ==> Word(w)
    ensures Parse(text + "\n" + PrintHeader(words)) == Parse(text)
  {
    var l := Run(START, text);
    RunWords(START, text);
    RunOne(l, '\n');
    RunAppend(START, text, "\n");
    var idle := Step(l, '\n');
    assert Idle(idle) && idle.tokens == Flush(l).tokens;
    LexHeader(idle, words);
    RunAppend(START, text + "\n", PrintHeader(words));
    ScopeTrailing(Flush(l).tokens, words, [], []);
  }

  /** Inside quotes a structural character is an ordinary one, yet the token it makes is the structural one. */
  lemma QuotedBrace()
    ensures Tokens(['"', '{', '"']) == Tokens(['{']) == Ok([['{']])
  {
    var open := START.(quote := Some('"'));
    var held := open.(current := ['{']);
    var read := START.(current := ['{']);
    assert Step(START, '"') == open && Step(open, '{') == held && Step(held, '"') == read;
    assert ['"', '{', '"'][1..] == ['{', '"'] && ['{', '"'][1..] == ['"'] && ['"'][1..] == [] && ['{'][1..] == [];
    assert Run(START, ['"', '{', '"']) == Run(open, ['{', '"']) == Run(held, ['"']) == read;
    assert Flush(read).tokens == [['{']];
    assert Run(START, ['{']) == Step(START, '{') && Step(START, '{').tokens == [['{']];
  }

  // ---------------------------------------------------------------- the managed upstream

  const NGINX_UPSTREAM_NAME := "buh_platform_v2_active"

  predicate NameChar(c: char) {
    'A' <= c <= 'Z' || 'a' <= c <= 'z' || '0' <= c <= '9' || c in {'_', '.', '-'}
  }

  /** `_safe_container_name` */
  predicate SafeName(name: string) {
    1 <= |name| <= 128 && NameChar(name[0]) && name[0] !in {'_', '.', '-'} && forall c :: c in name ==> NameChar(c)
  }

  predicate Digits(port: string) {
    port != "" && forall c :: c in port ==> '0' <= c <= '9'
  }

  function ServerWords(target: string, port: string, backup: bool): seq<string> {
    ["server", target + ":" + port, "max_fails=1", "fail_timeout=5s"] + if backup then ["backup"] else []
  }

  function Join(words: seq<string>): string {
    if words == [] then "" else if |words| == 1 then words[0] else words[0] + " " + Join(words[1..])
  }

  function Line(words: seq<string>): string {
    "    " + Join(words) + ";\n"
  }

  function ServerLines(targets: seq<string>, port: string, backup: bool): string {
    if targets == [] then "" else Line(ServerWords(targets[0], port, backup)) + ServerLines(targets[1..], port, backup)
  }

  /** `_render_upstream` */
  function RenderUpstream(targets: seq<string>, backups: seq<string>, port: string): Result<string> {
    if targets == [] || |targets| + |backups| > MAX_SERVICE_REPLICAS then Err
    else if exists t :: t in targets + backups && !SafeName(t) then Err
    else if !Distinct(targets + backups) then Err
    else Ok("#" + (TITLE + "\n") + Opening() + Line(["least_conn"])
            + ServerLines(targets, port, false) + ServerLines(backups, port, true) + "}\n")
  }

  function Servers(targets: seq<string>, port: string, backup: bool): (r: seq<Node>)
    ensures |r| == |targets| && forall i :: 0 <= i < |r| ==>
              r[i] == Directive(["server", targets[i] + ":" + port, "max_fails=1", "fail_timeout=5s"] + if backup then ["backup"] else [])
  {
    if targets == [] then [] else [Directive(ServerWords(targets[0], port, backup))] + Servers(targets[1..], port, backup)
  }

  /** A character that stands for itself. */
  predicate Ordinary(c: char) {
    !IsSpace(c) && c !in {'\\', '"', '\'', '#', '{', '}', ';'}
  }

  predicate OrdinaryWord(w: string) {
    w != "" && forall c :: c in w ==> Ordinary(c)
  }

  lemma {:induction false} LexOrdinary(l: Lexer, w: string)
    requires l.quote.None? && !l.escaped && !l.comment && forall c :: c in w ==> Ordinary(c)
    ensures Run(l, w) == l.(current := l.current + w)
    decreases |w|
  {
    if w == [] {
      assert l.current + w == l.current;
    } else {
      assert w[0] in w && forall c :: c in w[1..] ==> c in w;
      LexOrdinary(l.(current := l.current + [w[0]]), w[1..]);
      assert l.current + [w[0]] + w[1..] == l.current + w;
    }
  }

  /** A word and the space after it. */
  lemma LexSpaced(l: Lexer, w: string, rest: string)
    requires Idle(l) && OrdinaryWord(w)
    ensures Run(l, (w + " ") + rest) == Run(l.(tokens := l.tokens + [w]), rest)
  {
    hide Run, Ordinary;
    LexOrdinary(l, w);
    assert l.current + w == w;
    RunOne(l.(current := w), ' ');
    RunAppend(l, w, " ");
    RunAppend(l, w + " ", rest);
  }

  lemma EndDirective(l: Lexer, w: string)
    requires Idle(l) && w != ""
    ensures var ended := l.(tokens := l.tokens + [w] + [";"]);
            Step(l.(current := w), ';') == ended && Step(ended, '\n') == ended
  {
  }

  /** The last word of a directive. */
  lemma LexLast(l: Lexer, w: string)
    requires Idle(l) && OrdinaryWord(w)
    ensures Run(l, w + ";\n") == l.(tokens := l.tokens + [w] + [";"])
  {
    hide Run, Ordinary, Step;
    LexOrdinary(l, w);
    assert l.current + w == w;
    EndDirective(l, w);
    var read, ended := l.(current := w), l.(tokens := l.tokens + [w] + [";"]);
    assert ";\n" == [';'] + ['\n'];
    RunOne(read, ';');
    RunOne(ended, '\n');
    RunAppend(read, [';'], ['\n']);
    RunAppend(l, w, ";\n");
  }

  /** One indented directive on its own line. */
  lemma {:induction false} LexJoin(l: Lexer, words: seq<string>)
    requires Idle(l) && words != [] && forall w :: w in words ==> OrdinaryWord(w)
    ensures Run(l, Join(words) + ";\n") == l.(tokens := l.tokens + words + [";"])
    decreases |words|
  {
    hide Run, OrdinaryWord, Step;
    var w := words[0];
    assert w in words;
    if |words| == 1 {
      assert words == [w];
      LexLast(l, w);
    } else {
      assert forall x :: x in words[1..] ==> x in words;
      Associate(w + " ", Join(words[1..]), ";\n");
      LexSpaced(l, w, Join(words[1..]) + ";\n");
      LexJoin(l.(tokens := l.tokens + [w]), words[1..]);
      Associate(l.tokens, [w], words[1..]);
      assert [w] + words[1..] == words;
    }
  }

  lemma {:induction false} LexSpaces(l: Lexer, n: nat, text: string)
    requires Idle(l) && n <= |text| && forall k :: 0 <= k < n ==> text[k] == ' '
    ensures Run(l, text) == Run(l, text[n..])
    decreases n
  {
    if n == 0 {
      assert text[0..] == text;
    } else {
      assert text[1..][n - 1..] == text[n..];
      LexSpaces(l, n - 1, text[1..]);
    }
  }

  lemma LexLine(l: Lexer, words: seq<string>)
    requires Idle(l) && words != [] && forall w :: w in words ==> OrdinaryWord(w)
    ensures Run(l, Line(words)) == l.(tokens := l.tokens + words + [";"])
  {
    var text := Line(words);
    LexSpaces(l, 4, text);
    assert text[4..] == Join(words) + ";\n";
    LexJoin(l, words);
  }

  lemma AddressOrdinary(target: string, port: string)
    requires SafeName(target) && Digits(port)
    ensures OrdinaryWord(target + ":" + port)
  {
    var w := target + ":" + port;
    forall c | c in w ensures Ordinary(c) {
      assert c in target || c in ":" || c in port;
    }
  }

  lemma FixedOrdinary()
    ensures OrdinaryWord("server") && OrdinaryWord("backup")
  {
  }

  lemma OptionsOrdinary()
    ensures OrdinaryWord("max_fails=1")
  {
  }

  lemma TimeoutOrdinary()
    ensures OrdinaryWord("fail_timeout=5s")
  {
  }

  lemma OrdinaryIsWord(w: string)
    requires OrdinaryWord(w)
    ensures Word(w)
  {
    forall s | s in STRUCTURAL ensures w != s {
      assert s[0] in s && !Ordinary(s[0]);
    }
  }

  lemma ServerWordsOrdinary(target: string, port: string, backup: bool)
    requires SafeName(target) && Digits(port)
    ensures forall w :: w in ServerWords(target, port, backup) ==> OrdinaryWord(w) && Word(w)
  {
    hide OrdinaryWord, Word, SafeName, Digits;
    AddressOrdinary(target, port);
    FixedOrdinary();
    OptionsOrdinary();
    TimeoutOrdinary();
    forall w | w in ServerWords(target, port, backup) ensures OrdinaryWord(w) && Word(w) {
      assert w in ["server", target + ":" + port, "max_fails=1", "fail_timeout=5s", "backup"];
      OrdinaryIsWord(w);
    }
  }

  lemma SafeRest(targets: seq<string>)
    requires targets != [] && forall t :: t in targets ==> SafeName(t)
    ensures SafeName(targets[0]) && forall t :: t in targets[1..] ==> SafeName(t)
  {
  }

  lemma NonemptyWords(target: string, port: string, backup: bool)
    ensures ServerWords(target, port, backup) != []
  {
  }

  lemma FlatServers(targets: seq<string>, port: string, backup: bool)
    requires targets != [] && SafeName(targets[0]) && Digits(port)
    ensures Flat(Servers(targets, port, backup))
            == (ServerWords(targets[0], port, backup) + [";"]) + Flat(Servers(targets[1..], port, backup))
    ensures Plain(Servers(targets, port, backup)) == Plain(Servers(targets[1..], port, backup))
  {
    ServerWordsOrdinary(targets[0], port, backup);
    assert Servers(targets, port, backup)[1..] == Servers(targets[1..], port, backup);
  }

  lemma {:induction false} LexServers(l: Lexer, targets: seq<string>, port: string, backup: bool)
    requires Idle(l) && Digits(port) && forall t :: t in targets ==> SafeName(t)
    ensures Run(l, ServerLines(targets, port, backup)) == l.(tokens := l.tokens + Flat(Servers(targets, port, backup)))
    ensures Plain(Servers(targets, port, backup))
    decreases |targets|
  {
    if targets == [] {
      assert l.tokens + Flat(Servers(targets, port, backup)) == l.tokens;
    } else {
      LexMoreServers(l, targets, port, backup);
    }
  }

  lemma LexMoreServers(l: Lexer, targets: seq<string>, port: string, backup: bool)
    requires Idle(l) && Digits(port) && targets != [] && forall t :: t in targets ==> SafeName(t)
    ensures Run(l, ServerLines(targets, port, backup)) == l.(tokens := l.tokens + Flat(Servers(targets, port, backup)))
    ensures Plain(Servers(targets, port, backup))
    decreases |targets|, 0
  {
    hide Run, Flat, Plain, Line, SafeName, Digits, OrdinaryWord, Servers, ServerWords;
    NonemptyWords(targets[0], port, backup);
    var words := ServerWords(targets[0], port, backup);
    var next := l.(tokens := l.tokens + words + [";"]);
    SafeRest(targets);
    ServerWordsOrdinary(targets[0], port, backup);
    LexLine(l, words);
    RunAppend(l, Line(words), ServerLines(targets[1..], port, backup));
    LexServers(next, targets[1..], port, backup);
    FlatServers(targets, port, backup);
    Regroup(l.tokens, words, [";"], Flat(Servers(targets[1..], port, backup)));
  }

  lemma Regroup<T>(a: seq<T>, b: seq<T>, c: seq<T>, d: seq<T>)
    ensures (a + b + c) + d == a + ((b + c) + d)
  {
  }

  lemma {:induction false} LexComment(l: Lexer, text: string)
    requires l.comment && l.current == "" && l.quote.None? && !l.escaped && forall c :: c in text ==> c != '\r' && c != '\n'
    ensures Run(l, text + "\n") == l.(comment := false)
    decreases |text|
  {
    if text == [] {
      assert text + "\n" == "\n";
      RunOne(l, '\n');
    } else {
      assert text[0] in text && forall c :: c in text[1..] ==> c in text;
      assert (text + "\n")[1..] == text[1..] + "\n";
      LexComment(l, text[1..]);
    }
  }

  lemma LexOrdinaryWord(l: Lexer, w: string)
    requires Idle(l) && OrdinaryWord(w)
    ensures Run(l, w + " ") == l.(tokens := l.tokens + [w])
  {
    LexOrdinary(l, w);
    assert l.current + w == w;
    RunAppend(l, w, " ");
    RunOne(l.(current := w), ' ');
  }

  const TITLE := " Managed by the B-UH Platform v2 receiver."

  function Opening(): string {
    ("upstream" + " ") + (NGINX_UPSTREAM_NAME + " ") + "{\n"
  }

  lemma LexTitle(l: Lexer)
    requires Idle(l)
    ensures Run(l, "#" + (TITLE + "\n")) == l
  {
    RunOne(l, '#');
    RunAppend(l, "#", TITLE + "\n");
    LexComment(l.(comment := true), TITLE);
  }

  lemma NamesOrdinary()
    ensures OrdinaryWord("upstream") && OrdinaryWord(NGINX_UPSTREAM_NAME)
  {
  }

  lemma LexOpening(l: Lexer)
    requires Idle(l)
    ensures Run(l, Opening()) == l.(tokens := l.tokens + ["upstream", NGINX_UPSTREAM_NAME, "{"])
  {
    hide Run, NGINX_UPSTREAM_NAME, OrdinaryWord;
    NamesOrdinary();
    var name := NGINX_UPSTREAM_NAME;
    var l1 := l.(tokens := l.tokens + ["upstream"]);
    var l2 := l1.(tokens := l1.tokens + [name]);
    LexOrdinaryWord(l, "upstream");
    LexOrdinaryWord(l1, name);
    LexBrace(l2);
    RunAppend(l, "upstream" + " ", name + " ");
    RunAppend(l, ("upstream" + " ") + (name + " "), "{\n");
    assert (l.tokens + ["upstream"] + [name]) + ["{"] == l.tokens + ["upstream", name, "{"];
  }

  lemma LexBrace(l: Lexer)
    requires Idle(l)
    ensures Run(l, "{\n") == l.(tokens := l.tokens + ["{"])
  {
    assert "{\n" == "{" + "\n";
    LexStructural(l, '{');
    RunAppend(l, "{", "\n");
    RunOne(l.(tokens := l.tokens + ["{"]), '\n');
  }

  lemma LexClosing(l: Lexer)
    requires Idle(l)
    ensures Run(l, "}\n") == l.(tokens := l.tokens + ["}"])
  {
    assert "}\n" == "}" + "\n";
    LexStructural(l, '}');
    RunAppend(l, "}", "\n");
    RunOne(l.(tokens := l.tokens + ["}"]), '\n');
  }

  lemma {:induction false} FlatAppend(a: seq<Node>, b: seq<Node>)
    requires Plain(a) && Plain(b)
    ensures Flat(a + b) == Flat(a) + Flat(b) && Plain(a + b)
    decreases |a|
  {
    if a == [] {
      assert a + b == b && Flat(a) + Flat(b) == Flat(b);
    } else {
      FlatAppendMore(a, b);
    }
  }

  lemma FlatAppendMore(a: seq<Node>, b: seq<Node>)
    requires Plain(a) && Plain(b) && a != []
    ensures Flat(a + b) == Flat(a) + Flat(b) && Plain(a + b)
    decreases |a|, 0
  {
    hide Flat, Plain, FlatTail;
    var n, more := a[0], a[1..];
    assert (a + b)[1..] == more + b && (a + b)[0] == n;
    Unfold(a);
    Unfold(a + b);
    FlatAppend(more, b);
    Fold(n, more + b);
    Associate(n.header + FlatTail(n), Flat(more), Flat(b));
    assert a + b == [n] + (more + b);
  }

  lemma Fold(n: Node, more: seq<Node>)
    requires n.header != [] && (forall w :: w in n.header ==> Word(w)) && (n.Block? ==> Plain(n.children)) && Plain(more)
    ensures Plain([n] + more)
  {
    assert ([n] + more)[1..] == more;
  }

  /** The scope the managed file defines. */
  function UpstreamNode(targets: seq<string>, backups: seq<string>, port: string): Node {
    Block(["upstream", NGINX_UPSTREAM_NAME],
          [Directive(["least_conn"])] + Servers(targets, port, false) + Servers(backups, port, true))
  }

  lemma BalanceDirective()
    ensures Plain([Directive(["least_conn"])]) && Flat([Directive(["least_conn"])]) == ["least_conn", ";"]
  {
    assert ["least_conn"][0] == "least_conn";
    assert [Directive(["least_conn"])][1..] == [];
  }

  lemma UpstreamTokens(targets: seq<string>, backups: seq<string>, port: string)
    requires Plain(Servers(targets, port, false)) && Plain(Servers(backups, port, true))
    ensures Plain([UpstreamNode(targets, backups, port)])
    ensures Flat([UpstreamNode(targets, backups, port)])
            == ["upstream", NGINX_UPSTREAM_NAME, "{"] + ["least_conn", ";"] + Flat(Servers(targets, port, false)) + Flat(Servers(backups, port, true)) + ["}"]
  {
    hide Flat, Plain, Servers, NGINX_UPSTREAM_NAME;
    var n := UpstreamNode(targets, backups, port);
    var first := [Directive(["least_conn"])];
    OneBlock(n);
    BalanceDirective();
    FlatAppend(first, Servers(targets, port, false));
    FlatAppend(first + Servers(targets, port, false), Servers(backups, port, true));
    assert n.children == first + Servers(targets, port, false) + Servers(backups, port, true);
  }

  lemma OneBlock(n: Node)
    requires n.Block?
    ensures Flat([n]) == n.header + (["{"] + Flat(n.children) + ["}"])
    ensures n.header == ["upstream", NGINX_UPSTREAM_NAME] && Plain(n.children) ==> Plain([n])
  {
    assert [n][1..] == [];
  }

  /** The file is rendered exactly for a bounded list of safe names without a repetition, and then defines exactly
      one upstream: one server per target, then one per backup, with the backup mark on the backups only. */
  lemma RenderParses(targets: seq<string>, backups: seq<string>, port: string)
    requires Digits(port)
    ensures RenderUpstream(targets, backups, port).Ok? <==>
              && targets != [] && |targets| + |backups| <= MAX_SERVICE_REPLICAS
              && (forall t :: t in targets || t in backups ==> SafeName(t))
              && (forall i, j :: 0 <= i < j < |targets| + |backups| ==> (targets + backups)[i] != (targets + backups)[j])
    ensures RenderUpstream(targets, backups, port).Ok? ==>
              var parsed := Parse(RenderUpstream(targets, backups, port).value);
              && parsed.Ok? && |parsed.value| == 1 && parsed.value[0].Block?
              && parsed.value[0].header == ["upstream", NGINX_UPSTREAM_NAME]
              && var children := parsed.value[0].children;
              && |children| == 1 + |targets| + |backups| && children[0] == Directive(["least_conn"])
              && (forall i :: 0 <= i < |targets| ==>
                    children[1 + i] == Directive(["server", targets[i] + ":" + port, "max_fails=1", "fail_timeout=5s"]))
              && (forall j :: 0 <= j < |backups| ==>
                    children[1 + |targets| + j] == Directive(["server", backups[j] + ":" + port, "max_fails=1", "fail_timeout=5s", "backup"]))
  {
    hide Parse, SafeName;
    var all := targets + backups;
    assert forall t :: t in all <==> t in targets || t in backups;
    if RenderUpstream(targets, backups, port).Ok? {
      RenderedTree(targets, backups, port);
      var children := UpstreamNode(targets, backups, port).children;
      var first, second := Servers(targets, port, false), Servers(backups, port, true);
      assert children == [Directive(["least_conn"])] + first + second;
      forall i | 0 <= i < |targets|
        ensures children[1 + i] == Directive(["server", targets[i] + ":" + port, "max_fails=1", "fail_timeout=5s"])
      {
        assert children[1 + i] == first[i];
        assert first[i].header == ["server", targets[i] + ":" + port, "max_fails=1", "fail_timeout=5s"];
      }
      forall j | 0 <= j < |backups|
        ensures children[1 + |targets| + j] == Directive(["server", backups[j] + ":" + port, "max_fails=1", "fail_timeout=5s", "backup"])
      {
        assert children[1 + |targets| + j] == second[j];
      }
    }
  }

  /** What the rendered file parses to. */
  lemma RenderedTree(targets: seq<string>, backups: seq<string>, port: string)
    requires Digits(port) && RenderUpstream(targets, backups, port).Ok?
    ensures Parse(RenderUpstream(targets, backups, port).value) == Ok([UpstreamNode(targets, backups, port)])
  {
    hide Run, Flat, Plain, Line, Scope, Servers, ServerLines, SafeName, Digits, OrdinaryWord, Opening, UpstreamNode, TITLE;
    var l1 := START.(tokens := START.tokens + ["upstream", NGINX_UPSTREAM_NAME, "{"]);
    var l2 := l1.(tokens := l1.tokens + ["least_conn"] + [";"]);
    var l3 := l2.(tokens := l2.tokens + Flat(Servers(targets, port, false)));
    var l4 := l3.(tokens := l3.tokens + Flat(Servers(backups, port, true)));
    var title, opening, least := "#" + (TITLE + "\n"), Opening(), Line(["least_conn"]);
    var first, second := ServerLines(targets, port, false), ServerLines(backups, port, true);
    SafeParts(targets, backups);
    LexTitle(START);
    LexOpening(START);
    LeastConn();
    LexLine(l1, ["least_conn"]);
    LexServers(l2, targets, port, false);
    LexServers(l3, backups, port, true);
    LexClosing(l4);
    RunAppend(START, title, opening);
    RunAppend(START, title + opening, least);
    RunAppend(START, title + opening + least, first);
    RunAppend(START, title + opening + least + first, second);
    RunAppend(START, title + opening + least + first + second, "}\n");
    UpstreamTokens(targets, backups, port);
    var nodes := [UpstreamNode(targets, backups, port)];
    var tokens := l4.tokens + ["}"];
    assert tokens == Flat(nodes);
    RenderedText(targets, backups, port);
    ParseTokens(RenderUpstream(targets, backups, port).value, tokens);
    assert Flat(nodes) + [] == Flat(nodes) && [] + nodes == nodes;
    ScopeNodes(nodes, [], [], false);
    ScopeDone(nodes);
  }

  lemma SafeParts(targets: seq<string>, backups: seq<string>)
    requires !(exists t :: t in targets + backups && !SafeName(t))
    ensures (forall t :: t in targets ==> SafeName(t)) && forall t :: t in backups ==> SafeName(t)
  {
    assert forall t :: t in targets || t in backups ==> t in targets + backups;
  }

  lemma LeastConn()
    ensures forall w :: w in ["least_conn"] ==> OrdinaryWord(w)
  {
  }

  lemma ScopeDone(nodes: seq<Node>)
    ensures Scope([], nodes, [], false) == Ok(Parsed(nodes, []))
  {
  }

  lemma ParseTokens(text: string, tokens: seq<string>)
    requires Run(START, text) == START.(tokens := tokens)
    ensures Tokens(text) == Ok(tokens)
  {
  }

  lemma RenderedText(targets: seq<string>, backups: seq<string>, port: string)
    requires RenderUpstream(targets, backups, port).Ok?
    ensures RenderUpstream(targets, backups, port).value
            == "#" + (TITLE + "\n") + Opening() + Line(["least_conn"]) + ServerLines(targets, port, false) + ServerLines(backups, port, true) + "}\n"
  {
  }
}
