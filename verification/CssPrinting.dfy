/** Forests of CSS rules, how they print, and that reading the print gives them back. */
module CssPrinting {
  import opened Wrappers
  import opened CssRules

  // ---------------------------------------------------------------- printing

  /** A rule with its header and body, or a group of rules with the space after its last child. */
  datatype Node = Rule(header: string, body: string) | Group(header: string, children: seq<Node>, tail: string)

  predicate Blank(s: string) {
    forall i | 0 <= i < |s| :: Space(s[i])
  }

  predicate WellFormed(n: Node) {
    match n
    case Rule(header, body) => Plain(header) && Plain(body)
    case Group(header, children, tail) =>
      Plain(header) && Blank(tail) && children != [] && forall i | 0 <= i < |children| :: WellFormed(children[i])
  }

  function Print(n: Node): string {
    match n
    case Rule(header, body) => header + "{" + body + "}"
    case Group(header, children, tail) => header + "{" + PrintAll(children) + tail + "}"
  }

  function PrintAll(ns: seq<Node>): string {
    if ns == [] then [] else Print(ns[0]) + PrintAll(ns[1..])
  }

  function Records(n: Node, parents: seq<string>): set<Record> {
    match n
    case Rule(header, body) => {Record(parents, Strip(header), Strip(body))}
    case Group(header, children, _) => RecordsAll(children, parents + [Strip(header)])
  }

  function RecordsAll(ns: seq<Node>, parents: seq<string>): set<Record> {
    if ns == [] then {} else Records(ns[0], parents) + RecordsAll(ns[1..], parents)
  }

  // ---------------------------------------------------------------- reading undoes printing

  lemma FindPlain(s: string, rest: string)
    requires Plain(s)
    ensures Find(s + "{" + rest, '{') == |s|
  {
    FindAfter(s, '{', "{" + rest);
    assert s + "{" + rest == s + ("{" + rest);
  }

  lemma {:induction false} FindNone(s: string)
    requires Plain(s)
    ensures Find(s, '{') == |s|
    decreases |s|
  {
    if s != [] {
      assert Plain(s[1..]);
      FindNone(s[1..]);
    }
  }

  /** Text without braces is skipped at any depth. */
  lemma {:induction false} ClosePlain(s: string, rest: string, depth: nat)
    requires Plain(s) && depth > 0
    ensures Close(s + rest, depth) == Beyond(|s|, Close(rest, depth))
    decreases |s|
  {
    if s == [] {
      assert s + rest == rest;
    } else {
      assert (s + rest)[0] == s[0] && (s + rest)[1..] == s[1..] + rest;
      assert Plain(s[1..]) && Depth(s[0], depth) == depth;
      ClosePlain(s[1..], rest, depth);
    }
  }

  lemma BlankIsPlain(s: string)
    requires Blank(s)
    ensures Plain(s)
  {
  }

  function BodyOf(n: Node): string {
    match n case Rule(_, body) => body case Group(_, children, tail) => PrintAll(children) + tail
  }

  lemma PrintIsBlock(n: Node, rest: string)
    ensures Print(n) + rest == n.header + ("{" + (BodyOf(n) + ("}" + rest)))
    ensures |Print(n)| == |n.header| + 1 + |BodyOf(n)| + 1
  {
  }

  /** A block whose body closes its own braces is skipped at any depth. */
  lemma CloseBlock(header: string, body: string, rest: string, depth: nat)
    requires Plain(header) && depth > 0
    requires Close(body + ("}" + rest), depth + 1) == Beyond(|body|, Close("}" + rest, depth + 1))
    ensures Close(header + ("{" + (body + ("}" + rest))), depth) == Beyond(|header| + 1 + |body| + 1, Close(rest, depth))
  {
    hide Close;
    var after := "}" + rest;
    var opened' := "{" + (body + after);
    ClosePlain(header, opened', depth);
    CloseStep(opened', depth);
    assert opened'[0] == '{' && opened'[1..] == body + after;
    CloseStep(after, depth + 1);
    assert after[0] == '}' && after[1..] == rest;
    BeyondAdds(|body|, 1, Close(rest, depth));
    BeyondAdds(1, |body| + 1, Close(rest, depth));
    BeyondAdds(|header|, 1 + |body| + 1, Close(rest, depth));
  }

  /** The body of a printed node closes its own braces. */
  lemma {:induction false} CloseBody(n: Node, after: string, depth: nat)
    requires WellFormed(n) && depth > 0
    ensures Close(BodyOf(n) + after, depth) == Beyond(|BodyOf(n)|, Close(after, depth))
    decreases n, 1
  {
    match n
    case Rule(_, body) => ClosePlain(body, after, depth);
    case Group(_, children, tail) =>
      CloseNodes(children, tail + after, depth);
      BlankIsPlain(tail);
      ClosePlain(tail, after, depth);
      assert BodyOf(n) + after == PrintAll(children) + (tail + after);
      BeyondAdds(|PrintAll(children)|, |tail|, Close(after, depth));
  }

  lemma {:induction false} CloseNode(n: Node, rest: string, depth: nat)
    requires WellFormed(n) && depth > 0
    ensures Close(Print(n) + rest, depth) == Beyond(|Print(n)|, Close(rest, depth))
    decreases n, 2
  {
    hide Close, Print, BodyOf, WellFormed;
    HeaderIsPlain(n);
    CloseBody(n, "}" + rest, depth + 1);
    CloseBlock(n.header, BodyOf(n), rest, depth);
    PrintIsBlock(n, rest);
  }

  lemma HeaderIsPlain(n: Node)
    requires WellFormed(n)
    ensures Plain(n.header)
  {
  }

  lemma {:induction false} CloseNodes(ns: seq<Node>, rest: string, depth: nat)
    requires depth > 0 && forall i | 0 <= i < |ns| :: WellFormed(ns[i])
    ensures Close(PrintAll(ns) + rest, depth) == Beyond(|PrintAll(ns)|, Close(rest, depth))
    decreases ns, 0
  {
    if ns == [] {
      assert PrintAll(ns) + rest == rest;
      BeyondNothing(Close(rest, depth));
    } else {
      assert PrintAll(ns) + rest == Print(ns[0]) + (PrintAll(ns[1..]) + rest);
      CloseNode(ns[0], PrintAll(ns[1..]) + rest, depth);
      CloseNodes(ns[1..], rest, depth);
      BeyondAdds(|Print(ns[0])|, |PrintAll(ns[1..])|, Close(rest, depth));
    }
  }

  /** One block, printed in front of anything, is read as one block. */
  lemma ReadBlock(n: Node, rest: string, parents: seq<string>)
    requires WellFormed(n)
    ensures Parse(Print(n) + rest, parents) == Both(Inside(BodyOf(n), parents, Strip(n.header)), Parse(rest, parents))
  {
    hide Close, Parse, Inside, Strip, Both, Print, BodyOf, WellFormed, Find;
    var header, body, s := n.header, BodyOf(n), Print(n) + rest;
    PrintIsBlock(n, rest);
    HeaderIsPlain(n);
    FindPlain(header, body + ("}" + rest));
    BlockSlices(header, body, rest);
    CloseBody(n, "}" + rest, 1);
    CloseStep("}" + rest, 1);
    ParseStep(s, parents, |header|, |body| + 1);
  }

  lemma BlockSlices(header: string, body: string, rest: string)
    ensures var s := header + ("{" + (body + ("}" + rest)));
            && s == header + "{" + (body + ("}" + rest))
            && s[..|header|] == header && s[|header| + 1..] == body + ("}" + rest)
            && s[|header| + 1..|header| + (|body| + 1)] == body && s[|header| + 1 + (|body| + 1)..] == rest
  {
  }

  lemma {:induction false} StripBlank(s: string)
    requires Blank(s)
    ensures Strip(s) == []
    decreases |s|
  {
    if s != [] {
      assert Blank(s[1..]);
      StripBlank(s[1..]);
    }
  }

  lemma HasBrace(ns: seq<Node>, tail: string)
    requires ns != [] && forall i | 0 <= i < |ns| :: WellFormed(ns[i])
    ensures Find(PrintAll(ns) + tail, '{') < |PrintAll(ns) + tail|
  {
    var n := ns[0];
    PrintIsBlock(n, PrintAll(ns[1..]) + tail);
    var rest := BodyOf(n) + ("}" + (PrintAll(ns[1..]) + tail));
    assert PrintAll(ns) + tail == n.header + "{" + rest;
    FindPlain(n.header, rest);
  }

  /** Reading the printed text of any forest gives back exactly its records, headers and bodies stripped. */
  lemma {:induction false} ReadPrinted(ns: seq<Node>, tail: string, parents: seq<string>)
    requires Blank(tail) && forall i | 0 <= i < |ns| :: WellFormed(ns[i])
    ensures Parse(PrintAll(ns) + tail, parents) == Some(RecordsAll(ns, parents))
    decreases ns
  {
    if ns == [] {
      assert PrintAll(ns) + tail == tail;
      BlankIsPlain(tail);
      FindNone(tail);
      StripBlank(tail);
      NoBlock(tail, parents);
    } else {
      var n := ns[0];
      assert PrintAll(ns) + tail == Print(n) + (PrintAll(ns[1..]) + tail);
      ReadBlock(n, PrintAll(ns[1..]) + tail, parents);
      ReadPrinted(ns[1..], tail, parents);
      match n
      case Rule(header, body) => FindNone(body);
      case Group(header, children, inner) =>
        HasBrace(children, inner);
        ReadPrinted(children, inner, parents + [Strip(header)]);
    }
  }

  // ---------------------------------------------------------------- the whole reader

  predicate NoQuotes(s: string) {
    forall i | 0 <= i < |s| :: !Quote(s[i])
  }

  predicate NoComment(s: string) {
    forall i | 0 <= i < |s| - 1 :: s[i] == '/' ==> s[i + 1] != '*'
  }

  predicate Clean(s: string) {
    NoQuotes(s) && NoComment(s)
  }

  predicate CleanNode(n: Node) {
    match n
    case Rule(header, body) => Clean(header) && Clean(body)
    case Group(header, children, tail) => Clean(header) && Clean(tail) && forall i | 0 <= i < |children| :: CleanNode(children[i])
  }

  lemma {:induction false} NothingToRemove(s: string)
    requires NoComment(s)
    ensures WithoutComments(s) == s
    decreases |s|
  {
    if |s| >= 2 {
      assert s[0] == '/' ==> s[0 + 1] != '*';
      forall i | 0 <= i < |s[1..]| - 1 && s[1..][i] == '/' ensures s[1..][i + 1] != '*' {
        assert s[i + 1] == '/' ==> s[i + 1 + 1] != '*';
      }
      NothingToRemove(s[1..]);
    }
  }

  lemma CleanJoin(a: string, b: string)
    requires Clean(a) && Clean(b) && (a == [] || b == [] || a[|a| - 1] != '/' || b[0] != '*')
    ensures Clean(a + b)
  {
    var s := a + b;
    forall i | 0 <= i < |s| - 1 && s[i] == '/' ensures s[i + 1] != '*' {
      if i < |a| - 1 { assert a[i] == '/' ==> a[i + 1] != '*'; }
      else if i >= |a| { assert b[i - |a|] == '/' ==> b[i - |a| + 1] != '*'; }
    }
  }

  lemma {:induction false} CleanPrint(n: Node)
    requires WellFormed(n) && CleanNode(n)
    ensures Clean(Print(n)) && Print(n) != [] && Print(n)[|Print(n)| - 1] == '}'
    decreases n, 1
  {
    match n
    case Rule(header, body) =>
      CleanJoin(header, "{");
      CleanJoin(header + "{", body);
      CleanJoin(header + "{" + body, "}");
    case Group(header, children, tail) =>
      CleanForest(children, tail);
      CleanJoin(header, "{");
      CleanJoin(header + "{", PrintAll(children) + tail);
      CleanJoin(header + "{" + (PrintAll(children) + tail), "}");
      assert Print(n) == header + "{" + (PrintAll(children) + tail) + "}";
  }

  lemma {:induction false} CleanForest(ns: seq<Node>, tail: string)
    requires forall i | 0 <= i < |ns| :: WellFormed(ns[i]) && CleanNode(ns[i])
    requires Clean(tail)
    ensures Clean(PrintAll(ns) + tail)
    decreases ns, 0
  {
    if ns == [] {
      assert PrintAll(ns) + tail == tail;
    } else {
      CleanPrint(ns[0]);
      CleanForest(ns[1..], tail);
      CleanJoin(Print(ns[0]), PrintAll(ns[1..]) + tail);
      assert PrintAll(ns) + tail == Print(ns[0]) + (PrintAll(ns[1..]) + tail);
    }
  }

  /** `css_rules` undoes printing: for any forest whose texts hold no braces, quotes or comment markers,
      the printed text is read as exactly the records of the forest. */
  lemma {:induction false} ReadingUndoesPrinting(ns: seq<Node>, tail: string)
    requires Blank(tail) && Clean(tail)
    requires forall i | 0 <= i < |ns| :: WellFormed(ns[i]) && CleanNode(ns[i])
    ensures Rules(PrintAll(ns) + tail) == Some(RecordsAll(ns, []))
  {
    CleanForest(ns, tail);
    NothingToRemove(PrintAll(ns) + tail);
    ReadPrinted(ns, tail, []);
  }

  // ---------------------------------------------------------------- texts with comments and quotes

  predicate NoCommentEnd(s: string) {
    forall i | 0 <= i < |s| - 1 :: s[i] == '*' ==> s[i + 1] != '/'
  }

  lemma {:induction false} CommentEndsAt(comment: string, after: string)
    requires NoCommentEnd(comment)
    ensures CommentEnd(comment + "*/" + after) == Some(|comment| + 2)
    decreases |comment|
  {
    var s := comment + "*/" + after;
    if comment != [] {
      assert s[1..] == comment[1..] + "*/" + after;
      assert comment[0] == '*' && |comment| > 1 ==> comment[0 + 1] != '/';
      forall i | 0 <= i < |comment[1..]| - 1 && comment[1..][i] == '*' ensures comment[1..][i + 1] != '/' {
        assert comment[i + 1] == '*' ==> comment[i + 1 + 1] != '/';
      }
      CommentEndsAt(comment[1..], after);
    }
  }

  /** The first comment goes, up to its first end, and what follows is treated the same way. */
  lemma {:induction false} CommentGoes(text: string, comment: string, after: string)
    requires NoComment(text) && NoCommentEnd(comment)
    ensures WithoutComments(text + "/*" + comment + "*/" + after) == text + WithoutComments(after)
    decreases |text|
  {
    var s := text + "/*" + comment + "*/" + after;
    if text == [] {
      assert s[2..] == comment + "*/" + after;
      CommentEndsAt(comment, after);
      assert s[2 + (|comment| + 2)..] == after;
    } else {
      assert s[1..] == text[1..] + "/*" + comment + "*/" + after;
      assert text[0] == '/' && |text| > 1 ==> text[0 + 1] != '*';
      forall i | 0 <= i < |text[1..]| - 1 && text[1..][i] == '/' ensures text[1..][i + 1] != '*' {
        assert text[i + 1] == '/' ==> text[i + 1 + 1] != '*';
      }
      CommentGoes(text[1..], comment, after);
      assert [text[0]] + (text[1..] + WithoutComments(after)) == text + WithoutComments(after);
    }
  }

  lemma {:induction false} NoEndFound(s: string)
    requires NoCommentEnd(s)
    ensures CommentEnd(s).None?
    decreases |s|
  {
    if |s| >= 2 {
      assert s[0] == '*' ==> s[0 + 1] != '/';
      forall i | 0 <= i < |s[1..]| - 1 && s[1..][i] == '*' ensures s[1..][i + 1] != '/' {
        assert s[i + 1] == '*' ==> s[i + 1 + 1] != '/';
      }
      NoEndFound(s[1..]);
    }
  }

  lemma NoEndInRest(s: string, k: nat)
    requires NoCommentEnd(s) && k <= |s|
    ensures NoCommentEnd(s[k..])
  {
    forall i | 0 <= i < |s[k..]| - 1 && s[k..][i] == '*' ensures s[k..][i + 1] != '/' {
      assert s[k + i] == '*' ==> s[k + i + 1] != '/';
    }
  }

  /** A comment that is never closed stays. */
  lemma {:induction false} UnclosedStays(s: string)
    requires NoCommentEnd(s)
    ensures WithoutComments(s) == s
    decreases |s|
  {
    if |s| >= 2 {
      NoEndInRest(s, 1);
      NoEndInRest(s, 2);
      NoEndFound(s[2..]);
      UnclosedStays(s[1..]);
    }
  }

  /** Text with a brace between two quotes on one line is refused. */
  lemma QuotedBraceIsRefused(before: string, q: char, quoted: string, q': char, after: string)
    requires q in "\"'" && q' in "\"'" && ('{' in quoted || '}' in quoted)
    requires forall i | 0 <= i < |quoted| :: quoted[i] !in "\"'\n"
    requires NoComment(before + [q] + quoted + [q'] + after)
    ensures Rules(before + [q] + quoted + [q'] + after) == None
  {
    hide Parse, WithoutComments;
    var s := before + [q] + quoted + [q'] + after;
    NothingToRemove(s);
    var i, j := |before|, |before| + 1 + |quoted|;
    assert s[i] == q && s[j] == q' && s[i + 1..j] == quoted;
    assert forall k | i < k < j :: s[k] == quoted[k - i - 1];
    assert !Plain(quoted);
    assert QuotedBrace(s);
  }

  lemma {:induction false} LeftStripIs(s: string) returns (left: string)
    ensures Blank(left) && s == left + LeftStrip(s) && (LeftStrip(s) == [] || !Space(LeftStrip(s)[0]))
    decreases |s|
  {
    if s != [] && Space(s[0]) {
      left := LeftStripIs(s[1..]);
      left := [s[0]] + left;
    } else {
      left := [];
    }
  }

  lemma {:induction false} RightStripIs(s: string) returns (right: string)
    ensures Blank(right) && s == RightStrip(s) + right && (RightStrip(s) == [] || !Space(RightStrip(s)[|RightStrip(s)| - 1]))
    decreases |s|
  {
    if s != [] && Space(s[|s| - 1]) {
      right := RightStripIs(s[..|s| - 1]);
      right := right + [s[|s| - 1]];
    } else {
      right := [];
    }
  }

  /** Stripping takes away blanks at both ends, and all of them. */
  lemma StripIs(s: string) returns (left: string, right: string)
    ensures Blank(left) && Blank(right) && s == left + Strip(s) + right
    ensures Strip(s) == [] || (!Space(Strip(s)[0]) && !Space(Strip(s)[|Strip(s)| - 1]))
  {
    left := LeftStripIs(s);
    right := RightStripIs(LeftStrip(s));
    assert Strip(s) != [] ==> Strip(s)[0] == LeftStrip(s)[0];
  }
}
