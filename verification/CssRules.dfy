/**
 The narrow CSS reader: comments out, quoted braces refused, and the rest split by matching braces into
 records of enclosing headers, header and body.
 */
module CssRules {
  import opened Wrappers

  datatype Record = Record(parents: seq<string>, header: string, body: string)

  // ---------------------------------------------------------------- text

  /** The characters `str.strip` removes. */
  predicate Space(c: char) {
    || '\U{0009}' <= c <= '\U{000d}' || '\U{001c}' <= c <= '\U{0020}' || c == '\U{0085}' || c == '\U{00a0}' || c == '\U{1680}'
    || '\U{2000}' <= c <= '\U{200a}' || c == '\U{2028}' || c == '\U{2029}' || c == '\U{202f}' || c == '\U{205f}' || c == '\U{3000}'
  }

  /** The 29 characters Python counts as white space. */
  lemma SpacesAre(c: char)
    ensures Space(c) <==>
            c in "\t\n\U{b}\U{c}\r\U{1c}\U{1d}\U{1e}\U{1f} \U{85}\U{a0}\U{1680}\U{2000}\U{2001}\U{2002}\U{2003}\U{2004}"
            || c in "\U{2005}\U{2006}\U{2007}\U{2008}\U{2009}\U{200a}\U{2028}\U{2029}\U{202f}\U{205f}\U{3000}"
  {
  }

  function LeftStrip(s: string): string {
    if s != [] && Space(s[0]) then LeftStrip(s[1..]) else s
  }

  function RightStrip(s: string): string {
    if s != [] && Space(s[|s| - 1]) then RightStrip(s[..|s| - 1]) else s
  }

  function Strip(s: string): string {
    RightStrip(LeftStrip(s))
  }

  predicate Plain(s: string) {
    forall i | 0 <= i < |s| :: s[i] != '{' && s[i] != '}'
  }

  // ---------------------------------------------------------------- matching braces

  function Depth(c: char, depth: nat): nat
    requires depth > 0
  {
    if c == '{' then depth + 1 else if c == '}' then depth - 1 else depth
  }

  /** How far to read from inside `depth` open braces until they are all closed. */
  function Close(s: string, depth: nat): (n: Option<nat>)
    requires depth > 0
    ensures n.Some? ==> 0 < n.value <= |s| && s[n.value - 1] == '}'
  {
    if s == [] then None
    else if Depth(s[0], depth) == 0 then Some(1)
    else
      match Close(s[1..], Depth(s[0], depth))
      case None => None
      case Some(n) => Some(n + 1)
  }

  /** Two results together; a refusal on either side refuses. */
  function Both(a: Option<set<Record>>, b: Option<set<Record>>): Option<set<Record>> {
    if a.None? || b.None? then None else Some(a.value + b.value)
  }

  /** What is read of `s`; None is the refusal of unsupported or unbalanced text. */
  function Parse(s: string, parents: seq<string>): Option<set<Record>>
    decreases |s|, 0
  {
    var opening := Find(s, '{');
    if opening == |s| then
      if Strip(s) == [] then Some({}) else None
    else
      var n := Close(s[opening + 1..], 1);
      if n.None? then None
      else
        Both(Inside(s[opening + 1..opening + n.value], parents, Strip(s[..opening])),
             Parse(s[opening + 1 + n.value..], parents))
  }

  /** A block with blocks in it is a group; any other is a rule. */
  function Inside(body: string, parents: seq<string>, header: string): Option<set<Record>>
    decreases |body|, 1
  {
    if Find(body, '{') < |body| then Parse(body, parents + [header])
    else Some({Record(parents, header, Strip(body))})
  }

  // ---------------------------------------------------------------- the reader as written

  /** `read` characters and then as many as the rest needs. */
  function Beyond(read: nat, rest: Option<nat>): Option<nat> {
    match rest case None => None case Some(n) => Some(read + n)
  }

  /** Counts braces from `opening`; returns the position after the match, or `end` and an open depth. */
  method Match(text: string, opening: nat, end: nat) returns (depth: nat, closing: nat)
    requires opening < end <= |text|
    ensures opening < closing <= end
    ensures if depth == 0 then Close(text[opening + 1..end], 1) == Some(closing - opening - 1) && opening + 2 <= closing <= end
            else Close(text[opening + 1..end], 1) == None
  {
    hide Close;
    BeyondNothing(Close(text[opening + 1..end], 1));
    depth, closing := 1, opening + 1;
    while closing < end && depth > 0
      invariant opening + 1 <= closing <= end && (depth == 0 ==> opening + 2 <= closing)
      invariant Close(text[opening + 1..end], 1) ==
                if depth == 0 then Some(closing - opening - 1)
                else Beyond(closing - opening - 1, Close(text[closing..end], depth))
      decreases end - closing
    {
      CloseStep(text[closing..end], depth);
      ghost var next := Depth(text[closing], depth);
      if next > 0 { BeyondAdds(closing - opening - 1, 1, Close(text[closing + 1..end], next)); }
      assert text[closing..end][1..] == text[closing + 1..end];
      depth := if text[closing] == '{' then depth + 1 else if text[closing] == '}' then depth - 1 else depth;
      closing := closing + 1;
    }
    if depth > 0 {
      assert text[closing..end] == [];
      CloseNothing(depth);
    }
  }

  lemma BeyondNothing(rest: Option<nat>)
    ensures Beyond(0, rest) == rest
  {
  }

  lemma BeyondAdds(a: nat, b: nat, rest: Option<nat>)
    ensures Beyond(a, Beyond(b, rest)) == Beyond(a + b, rest)
  {
  }

  lemma CloseNothing(depth: nat)
    requires depth > 0
    ensures Close([], depth) == None
  {
  }

  lemma CloseStep(s: string, depth: nat)
    requires s != [] && depth > 0
    ensures Close(s, depth) ==
            if Depth(s[0], depth) == 0 then Some(1) else Beyond(1, Close(s[1..], Depth(s[0], depth)))
  {
  }

  /** The first block of `s` and then the rest. */
  lemma ParseStep(s: string, parents: seq<string>, opening: nat, n: nat)
    requires opening == Find(s, '{') < |s| && Close(s[opening + 1..], 1) == Some(n)
    ensures Parse(s, parents) ==
            Both(Inside(s[opening + 1..opening + n], parents, Strip(s[..opening])), Parse(s[opening + 1 + n..], parents))
  {
    hide Find, Close, Inside, Strip, Both;
  }

  lemma NoBlock(s: string, parents: seq<string>)
    requires Find(s, '{') == |s| || Close(s[Find(s, '{') + 1..], 1).None?
    ensures Parse(s, parents) == if Find(s, '{') == |s| && Strip(s) == [] then Some({}) else None
  {
    hide Find, Close, Inside, Strip, Both;
  }

  /** `parse` on text[start..end]. */
  method ParseRange(text: string, start: nat, end: nat, parents: seq<string>) returns (records: Option<set<Record>>)
    requires start <= end <= |text|
    ensures records == Parse(text[start..end], parents)
    decreases end - start, 0
  {
    hide Parse, Close, Strip, Inside, Find;
    var cursor, found: set<Record> := start, {};
    BothNothing(Parse(text[start..end], parents));
    while cursor < end
      invariant start <= cursor <= end
      invariant Parse(text[start..end], parents) == Both(Some(found), Parse(text[cursor..end], parents))
      decreases end - cursor
    {
      var s := text[cursor..end];
      var opening := cursor + Find(s, '{');
      if opening == end {
        NoBlock(s, parents);
        if Strip(s) != [] {
          return None;
        }
        return Some(found);
      }
      var header := Strip(text[cursor..opening]);
      var depth, closing := Match(text, opening, end);
      Slices(text, cursor, opening, closing, end);
      if depth > 0 {
        NoBlock(s, parents);
        return None;
      }
      ParseStep(s, parents, opening - cursor, closing - opening - 1);
      var block := ParseBody(text, opening + 1, closing - 1, parents, header);
      if block.None? {
        return None;
      }
      BothAssociates(found, block.value, Parse(text[closing..end], parents));
      found := found + block.value;
      cursor := closing;
    }
    Nothing(text, cursor, parents);
    return Some(found);
  }

  /** The body of a block, text[start..end]. */
  method ParseBody(text: string, start: nat, end: nat, parents: seq<string>, header: string)
    returns (records: Option<set<Record>>)
    requires start <= end <= |text|
    ensures records == Inside(text[start..end], parents, header)
    decreases end - start, 1
  {
    hide Parse, Close, Strip, Find;
    if Find(text[start..end], '{') < end - start {
      records := ParseRange(text, start, end, parents + [header]);
    } else {
      records := Some({Record(parents, header, Strip(text[start..end]))});
    }
  }

  lemma SliceOfSlice(text: string, a: nat, b: nat, i: nat, j: nat)
    requires a <= b <= |text| && i <= j <= b - a
    ensures text[a..b][i..j] == text[a + i..a + j]
  {
    var x, y := text[a..b][i..j], text[a + i..a + j];
    assert |x| == |y|;
    forall k | 0 <= k < |x| ensures x[k] == y[k] {
      assert x[k] == text[a..b][i + k] == text[a + i + k] == y[k];
    }
  }

  /** The parts of text[cursor..end] around one block. */
  lemma Slices(text: string, cursor: nat, opening: nat, closing: nat, end: nat)
    requires cursor <= opening < closing <= end <= |text|
    ensures var s := text[cursor..end];
            && s[..opening - cursor] == text[cursor..opening] && s[opening - cursor + 1..] == text[opening + 1..end]
            && s[closing - cursor..] == text[closing..end]
            && (opening + 2 <= closing ==> s[opening - cursor + 1..closing - cursor - 1] == text[opening + 1..closing - 1])
  {
    var s := text[cursor..end];
    SliceOfSlice(text, cursor, end, 0, opening - cursor);
    assert s[..opening - cursor] == s[0..opening - cursor];
    SliceOfSlice(text, cursor, end, opening - cursor + 1, end - cursor);
    assert s[opening - cursor + 1..] == s[opening - cursor + 1..end - cursor];
    SliceOfSlice(text, cursor, end, closing - cursor, end - cursor);
    assert s[closing - cursor..] == s[closing - cursor..end - cursor];
    if opening + 2 <= closing { SliceOfSlice(text, cursor, end, opening - cursor + 1, closing - cursor - 1); }
  }

  lemma BothAssociates(a: set<Record>, b: set<Record>, rest: Option<set<Record>>)
    ensures Both(Some(a), Both(Some(b), rest)) == Both(Some(a + b), rest)
  {
    if rest.Some? { assert a + (b + rest.value) == a + b + rest.value; }
  }

  lemma BothNothing(rest: Option<set<Record>>)
    ensures Both(Some({}), rest) == rest
  {
    if rest.Some? { assert {} + rest.value == rest.value; }
  }

  lemma Nothing(text: string, end: nat, parents: seq<string>)
    requires end <= |text|
    ensures Parse(text[end..end], parents) == Some({})
  {
  }

  // ---------------------------------------------------------------- comments and quotes

  /** The position right after the first end of a comment in `s`, if there is one. */
  function CommentEnd(s: string): (n: Option<nat>)
    ensures n.Some? ==> 2 <= n.value <= |s|
  {
    if |s| < 2 then None
    else if s[0] == '*' && s[1] == '/' then Some(2)
    else
      match CommentEnd(s[1..])
      case None => None
      case Some(n) => Some(n + 1)
  }

  function WithoutComments(s: string): string
    decreases |s|
  {
    if |s| < 2 then s
    else if s[0] == '/' && s[1] == '*' && CommentEnd(s[2..]).Some? then WithoutComments(s[2 + CommentEnd(s[2..]).value..])
    else [s[0]] + WithoutComments(s[1..])
  }

  predicate Quote(c: char) {
    c == '"' || c == '\''
  }

  /** Two quotes on one line with a brace and no other quote between them. */
  predicate QuotedBrace(s: string) {
    exists i, j | 0 <= i < j < |s| ::
      && Quote(s[i]) && Quote(s[j]) && (forall k | i < k < j :: !Quote(s[k]) && s[k] != '\n')
      && !Plain(s[i + 1..j])
  }

  /** `css_rules`; None is the ValueError that makes the caller check everything. */
  function Rules(text: string): Option<set<Record>> {
    var s := WithoutComments(text);
    if QuotedBrace(s) then None else Parse(s, [])
  }

  method ReadRules(text: string) returns (records: Option<set<Record>>)
    ensures records == Rules(text)
  {
    hide WithoutComments, QuotedBrace, Parse;
    var s := WithoutComments(text);
    if QuotedBrace(s) {
      return None;
    }
    records := ParseRange(s, 0, |s|, []);
    assert s[0..|s|] == s;
  }

  // ---------------------------------------------------------------- accepted text is matched

  /** More text after a match does not move it. */
  lemma {:induction false} CloseExtends(s: string, rest: string, depth: nat)
    requires depth > 0 && Close(s, depth).Some?
    ensures Close(s + rest, depth) == Close(s, depth)
    decreases |s|
  {
    assert (s + rest)[0] == s[0] && (s + rest)[1..] == s[1..] + rest;
    if Depth(s[0], depth) > 0 { CloseExtends(s[1..], rest, Depth(s[0], depth)); }
  }

  /** Accepted text that has a brace starts with a matched block around an accepted body, and goes on
      with accepted text. */
  lemma AcceptedBlock(s: string, parents: seq<string>) returns (n: nat)
    requires Parse(s, parents).Some? && Find(s, '{') < |s|
    ensures var opening := Find(s, '{');
            && Close(s[opening + 1..], 1) == Some(n) && opening + 1 + n <= |s| && n > 0 && s[opening + n] == '}'
            && Parse(s[opening + 1 + n..], parents).Some?
            && var body := s[opening + 1..opening + n];
               Find(body, '{') < |body| ==> Parse(body, parents + [Strip(s[..opening])]).Some?
  {
    hide Parse, Strip, Find, Close;
    var opening := Find(s, '{');
    if Close(s[opening + 1..], 1).None? { NoBlock(s, parents); }
    n := Close(s[opening + 1..], 1).value;
    assert s[opening + 1..][n - 1] == s[opening + n];
    ParseStep(s, parents, opening, n);
  }

  /** A match inside the body of a block is a match in the text. */
  lemma MatchedInside(s: string, opening: nat, n: nat, i: nat)
    requires opening < i < opening + n < |s|
    requires Close(s[opening + 1..opening + n][i - opening..], 1).Some?
    ensures Close(s[i + 1..], 1).Some?
  {
    hide Close;
    var inner := s[opening + 1..opening + n][i - opening..];
    CloseExtends(inner, s[opening + n..], 1);
    assert s[i + 1..] == inner + s[opening + n..];
  }

  /** Whatever text is accepted, each of its opening braces is matched by a closing one. */
  lemma {:induction false} EveryBraceMatched(s: string, parents: seq<string>, i: nat)
    requires Parse(s, parents).Some? && i < |s| && s[i] == '{'
    ensures Close(s[i + 1..], 1).Some?
    decreases |s|
  {
    hide Parse, Close, Strip, Find;
    var opening := Find(s, '{');
    if i < opening { FindFirst(s, '{', i); }
    var n := AcceptedBlock(s, parents);
    if opening < i < opening + n {
      var body, k := s[opening + 1..opening + n], i - opening - 1;
      assert body[k] == '{';
      if Find(body, '{') == |body| { FindFirst(body, '{', k); }
      EveryBraceMatched(body, parents + [Strip(s[..opening])], k);
      MatchedInside(s, opening, n, i);
    } else if opening + n < i {
      var rest, k := s[opening + 1 + n..], i - (opening + 1 + n);
      assert rest[k] == '{';
      EveryBraceMatched(rest, parents, k);
      assert s[i + 1..] == rest[k + 1..];
    }
  }
}
