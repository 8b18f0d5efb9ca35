/** Object keys and content types the storage accepts, and the text of a record's header. */
module ObjectKeys {
  import opened Wrappers

  const MAX_KEY: nat := 512
  const MAX_TYPE: nat := 255
  // The largest size limit the settings allow.
  const MAX_BYTES: nat := 104_857_600

  predicate Alnum(c: char) {
    'A' <= c <= 'Z' || 'a' <= c <= 'z' || '0' <= c <= '9'
  }

  predicate KeyChar(c: char) {
    Alnum(c) || c == '.' || c == '_' || c == '/' || c == '-'
  }

  predicate TypeChar(c: char) {
    Alnum(c) || c == '!' || c == '#' || c == '$' || c == '&' || c == '^' || c == '_' || c == '.' || c == '+' || c == '-'
  }

  function Split(s: string, c: char): (parts: seq<string>)
    ensures parts != []
  {
    if s == [] then [[]]
    else
      var rest := Split(s[1..], c);
      if s[0] == c then [[]] + rest else [[s[0]] + rest[0]] + rest[1..]
  }

  function Join(parts: seq<string>, c: char): string
    requires parts != []
  {
    if |parts| == 1 then parts[0] else parts[0] + [c] + Join(parts[1..], c)
  }

  /** The parts, joined again, are the text, and none of them holds the separator. */
  lemma {:induction false} SplitJoins(s: string, c: char)
    ensures Join(Split(s, c), c) == s
    ensures forall i, k | 0 <= i < |Split(s, c)| && 0 <= k < |Split(s, c)[i]| :: Split(s, c)[i][k] != c
    decreases |s|
  {
    if s != [] {
      SplitJoins(s[1..], c);
      var rest, parts := Split(s[1..], c), Split(s, c);
      if s[0] == c {
        assert parts[1..] == rest;
        assert [] + [c] + Join(rest, c) == s;
      } else if |rest| == 1 {
        assert parts == [[s[0]] + rest[0]];
      } else {
        assert parts[1..] == rest[1..];
        assert ([s[0]] + rest[0]) + [c] + Join(rest[1..], c) == [s[0]] + (rest[0] + [c] + Join(rest[1..], c));
      }
    }
  }

  predicate ValidKey(key: string) {
    && 0 < |key| <= MAX_KEY && Alnum(key[0]) && (forall i | 0 <= i < |key| :: KeyChar(key[i]))
    && forall i | 0 <= i < |Split(key, '/')| :: Split(key, '/')[i] !in {"", ".", ".."}
  }

  /** A stretch of text between two separators, or the ends. */
  predicate Segment(s: string, c: char, i: nat, j: nat) {
    i <= j <= |s| && (i == 0 || s[i - 1] == c) && (j == |s| || s[j] == c) && forall k | i <= k < j :: s[k] != c
  }

  lemma {:induction false} SegmentIsPart(s: string, c: char, i: nat, j: nat)
    requires Segment(s, c, i, j)
    ensures s[i..j] in Split(s, c) && (i == 0 ==> s[..j] == Split(s, c)[0])
    decreases |s|
  {
    if s != [] {
      var rest := Split(s[1..], c);
      if s[0] == c {
        if i > 0 {
          assert s[1..][i - 1..j - 1] == s[i..j] && Segment(s[1..], c, i - 1, j - 1);
          SegmentIsPart(s[1..], c, i - 1, j - 1);
          assert Split(s, c) == [[]] + rest;
        }
      } else if i == 0 {
        assert Segment(s[1..], c, 0, j - 1) && s[1..][0..j - 1] == s[1..j];
        SegmentIsPart(s[1..], c, 0, j - 1);
        assert s[..j] == [s[0]] + s[1..][..j - 1] == Split(s, c)[0];
      } else {
        assert i > 1 && Segment(s[1..], c, i - 1, j - 1) && s[1..][i - 1..j - 1] == s[i..j];
        SegmentAfterFirst(s[1..], c, i - 1, j - 1);
      }
    }
  }

  lemma {:induction false} SegmentAfterFirst(s: string, c: char, i: nat, j: nat)
    requires Segment(s, c, i, j) && i > 0
    ensures s[i..j] in Split(s, c)[1..]
    decreases |s|
  {
    var rest := Split(s[1..], c);
    if s[0] == c {
      assert Split(s, c)[1..] == rest;
      assert s[1..][i - 1..j - 1] == s[i..j];
      SegmentIsPart(s[1..], c, i - 1, j - 1);
    } else {
      assert i > 1 && s[1..][i - 1..j - 1] == s[i..j];
      SegmentAfterFirst(s[1..], c, i - 1, j - 1);
    }
  }

  lemma {:induction false} PartIsSegment(s: string, c: char, n: nat) returns (i: nat, j: nat)
    requires n < |Split(s, c)|
    ensures Segment(s, c, i, j) && s[i..j] == Split(s, c)[n] && (i == 0 <==> n == 0)
    decreases |s|
  {
    i, j := 0, 0;
    if s != [] {
      var rest := Split(s[1..], c);
      if s[0] == c {
        if n > 0 {
          i, j := PartIsSegment(s[1..], c, n - 1);
          assert s[1..][i..j] == s[i + 1..j + 1];
          i, j := i + 1, j + 1;
        }
      } else {
        i, j := PartIsSegment(s[1..], c, n);
        assert s[1..][i..j] == s[i + 1..j + 1];
        assert Split(s, c) == [[s[0]] + rest[0]] + rest[1..];
        if n == 0 { j := j + 1; } else { i, j := i + 1, j + 1; }
      }
    }
  }

  /** A key is 1 to 512 letters, digits, dots, underscores, slashes and dashes, starts with a letter or a digit, and has
      no empty, "." or ".." between its slashes. */
  lemma KeyIs(key: string)
    ensures ValidKey(key) <==>
            && 0 < |key| <= 512 && Alnum(key[0])
            && (forall i | 0 <= i < |key| :: Alnum(key[i]) || key[i] in "._/-")
            && (forall i: nat, j: nat | Segment(key, '/', i, j) :: key[i..j] != "" && key[i..j] != "." && key[i..j] != "..")
  {
    assert forall i | 0 <= i < |key| :: KeyChar(key[i]) <==> Alnum(key[i]) || key[i] in "._/-";
    var parts := Split(key, '/');
    if ValidKey(key) {
      forall i: nat, j: nat | Segment(key, '/', i, j) ensures key[i..j] != "" && key[i..j] != "." && key[i..j] != ".." {
        SegmentIsPart(key, '/', i, j);
        var n :| 0 <= n < |parts| && parts[n] == key[i..j];
      }
    }
    if forall i: nat, j: nat | Segment(key, '/', i, j) :: key[i..j] != "" && key[i..j] != "." && key[i..j] != ".." {
      forall n | 0 <= n < |parts| ensures parts[n] !in {"", ".", ".."} {
        var i, j := PartIsSegment(key, '/', n);
      }
    }
  }

  predicate ValidType(t: string) {
    |t| <= MAX_TYPE &&
    exists i | 0 < i < |t| - 1 :: t[i] == '/' && forall k | 0 <= k < |t| && k != i :: TypeChar(t[k])
  }

  /** A content type is at most 255 characters: two non-empty names around the one slash. */
  lemma TypeIs(t: string)
    ensures ValidType(t) <==>
            |t| <= 255 && exists i | 0 < i < |t| - 1 ::
              t[i] == '/' && forall k | 0 <= k < |t| && k != i :: Alnum(t[k]) || t[k] in "!#$&^_.+-"
  {
    assert forall k | 0 <= k < |t| :: TypeChar(t[k]) <==> Alnum(t[k]) || t[k] in "!#$&^_.+-";
  }

  // ---------------------------------------------------------------- decimal numbers

  function Digit(n: nat): char
    requires n < 10
  {
    ['0', '1', '2', '3', '4', '5', '6', '7', '8', '9'][n]
  }

  function Value(c: char): nat {
    if '0' <= c <= '9' then (c - '0') as nat else 0
  }

  function Decimal(n: nat): string {
    if n < 10 then [Digit(n)] else Decimal(n / 10) + [Digit(n % 10)]
  }

  function Number(s: string): nat {
    if s == [] then 0 else Number(s[..|s| - 1]) * 10 + Value(s[|s| - 1])
  }

  lemma DigitValue(n: nat)
    requires n < 10
    ensures Value(Digit(n)) == n && '0' <= Digit(n) <= '9'
  {
  }

  lemma {:induction false} NumberOfDecimal(n: nat)
    ensures Number(Decimal(n)) == n && Decimal(n) != []
    ensures forall i | 0 <= i < |Decimal(n)| :: '0' <= Decimal(n)[i] <= '9'
  {
    if n < 10 {
      DigitValue(n);
      assert Number([Digit(n)]) == Number([]) * 10 + Value(Digit(n)) by { assert [Digit(n)][..0] == []; }
    } else {
      NumberOfDecimal(n / 10);
      DigitValue(n % 10);
      var s := Decimal(n);
      assert s[..|s| - 1] == Decimal(n / 10) && s[|s| - 1] == Digit(n % 10);
    }
  }

  function Power10(k: nat): nat {
    if k == 0 then 1 else 10 * Power10(k - 1)
  }

  lemma {:induction false} DecimalLength(n: nat, k: nat)
    requires k > 0 && n < Power10(k)
    ensures |Decimal(n)| <= k
    decreases k
  {
    if n >= 10 {
      assert k > 1;
      DecimalLength(n / 10, k - 1);
    }
  }

  // ---------------------------------------------------------------- the header

  datatype Header = Header(version: int, key: string, size: int, contentType: string)

  const OPEN := "{\"version\": 1, \"key\": \""
  const SIZE := "\", \"size\": "
  const TYPE := ", \"content_type\": \""
  const CLOSE := "\"}"

  /** What `json.dumps` makes of a header whose texts need no escapes. */
  function Dumps(key: string, size: nat, contentType: string): string {
    OPEN + (key + (SIZE + (Decimal(size) + (TYPE + (contentType + CLOSE)))))
  }

  predicate Unquoted(s: string) {
    forall i | 0 <= i < |s| :: s[i] != '"'
  }

  predicate Ascii(s: string) {
    forall i | 0 <= i < |s| :: s[i] < 128 as char
  }

  lemma ValidTexts(key: string, contentType: string)
    requires ValidKey(key) && ValidType(contentType)
    ensures Unquoted(key) && Unquoted(contentType) && Ascii(key) && Ascii(contentType)
  {
    var i :| 0 < i < |contentType| - 1 && contentType[i] == '/'
             && forall k | 0 <= k < |contentType| && k != i :: TypeChar(contentType[k]);
    forall k | 0 <= k < |key| ensures key[k] != '"' && key[k] < 128 as char { assert KeyChar(key[k]); }
  }

  /** The header always fits: its length prefix is at most 4096. */
  lemma HeaderFits(key: string, size: nat, contentType: string)
    requires ValidKey(key) && ValidType(contentType) && size <= MAX_BYTES
    ensures 0 < |Dumps(key, size, contentType)| <= 1024
  {
    assert Power10(9) == 1_000_000_000 by {
      assert Power10(3) == 1000;
      assert Power10(6) == 1_000_000;
    }
    DecimalLength(size, 9);
  }

  /** The text up to `c`, and what comes from there. */
  function Cut(s: string, c: char): (string, string) {
    (s[..Find(s, c)], s[Find(s, c)..])
  }

  lemma CutBack(s: string, c: char, rest: string)
    requires (forall i | 0 <= i < |s| :: s[i] != c) && rest != [] && rest[0] == c
    ensures Cut(s + rest, c) == (s, rest)
  {
    FindAfter(s, c, rest);
  }

  function Drop(s: string, prefix: string): Option<string> {
    if prefix <= s then Some(s[|prefix|..]) else None
  }

  lemma DropBack(prefix: string, rest: string)
    ensures Drop(prefix + rest, prefix) == Some(rest)
  {
  }

  /** A reader of exactly the headers `Dumps` writes. */
  function Loads(text: string): Option<Header> {
    match Drop(text, OPEN)
    case None => None
    case Some(t1) =>
      var (key, t2) := Cut(t1, '"');
      match Drop(t2, SIZE)
      case None => None
      case Some(t3) =>
        var (digits, t4) := Cut(t3, ',');
        match Drop(t4, TYPE)
        case None => None
        case Some(t5) =>
          var (contentType, t6) := Cut(t5, '"');
          if t6 == CLOSE && digits != [] && forall i | 0 <= i < |digits| :: '0' <= digits[i] <= '9'
          then Some(Header(1, key, Number(digits), contentType)) else None
  }

  /** Reading a header back gives what was written. */
  lemma LoadsUndoesDumps(key: string, size: nat, contentType: string)
    requires Unquoted(key) && Unquoted(contentType)
    ensures Loads(Dumps(key, size, contentType)) == Some(Header(1, key, size, contentType))
  {
    hide Drop, Cut, Decimal, Number;
    NumberOfDecimal(size);
    var t6 := CLOSE;
    var t5 := contentType + t6;
    var t4 := TYPE + t5;
    var t3 := Decimal(size) + t4;
    var t2 := SIZE + t3;
    var t1 := key + t2;
    DropBack(OPEN, t1);
    CutBack(key, '"', t2);
    DropBack(SIZE, t3);
    CutBack(Decimal(size), ',', t4);
    DropBack(TYPE, t5);
    CutBack(contentType, '"', t6);
  }
}
